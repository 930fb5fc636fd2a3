/** The deliverer's own passes, run without interruption, are paths through the
    interleaved protocol, and what a pass that reports success has settled. */
module DeliveryPaths {
  import opened Results
  import opened Domain
  import opened StateStore
  import opened StoreTheorems
  import opened Commands
  import opened Mailbox
  import opened Deliverer
  import opened MessageFacts
  import opened DeliveryOrder
  import opened DeliveryOutcomes

  /* ---------- Passes are paths ---------- */

  function Follow(w: World, moves: seq<Move>): (w': World)
    requires w.store.disk.Valid()
    ensures w'.store.disk.Valid()
    decreases |moves|
  {
    if moves == [] then w else Follow(Next(w, moves[0]), moves[1..])
  }

  lemma {:induction false} FollowOn(w: World, first: seq<Move>, rest: seq<Move>)
    requires w.store.disk.Valid()
    ensures Follow(w, first + rest) == Follow(Follow(w, first), rest)
    decreases |first|
  {
    hide Next;
    if first == [] {
      assert first + rest == rest;
    } else {
      assert (first + rest)[0] == first[0] && (first + rest)[1..] == first[1..] + rest;
      FollowOn(Next(w, first[0]), first[1..], rest);
    }
  }

  /** The steps one pass takes itself. */
  predicate OwnStep(move: Move, id: nat) {
    match move
    case BeginDeliver(i) => i == id
    case FileNext(i, _) => i == id
    case RecordFiled(i, _) => i == id
    case BeginIngest(i) => i == id
    case ScanNext(i, _, _) => i == id
    case RecordFound(i, _) => i == id
    case PutAway(i, _, _) => i == id
    case _ => false
  }

  predicate OwnSteps(moves: seq<Move>, id: nat) {
    forall k :: 0 <= k < |moves| ==> OwnStep(moves[k], id)
  }

  /** The world where this pass has got so far. */
  function Reached(w: World, id: nat, p: Progress, pass: Pass): World {
    w.(store := p.0, mail := p.1, passes := if p.2.None? then w.passes[id := pass] else w.passes - {id})
  }

  lemma FollowOne(w: World, move: Move)
    requires w.store.disk.Valid()
    ensures Follow(w, [move]) == Next(w, move)
  {
    hide Next;
    assert [move][1..] == [];
    assert Follow(Next(w, move), []) == Next(w, move);
  }

  lemma FollowTwo(w: World, first: Move, second: Move)
    requires w.store.disk.Valid()
    ensures Follow(w, [first, second]) == Next(Next(w, first), second)
  {
    hide Next, Follow;
    assert [first, second] == [first] + [second];
    FollowOn(w, [first], [second]);
    FollowOne(w, first);
    FollowOne(Next(w, first), second);
  }

  lemma DeliverOneIsPath(w: World, id: nat, messages: seq<Message>, env: Env) returns (moves: seq<Move>)
    requires w.store.disk.Valid() && id in w.passes && w.passes[id] == Delivering(messages, false) && messages != []
    ensures OwnSteps(moves, id)
    ensures Follow(w, moves) ==
            Reached(w, id, DeliverOne(w.store, w.mail, messages[0], env), Delivering(messages[1..], false))
  {
    var file, record := FileNext(id, env.io), RecordFiled(id, env);
    FollowOne(w, file);
    FollowTwo(w, file, record);
    hide Follow, PublishStep, CommitStep;
    if !NeedsPublishing(messages[0]) || PublishStep(w.mail, messages[0].id, EnvelopeOf(messages[0]), env.io).1.Some? {
      moves := [file];
    } else {
      moves := [file, record];
      var filed := Next(w, file);
      assert filed.passes[id] == Delivering(messages, true);
      assert Next(filed, record) == RecordFiledStep(filed, id, filed.passes[id], env);
      assert filed.passes - {id} == w.passes - {id};
    }
  }

  lemma {:induction false} DeliverIsPath(w: World, id: nat, messages: seq<Message>, envs: nat -> Env, k: nat)
    returns (moves: seq<Move>)
    requires w.store.disk.Valid() && k <= |messages| && id in w.passes
             && w.passes[id] == Delivering(messages[k..], false)
    ensures OwnSteps(moves, id)
    ensures Follow(w, moves) == Reached(w, id, DeliverFrom(w.store, w.mail, messages, envs, k), Delivering([], false))
    decreases |messages| - k
  {
    hide Follow, Next, DeliverOne;
    if k == |messages| {
      moves := [];
      StayingIsFollowing(w, id, Delivering([], false));
    } else {
      var first := DeliverOneIsPath(w, id, messages[k..], envs(k));
      assert messages[k..][0] == messages[k] && messages[k..][1..] == messages[k + 1..];
      var one := DeliverOne(w.store, w.mail, messages[k], envs(k));
      moves := first;
      if one.2.None? {
        var rest := DeliverIsPath(Follow(w, first), id, messages, envs, k + 1);
        FollowOn(w, first, rest);
        moves := first + rest;
        ReachedTwice(w, id, one, Delivering(messages[k + 1..], false),
                     DeliverFrom(one.0, one.1, messages, envs, k + 1), Delivering([], false));
      }
    }
  }

  lemma StayingIsFollowing(w: World, id: nat, pass: Pass)
    requires w.store.disk.Valid() && id in w.passes && w.passes[id] == pass
    ensures Follow(w, []) == Reached(w, id, (w.store, w.mail, None), pass)
  {
    assert w.passes[id := pass] == w.passes;
  }

  lemma ReachedTwice(w: World, id: nat, one: Progress, between: Pass, all: Progress, end: Pass)
    requires one.2.None?
    ensures Reached(Reached(w, id, one, between), id, all, end) == Reached(w, id, all, end)
  {
    assert w.passes[id := between][id := end] == w.passes[id := end];
    assert w.passes[id := between] - {id} == w.passes - {id};
  }

  /** An uninterrupted `DeliverPending` is a run of the protocol: what the method
      computes is what its own steps reach. */
  lemma DeliverPendingIsPath(w: World, id: nat, envs: nat -> Env) returns (moves: seq<Move>)
    requires w.store.disk.Valid() && id !in w.passes
    ensures OwnSteps(moves, id)
    ensures Follow(w, moves) ==
            Reached(w, id, DeliverFrom(w.store, w.mail, Loaded(w.store).messages, envs, 0), Delivering([], false))
  {
    var messages, begin := Loaded(w.store).messages, BeginDeliver(id);
    FollowOne(w, begin);
    assert messages[0..] == messages;
    var w1 := Next(w, begin);
    hide Follow, DeliverFrom;
    var rest := DeliverIsPath(w1, id, messages, envs, 0);
    moves := [begin] + rest;
    FollowOn(w, [begin], rest);
    ReachedTwice(w, id, (w.store, w.mail, None), Delivering(messages, false),
                 DeliverFrom(w.store, w.mail, messages, envs, 0), Delivering([], false));
  }

  lemma IngestOneIsPath(w: World, id: nat, p: Pass, env: Env) returns (moves: seq<Move>)
    requires w.store.disk.Valid() && id in w.passes && w.passes[id] == p
    requires p.Ingesting? && p.found != [] && !p.recorded
    ensures OwnSteps(moves, id)
    ensures Follow(w, moves) ==
            Reached(w, id, IngestOne(w.store, w.mail, p.published, p.found[0], env), p.(found := p.found[1..]))
  {
    var record, put := RecordFound(id, env), PutAway(id, env.listing, env.io);
    FollowOne(w, record);
    FollowTwo(w, record, put);
    hide Follow, ArchiveStep, CommitStep;
    if p.found[0].messageID !in p.published
       || CommitStep(w.store, RecordProcessing(p.found[0].messageID, env), env.faults).1.Err? {
      moves := [record];
    } else {
      moves := [record, put];
      var recorded := Next(w, record);
      assert recorded.passes[id] == p.(recorded := true);
      assert Next(recorded, put) == PutAwayStep(recorded, id, recorded.passes[id], env.listing, env.io);
      assert recorded.passes - {id} == w.passes - {id};
    }
  }

  lemma {:induction false} IngestIsPath(
    w: World, id: nat, published: set<string>, agents: set<string>, found: seq<Envelope>, envs: nat -> Env, k: nat)
    returns (moves: seq<Move>)
    requires w.store.disk.Valid() && k <= |found|
    requires id in w.passes && w.passes[id] == Ingesting(published, agents, found[k..], false)
    ensures OwnSteps(moves, id)
    ensures Follow(w, moves) ==
            Reached(w, id, IngestFrom(w.store, w.mail, published, found, envs, k),
                Ingesting(published, agents, [], false))
    decreases |found| - k
  {
    hide Follow, Next, IngestOne;
    if k == |found| {
      moves := [];
      StayingIsFollowing(w, id, Ingesting(published, agents, [], false));
    } else {
      var first := IngestOneIsPath(w, id, w.passes[id], envs(k));
      assert found[k..][0] == found[k] && found[k..][1..] == found[k + 1..];
      var one := IngestOne(w.store, w.mail, published, found[k], envs(k));
      moves := first;
      if one.2.None? {
        var rest := IngestIsPath(Follow(w, first), id, published, agents, found, envs, k + 1);
        FollowOn(w, first, rest);
        moves := first + rest;
        ReachedTwice(w, id, one, Ingesting(published, agents, found[k + 1..], false),
                     IngestFrom(one.0, one.1, published, found, envs, k + 1), Ingesting(published, agents, [], false));
      }
    }
  }

  lemma IngestInboxIsPath(
    w: World, id: nat, published: set<string>, agents: set<string>, agent: string, scan: Listing, envs: nat -> Env)
    returns (moves: seq<Move>)
    requires w.store.disk.Valid() && id in w.passes && w.passes[id] == Ingesting(published, agents, [], false)
             && agent in agents
    ensures OwnSteps(moves, id)
    ensures Follow(w, moves) ==
            Reached(w, id, IngestInbox(w.store, w.mail, published, agent, scan, envs),
                    Ingesting(published, agents - {agent}, [], false))
  {
    var look := ScanNext(id, agent, scan);
    FollowOne(w, look);
    hide Follow, IngestFrom, Scanned, ValidID;
    moves := [look];
    if ValidID(agent) && !scan.faults.read {
      var found := Scanned(w.mail, agent, scan.names);
      assert found[0..] == found;
      var w1 := Next(w, look);
      var rest := IngestIsPath(w1, id, published, agents - {agent}, found, envs, 0);
      FollowOn(w, [look], rest);
      moves := [look] + rest;
      ReachedTwice(w, id, (w.store, w.mail, None), Ingesting(published, agents - {agent}, found, false),
                   IngestFrom(w.store, w.mail, published, found, envs, 0),
                       Ingesting(published, agents - {agent}, [], false));
    }
  }

  /** The agents still to visit. */
  function Rest(order: seq<string>, a: nat): set<string>
    requires a <= |order|
  {
    set i | a <= i < |order| :: order[i]
  }

  lemma {:induction false} IngestAgentsIsPath(
    w: World, id: nat, published: set<string>, order: seq<string>, scans: nat -> Listing,
    envs: nat -> nat -> Env, a: nat)
    returns (moves: seq<Move>)
    requires w.store.disk.Valid() && a <= |order| && forall i, j :: 0 <= i < j < |order| ==> order[i] != order[j]
    requires id in w.passes && w.passes[id] == Ingesting(published, Rest(order, a), [], false)
    ensures OwnSteps(moves, id)
    ensures Follow(w, moves) ==
            Reached(w, id, IngestAgents(w.store, w.mail, published, order, scans, envs, a),
                Ingesting(published, {}, [], false))
    decreases |order| - a
  {
    hide Follow, Next, IngestInbox;
    if a == |order| {
      moves := [];
      assert Rest(order, a) == {};
      StayingIsFollowing(w, id, Ingesting(published, {}, [], false));
    } else {
      var first := IngestInboxIsPath(w, id, published, Rest(order, a), order[a], scans(a), envs(a));
      assert Rest(order, a) - {order[a]} == Rest(order, a + 1);
      var one := IngestInbox(w.store, w.mail, published, order[a], scans(a), envs(a));
      moves := first;
      if one.2.None? {
        var rest := IngestAgentsIsPath(Follow(w, first), id, published, order, scans, envs, a + 1);
        FollowOn(w, first, rest);
        moves := first + rest;
        ReachedTwice(w, id, one, Ingesting(published, Rest(order, a + 1), [], false),
                     IngestAgents(one.0, one.1, published, order, scans, envs, a + 1),
                         Ingesting(published, {}, [], false));
      }
    }
  }

  /** So is an uninterrupted `IngestPending`. */
  lemma IngestPendingIsPath(w: World, id: nat, order: seq<string>, scans: nat -> Listing, envs: nat -> nat -> Env)
    returns (moves: seq<Move>)
    requires w.store.disk.Valid() && id !in w.passes && Visits(order, Recipients(Loaded(w.store).messages))
    ensures OwnSteps(moves, id)
    ensures var published := Awaiting(Loaded(w.store).messages);
            Follow(w, moves) ==
            Reached(w, id, IngestAgents(w.store, w.mail, published, order, scans, envs, 0),
                Ingesting(published, {}, [], false))
  {
    var published, begin := Awaiting(Loaded(w.store).messages), BeginIngest(id);
    FollowOne(w, begin);
    assert Rest(order, 0) == Recipients(Loaded(w.store).messages);
    var w1 := Next(w, begin);
    hide Follow, IngestAgents;
    var rest := IngestAgentsIsPath(w1, id, published, order, scans, envs, 0);
    moves := [begin] + rest;
    FollowOn(w, [begin], rest);
    ReachedTwice(w, id, (w.store, w.mail, None), Ingesting(published, Rest(order, 0), [], false),
                 IngestAgents(w.store, w.mail, published, order, scans, envs, 0), Ingesting(published, {}, [], false));
  }

  /** A path keeps the delivery invariant. */
  lemma {:induction false} PathKeeps(w: World, moves: seq<Move>, id: nat)
    requires Sound(w) && OwnSteps(moves, id)
    ensures w.store.disk.Valid() && Sound(Follow(w, moves))
    decreases |moves|
  {
    assert w.store.disk.Valid();
    hide Sound, Next;
    if moves != [] {
      assert OwnStep(moves[0], id);
      MoveKeeps(w, moves[0]);
      PathKeeps(Next(w, moves[0]), moves[1..], id);
    }
  }

  /* ---------- What a successful deliver pass has settled ---------- */

  /** The receipt of a delivery fact names a version that shows the fact. */
  lemma ReceiptShowsPublished(w: World, id: string)
    requires Sound(w) && FactKey("publish", id) in w.store.disk.Current().receipts
    requires w.store.disk.Current().receipts[FactKey("publish", id)].receipt.revision <= w.store.disk.durable
    ensures PublishedIn(RecordsAt(w.store, w.store.disk.durable), id)
  {
    var s, key := w.store, FactKey("publish", id);
    var revision := s.disk.Current().receipts[key].receipt.revision;
    hide MailSound, PassSound, AllInOrder, PublishedIn;
    VersionsCountRevisions(s, |s.disk.versions| - 1);
    ReceiptsPersist(s, revision, |s.disk.versions| - 1, key);
    assert Backed(s.disk.versions[revision]);
    FactsLater(s, revision, s.disk.durable);
  }

  /** THE deliver theorem: a deliver pass that reports success has left every
      message that was waiting with its envelope in the recipient's inbox and its
      published time in every version a crash could fall back to. */
  lemma SuccessfulPassPublishesAll(w: World, envs: nat -> Env, i: nat)
    requires Sound(w) && DeliverFrom(w.store, w.mail, Loaded(w.store).messages, envs, 0).2.None?
    requires i < |Loaded(w.store).messages|
    requires Loaded(w.store).messages[i].queuedAt.Some? && Loaded(w.store).messages[i].publishedAt.None?
    ensures var (s', m', _) := DeliverFrom(w.store, w.mail, Loaded(w.store).messages, envs, 0);
            var message := Loaded(w.store).messages[i];
            Filed(m', message)
            && forall n :: s'.disk.durable <= n < |s'.disk.versions| ==> PublishedIn(RecordsAt(s', n), message.id)
  {
    var idle := w.(passes := map[]);
    IdleIsSound(w);
    var (s', m', _) := DeliverFrom(w.store, w.mail, Loaded(w.store).messages, envs, 0);
    var moves := DeliverPendingIsPath(idle, 0, envs);
    PathKeeps(idle, moves, 0);
    LoadedAreDistinct(w);
    SuccessfulPassSettlesAll(w.store, w.mail, envs, i);
    var w' := Follow(idle, moves);
    hide DeliverFrom, Follow, PublishedIn;
    ReceiptShowsPublished(w', Loaded(w.store).messages[i].id);
    forall n | s'.disk.durable <= n < |s'.disk.versions|
      ensures PublishedIn(RecordsAt(s', n), Loaded(w.store).messages[i].id)
    {
      FactsLater(s', s'.disk.durable, n);
    }
  }

  lemma LoadedAreDistinct(w: World)
    requires Sound(w)
    ensures DistinctIDs(Loaded(w.store).messages)
  {
    NowIsSound(w);
  }

  lemma IdleIsSound(w: World)
    requires Sound(w)
    ensures Sound(w.(passes := map[]))
  {
    forall i | 0 <= i < |w.store.disk.versions|
      ensures AllInOrder(w.(passes := map[]), RecordsAt(w.store, i))
    {
      InOrderElsewhere(w, w.(passes := map[]), RecordsAt(w.store, i));
    }
  }

  /* ---------- What a successful ingest pass has settled ---------- */

  /** The store only gains versions, and guarantees no fewer of them. */
  ghost predicate Grew(s: Store, s': Store) {
    WellFormed(s') && s.disk.versions <= s'.disk.versions && s.disk.durable <= s'.disk.durable
  }

  /** Inbox files stay as they are or move to the archive, which keeps them. */
  ghost predicate OnlyArchived(m: Mail, m': Mail) {
    && m'.inbox.Keys <= m.inbox.Keys && m.archive.Keys <= m'.archive.Keys
    && forall path :: path in m.inbox ==>
         if path in m'.inbox then m'.inbox[path] == m.inbox[path] else path in m'.archive
  }

  /** No other agent's inbox holds a file of this name. */
  ghost predicate SoleHolder(m: Mail, agent: string, name: string) {
    forall other :: Path(other, name) in m.inbox ==> other == agent
  }

  /** Archiving takes the file of a sole holder that the listing shows. */
  lemma ArchiveMoves(m: Mail, name: string, listing: seq<string>, io: IOFaults)
    ensures OnlyArchived(m, ArchiveStep(m, name, listing, io).0)
    ensures ArchiveStep(m, name, listing, io).1.None? ==>
              forall agent :: agent in listing && SoleHolder(m, agent, name) ==>
                Path(agent, name) !in ArchiveStep(m, name, listing, io).0.inbox
  {
  }

  /** What dealing with one awaited envelope leaves. */
  ghost predicate Settles(s: Store, m: Mail, m': Mail, name: string, listing: seq<string>)
    requires s.disk.Valid()
  {
    && ProcessedIn(RecordsAt(s, s.disk.durable), name)
    && forall agent :: agent in listing && SoleHolder(m, agent, name) ==> Path(agent, name) !in m'.inbox
  }

  lemma IngestOneSettles(w: World, id: nat, p: Pass, env: Env)
    requires Sound(w) && id in w.passes && w.passes[id] == p && p.Ingesting? && p.found != [] && !p.recorded
    ensures var (s', m', err) := IngestOne(w.store, w.mail, p.published, p.found[0], env);
            && Sound(Reached(w, id, (s', m', err), p.(found := p.found[1..])))
            && Grew(w.store, s') && OnlyArchived(w.mail, m')
            && (err.None? && p.found[0].messageID in p.published ==>
                  Settles(s', w.mail, m', p.found[0].messageID, env.listing))
  {
    var moves := IngestOneIsPath(w, id, p, env);
    PathKeeps(w, moves, id);
    CommitGrew(w.store, RecordProcessing(p.found[0].messageID, env), env.faults);
    ArchiveMoves(w.mail, p.found[0].messageID, env.listing, env.io);
    NothingGrew(w);
    var (s', out) := CommitStep(w.store, RecordProcessing(p.found[0].messageID, env), env.faults);
    if p.found[0].messageID in p.published && out.Ok? {
      RecordedIsProcessed(w, id, p, env);
    }
    hide Sound, Follow, ArchiveStep, CommitStep, ProcessedIn, SoleHolder, Grew, OnlyArchived;
  }

  lemma CommitGrew(s: Store, req: CommitRequest, faults: Faults)
    requires WellFormed(s)
    ensures Grew(s, CommitStep(s, req, faults).0)
  {
    CommitKeeps(s, req, faults);
  }

  lemma RecordedIsProcessed(w: World, id: nat, p: Pass, env: Env)
    requires Sound(w) && id in w.passes && w.passes[id] == p && p.Ingesting? && p.found != [] && !p.recorded
    requires p.found[0].messageID in p.published
    requires CommitStep(w.store, RecordProcessing(p.found[0].messageID, env), env.faults).1.Ok?
    ensures var s' := CommitStep(w.store, RecordProcessing(p.found[0].messageID, env), env.faults).0;
            ProcessedIn(RecordsAt(s', s'.disk.durable), p.found[0].messageID)
  {
    RecordFoundKeeps(w, id, env);
    RecordFoundSucceeds(w, id, p, env);
    hide Next, StoreSound, MailSound, ProcessedIn, CommitStep;
    assert PassSound(Next(w, RecordFound(id, env)), p.(recorded := true));
  }

  lemma RecordFoundSucceeds(w: World, id: nat, p: Pass, env: Env)
    requires w.store.disk.Valid() && id in w.passes && w.passes[id] == p && p.Ingesting? && p.found != [] && !p.recorded
    requires p.found[0].messageID in p.published
    requires CommitStep(w.store, RecordProcessing(p.found[0].messageID, env), env.faults).1.Ok?
    ensures var w1 := Next(w, RecordFound(id, env));
            && w1.store == CommitStep(w.store, RecordProcessing(p.found[0].messageID, env), env.faults).0
            && id in w1.passes && w1.passes[id] == p.(recorded := true)
  {
    hide CommitStep;
  }

  /** Every directory listing an archival reads shows this agent. */
  ghost predicate Lists(envs: nat -> Env, agent: string) {
    forall k :: agent in envs(k).listing
  }

  /** From the `k`-th envelope on, all awaited ones are settled. */
  ghost predicate Ingested(
    s: Store, m: Mail, m': Mail, published: set<string>, found: seq<Envelope>, envs: nat -> Env, k: nat)
    requires s.disk.Valid()
  {
    forall i :: k <= i < |found| && found[i].messageID in published ==>
      && ProcessedIn(RecordsAt(s, s.disk.durable), found[i].messageID)
      && forall agent :: Lists(envs, agent) && SoleHolder(m, agent, found[i].messageID) ==>
           Path(agent, found[i].messageID) !in m'.inbox
  }

  lemma IngestedOneMore(
    s: Store, m: Mail, m1: Mail, m': Mail, published: set<string>, found: seq<Envelope>, envs: nat -> Env, k: nat)
    requires s.disk.Valid() && k < |found| && OnlyArchived(m, m1) && OnlyArchived(m1, m')
    requires Ingested(s, m1, m', published, found, envs, k + 1)
    requires found[k].messageID in published ==>
               && ProcessedIn(RecordsAt(s, s.disk.durable), found[k].messageID)
               && forall agent :: Lists(envs, agent) && SoleHolder(m, agent, found[k].messageID) ==>
                    Path(agent, found[k].messageID) !in m1.inbox
    ensures Ingested(s, m, m', published, found, envs, k)
  {
    hide ProcessedIn, Lists;
    assert forall agent, name :: SoleHolder(m, agent, name) ==> SoleHolder(m1, agent, name);
  }

  lemma GrewTwice(s: Store, s1: Store, s2: Store, m: Mail, m1: Mail, m2: Mail)
    requires Grew(s, s1) && Grew(s1, s2) && OnlyArchived(m, m1) && OnlyArchived(m1, m2)
    ensures Grew(s, s2) && OnlyArchived(m, m2)
  {
  }

  lemma {:induction false} IngestSettles(
    w: World, id: nat, published: set<string>, agents: set<string>, found: seq<Envelope>, envs: nat -> Env, k: nat)
    requires Sound(w) && k <= |found| && id in w.passes
             && w.passes[id] == Ingesting(published, agents, found[k..], false)
    ensures var (s', m', err) := IngestFrom(w.store, w.mail, published, found, envs, k);
            && Sound(Reached(w, id, (s', m', err), Ingesting(published, agents, [], false)))
            && Grew(w.store, s') && OnlyArchived(w.mail, m')
            && (err.None? ==> Ingested(s', w.mail, m', published, found, envs, k))
    decreases |found| - k
  {
    SoundIsValid(w);
    hide Sound, IngestOne, OnlyArchived, Grew, ProcessedIn, SoleHolder;
    if k == |found| {
      NothingGrew(w);
      StayingIsFollowing(w, id, Ingesting(published, agents, [], false));
    } else {
      IngestOneSettles(w, id, w.passes[id], envs(k));
      var one := IngestOne(w.store, w.mail, published, found[k], envs(k));
      assert found[k..][0] == found[k] && found[k..][1..] == found[k + 1..];
      var w1 := Reached(w, id, one, Ingesting(published, agents, found[k + 1..], false));
      if one.2.None? {
        IngestSettles(w1, id, published, agents, found, envs, k + 1);
        var all := IngestFrom(one.0, one.1, published, found, envs, k + 1);
        ReachedTwice(w, id, one, Ingesting(published, agents, found[k + 1..], false), all,
            Ingesting(published, agents, [], false));
        GrewTwice(w.store, one.0, all.0, w.mail, one.1, all.1);
        if all.2.None? {
          if found[k].messageID in published {
            ProcessedStays(w1, Reached(w, id, all, Ingesting(published, agents, [], false)), found[k].messageID);
          }
          IngestedOneMore(all.0, w.mail, one.1, all.1, published, found, envs, k);
        }
      }
    }
  }

  lemma SoundIsValid(w: World)
    requires Sound(w)
    ensures w.store.disk.Valid()
  {
  }

  lemma NothingGrew(w: World)
    requires Sound(w)
    ensures Grew(w.store, w.store) && OnlyArchived(w.mail, w.mail)
  {
  }

  lemma ProcessedStays(w: World, w': World, messageID: string)
    requires Sound(w) && Sound(w') && Grew(w.store, w'.store)
    requires ProcessedIn(RecordsAt(w.store, w.store.disk.durable), messageID)
    ensures ProcessedIn(RecordsAt(w'.store, w'.store.disk.durable), messageID)
  {
    hide AllInOrder, Backed, PassSound, MailSound, ProcessedIn;
    ProcessedFollows(w.store, w'.store, messageID);
  }

  /** An inbox file whose name is the ID of the awaited envelope in it. */
  predicate Awaited(m: Mail, published: set<string>, agent: string, name: string) {
    var path := Path(agent, name);
    && path in m.inbox && m.inbox[path].Document? && ValidEnvelope(m.inbox[path].value)
    && m.inbox[path].value.messageID == name && name in published
  }

  /** Every awaited envelope the scan listed is processed, durably, and archived
      if no other inbox holds its name. */
  ghost predicate InboxSettled(
    m: Mail, s: Store, m': Mail, published: set<string>, agent: string, scan: Listing, envs: nat -> Env)
    requires s.disk.Valid()
  {
    forall name :: name in scan.names && Awaited(m, published, agent, name) ==>
      && ProcessedIn(RecordsAt(s, s.disk.durable), name)
      && (Lists(envs, agent) && SoleHolder(m, agent, name) ==>
            Path(agent, name) !in m'.inbox && Path(agent, name) in m'.archive)
  }

  /** No pass is under way, and what is awaited is published. */
  ghost predicate Ready(w: World, published: set<string>) {
    Sound(w) && w.passes == map[] && forall id :: id in published ==> PublishedIn(Now(w.store), id)
  }

  lemma ReadyToIngest(w: World, published: set<string>, found: seq<Envelope>)
    requires Ready(w, published)
    ensures Sound(Go(w, 0, Ingesting(published, {}, found, false)))
  {
    var p := Ingesting(published, {}, found, false);
    assert PassSound(w, p);
    hide StoreSound, MailSound;
    SoundWhenPassMoves(w, 0, p);
  }

  lemma ReadyLater(w: World, published: set<string>, w': World)
    requires Ready(w, published) && Sound(w') && Grew(w.store, w'.store)
    ensures Ready(w'.(passes := map[]), published)
  {
    IdleIsSound(w');
    hide AllInOrder, Backed, MailSound, PassSound, PublishedIn;
    PublishedFollows(w.store, w'.store, published);
  }

  lemma InboxSettles(w: World, published: set<string>, agent: string, scan: Listing, envs: nat -> Env)
    requires Ready(w, published)
    ensures var (s', m', err) := IngestInbox(w.store, w.mail, published, agent, scan, envs);
            && Ready(w.(store := s', mail := m'), published) && Grew(w.store, s') && OnlyArchived(w.mail, m')
            && (err.None? ==> InboxSettled(w.mail, s', m', published, agent, scan, envs))
  {
    assert w.store.disk.Valid();
    NothingGrew(w);
    if ValidID(agent) && !scan.faults.read {
      var found := Scanned(w.mail, agent, scan.names);
      ReadyToIngest(w, published, found);
      assert found[0..] == found;
      var begun := Go(w, 0, Ingesting(published, {}, found, false));
      IngestSettles(begun, 0, published, {}, found, envs, 0);
      var (s', m', err) := IngestFrom(w.store, w.mail, published, found, envs, 0);
      var ended := Reached(begun, 0, (s', m', err), Ingesting(published, {}, [], false));
      ReadyLater(w, published, ended);
      assert ended.(passes := map[]) == w.(store := s', mail := m');
      hide Sound, Ready, Grew, IngestFrom;
      if err.None? {
        FoundAreSettled(w.mail, s', m', published, agent, scan, envs);
      }
    }
  }

  lemma FoundAreSettled(
    m: Mail, s: Store, m': Mail, published: set<string>, agent: string, scan: Listing, envs: nat -> Env)
    requires s.disk.Valid() && OnlyArchived(m, m')
    requires Ingested(s, m, m', published, Scanned(m, agent, scan.names), envs, 0)
    ensures InboxSettled(m, s, m', published, agent, scan, envs)
  {
    hide ProcessedIn, Lists, SoleHolder, Scanned;
    var found := Scanned(m, agent, scan.names);
    forall name | name in scan.names && Awaited(m, published, agent, name)
      ensures ProcessedIn(RecordsAt(s, s.disk.durable), name)
      ensures Lists(envs, agent) && SoleHolder(m, agent, name) ==>
                Path(agent, name) !in m'.inbox && Path(agent, name) in m'.archive
    {
      var e := m.inbox[Path(agent, name)].value;
      ScanIsExact(m, agent, scan.names, e);
      var k :| 0 <= k < |scan.names| && scan.names[k] == name;
      assert Holds(m, agent, scan.names[k], e);
      var i :| 0 <= i < |found| && found[i] == e;
    }
  }

  /** Settled now, or seen in the archive already: settled at the end either way. */
  lemma SettledAtTheEnd(
    w: World, m: Mail, m1: Mail, w': World, s1: Store, published: set<string>, agent: string, scan: Listing,
    envs: nat -> Env)
    requires Sound(w) && OnlyArchived(m, w.mail) && OnlyArchived(w.mail, m1) && OnlyArchived(m1, w'.mail)
    requires Sound(w') && Grew(w.store, s1) && Grew(s1, w'.store) && Sound(w.(store := s1, mail := m1))
    requires InboxSettled(w.mail, s1, m1, published, agent, scan, envs)
    ensures w'.store.disk.Valid() && InboxSettled(m, w'.store, w'.mail, published, agent, scan, envs)
  {
    var now := w.(store := s1, mail := m1);
    SoundIsValid(w');
    forall name | name in scan.names && Awaited(m, published, agent, name)
      ensures ProcessedIn(RecordsAt(w'.store, w'.store.disk.durable), name)
      ensures Lists(envs, agent) && SoleHolder(m, agent, name) ==>
                Path(agent, name) !in w'.mail.inbox && Path(agent, name) in w'.mail.archive
    {
      var path := Path(agent, name);
      if path in w.mail.inbox {
        assert Awaited(w.mail, published, agent, name);
        ProcessedStays(now, w', name);
      } else {
        assert ProcessedIn(RecordsAt(w.store, w.store.disk.durable), path.name);
        NothingGrew(w);
        GrewTwice(w.store, s1, w'.store, w.mail, m1, w'.mail);
        ProcessedStays(w, w', name);
      }
      hide Sound, ProcessedIn, Lists, Awaited;
      assert SoleHolder(m, agent, name) ==> SoleHolder(w.mail, agent, name);
    }
  }

  /** From agent `a` on, every inbox is settled. */
  ghost predicate AllSettled(
    m: Mail, s: Store, m': Mail, published: set<string>, order: seq<string>, scans: nat -> Listing,
    envs: nat -> nat -> Env, a: nat)
    requires s.disk.Valid()
  {
    forall b :: a <= b < |order| ==> InboxSettled(m, s, m', published, order[b], scans(b), envs(b))
  }

  lemma OneMoreSettled(
    m: Mail, s: Store, m': Mail, published: set<string>, order: seq<string>, scans: nat -> Listing,
    envs: nat -> nat -> Env, a: nat)
    requires s.disk.Valid() && a <= |order|
    requires a < |order| ==> InboxSettled(m, s, m', published, order[a], scans(a), envs(a))
                             && AllSettled(m, s, m', published, order, scans, envs, a + 1)
    ensures AllSettled(m, s, m', published, order, scans, envs, a)
  {
    hide InboxSettled;
  }

  lemma ReadyIsSound(w: World, published: set<string>)
    requires Ready(w, published)
    ensures Sound(w) && w.store.disk.Valid() && Grew(w.store, w.store) && OnlyArchived(w.mail, w.mail)
  {
  }

  lemma {:induction false} AgentsSettle(
    w: World, m: Mail, published: set<string>, order: seq<string>, scans: nat -> Listing,
    envs: nat -> nat -> Env, a: nat)
    requires Ready(w, published) && a <= |order| && OnlyArchived(m, w.mail)
    ensures var (s', m', err) := IngestAgents(w.store, w.mail, published, order, scans, envs, a);
            && Ready(w.(store := s', mail := m'), published) && Grew(w.store, s') && OnlyArchived(w.mail, m')
            && (err.None? ==> AllSettled(m, s', m', published, order, scans, envs, a))
    decreases |order| - a
  {
    ReadyIsSound(w, published);
    hide Ready, Sound, IngestInbox, OnlyArchived, Grew, InboxSettled, AllSettled;
    if a == |order| {
      OneMoreSettled(m, w.store, w.mail, published, order, scans, envs, a);
    } else {
      InboxSettles(w, published, order[a], scans(a), envs(a));
      var (s1, m1, err) := IngestInbox(w.store, w.mail, published, order[a], scans(a), envs(a));
      if err.None? {
        var w1 := w.(store := s1, mail := m1);
        ReadyIsSound(w1, published);
        GrewTwice(w.store, w.store, s1, m, w.mail, m1);
        AgentsSettle(w1, m, published, order, scans, envs, a + 1);
        var all := IngestAgents(s1, m1, published, order, scans, envs, a + 1);
        var w2 := w.(store := all.0, mail := all.1);
        ReadyIsSound(w2, published);
        GrewTwice(w.store, s1, all.0, w.mail, m1, all.1);
        if all.2.None? {
          SettledAtTheEnd(w, m, m1, w2, s1, published, order[a], scans(a), envs(a));
          OneMoreSettled(m, all.0, all.1, published, order, scans, envs, a);
        }
      }
    }
  }

  /** THE ingest theorem: an ingest pass that reports success has durably recorded
      as processed every awaited envelope its scans listed, and archived each that
      was the only inbox file of its name. */
  lemma SuccessfulPassIngestsAll(w: World, order: seq<string>, scans: nat -> Listing, envs: nat -> nat -> Env, a: nat)
    requires Sound(w) && Visits(order, Recipients(Loaded(w.store).messages)) && a < |order|
    requires IngestAgents(w.store, w.mail, Awaiting(Loaded(w.store).messages), order, scans, envs, 0).2.None?
    ensures var published := Awaiting(Loaded(w.store).messages);
            var (s', m', _) := IngestAgents(w.store, w.mail, published, order, scans, envs, 0);
            InboxSettled(w.mail, s', m', published, order[a], scans(a), envs(a))
  {
    IdleIsSound(w);
    AwaitingIsPublished(w.store);
    NothingGrew(w);
    hide Sound, InboxSettled, IngestAgents;
    AgentsSettle(w.(passes := map[]), w.mail, Awaiting(Loaded(w.store).messages), order, scans, envs, 0);
  }

  /** For one message: published and not processed, it is visited, and if its
      recipient's inbox holds and lists its envelope it ends durably processed. */
  lemma AwaitedMessageIsProcessed(
    w: World, order: seq<string>, scans: nat -> Listing, envs: nat -> nat -> Env, i: nat, e: Envelope)
    returns (a: nat)
    requires Sound(w) && Visits(order, Recipients(Loaded(w.store).messages)) && i < |Loaded(w.store).messages|
    requires Loaded(w.store).messages[i].publishedAt.Some? && Loaded(w.store).messages[i].processedAt.None?
    requires IngestAgents(w.store, w.mail, Awaiting(Loaded(w.store).messages), order, scans, envs, 0).2.None?
    ensures var message := Loaded(w.store).messages[i];
            var s' := IngestAgents(w.store, w.mail, Awaiting(Loaded(w.store).messages), order, scans, envs, 0).0;
            && a < |order| && order[a] == message.recipient
            && (message.id in scans(a).names && Holds(w.mail, order[a], message.id, e) && e.messageID == message.id ==>
                  ProcessedIn(RecordsAt(s', s'.disk.durable), message.id))
  {
    var message := Loaded(w.store).messages[i];
    assert message.recipient in order && message.id in Awaiting(Loaded(w.store).messages);
    a :| 0 <= a < |order| && order[a] == message.recipient;
    hide IngestAgents, Sound;
    SuccessfulPassIngestsAll(w, order, scans, envs, a);
  }

  /* ---------- What an ingest pass leaves ---------- */

  lemma {:induction false} FoundLeavesOthers(
    s: Store, m: Mail, published: set<string>, found: seq<Envelope>, envs: nat -> Env, k: nat, path: Path)
    requires s.disk.Valid() && path in m.inbox && path.name !in published
    ensures var m' := IngestFrom(s, m, published, found, envs, k).1;
            path in m'.inbox && m'.inbox[path] == m.inbox[path]
    decreases |found| - k
  {
    hide CommitStep;
    if k < |found| {
      var (s1, m1, err) := IngestOne(s, m, published, found[k], envs(k));
      if err.None? {
        FoundLeavesOthers(s1, m1, published, found, envs, k + 1, path);
      }
    }
  }

  lemma {:induction false} AgentsLeaveOthers(
    s: Store, m: Mail, published: set<string>, order: seq<string>, scans: nat -> Listing, envs: nat -> nat -> Env,
    a: nat, path: Path)
    requires s.disk.Valid() && path in m.inbox && path.name !in published
    ensures var m' := IngestAgents(s, m, published, order, scans, envs, a).1;
            path in m'.inbox && m'.inbox[path] == m.inbox[path]
    decreases |order| - a
  {
    hide IngestFrom, Scanned;
    if a < |order| {
      FoundLeavesOthers(s, m, published, Scanned(m, order[a], scans(a).names), envs(a), 0, path);
      var (s1, m1, err) := IngestInbox(s, m, published, order[a], scans(a), envs(a));
      if err.None? {
        AgentsLeaveOthers(s1, m1, published, order, scans, envs, a + 1, path);
      }
    }
  }

  /** Only awaited messages are ingested: an inbox file named by a message that is
      processed already, or not published, outlasts every pass where it is, and an
      agent for whom nothing is awaited is not visited. */
  lemma UnawaitedFileStays(
    w: World, order: seq<string>, scans: nat -> Listing, envs: nat -> nat -> Env, path: Path, agent: string)
    requires w.store.disk.Valid() && Visits(order, Recipients(Loaded(w.store).messages)) && path in w.mail.inbox
    requires forall i :: 0 <= i < |Loaded(w.store).messages| && Loaded(w.store).messages[i].id == path.name ==>
               Loaded(w.store).messages[i].publishedAt.None? || Loaded(w.store).messages[i].processedAt.Some?
    ensures var m' := IngestAgents(w.store, w.mail, Awaiting(Loaded(w.store).messages), order, scans, envs, 0).1;
            path in m'.inbox && m'.inbox[path] == w.mail.inbox[path]
    ensures (forall i :: 0 <= i < |Loaded(w.store).messages| && Loaded(w.store).messages[i].recipient == agent ==>
               Loaded(w.store).messages[i].publishedAt.None? || Loaded(w.store).messages[i].processedAt.Some?)
            ==> agent !in order
  {
    AgentsLeaveOthers(w.store, w.mail, Awaiting(Loaded(w.store).messages), order, scans, envs, 0, path);
  }

  lemma AwaitingIsPublished(s: Store)
    requires s.disk.Valid() && Chained(s)
    ensures forall id :: id in Awaiting(Loaded(s).messages) ==> PublishedIn(Now(s), id)
  {
    OwnMessagesKnown(Now(s));
  }
}
