/** Causal order of delivery facts: any number of deliver and ingest passes,
    other commands, outsiders writing into inboxes, and crashes at any step. */
module DeliveryOrder {
  import opened Results
  import opened Domain
  import opened StateStore
  import opened StoreTheorems
  import opened Commands
  import opened Mailbox
  import opened Deliverer
  import opened MessageFacts

  /** Where one pass of the current process stands. `filed` and `recorded` say
      that the first half of the current step is done. */
  datatype Pass =
    | Delivering(messages: seq<Message>, filed: bool)
    | Ingesting(published: set<string>, agents: set<string>, found: seq<Envelope>, recorded: bool)

  /** `touched` are the inbox files outsiders wrote, `lost` the mailbox files a
      power loss took: no directory of the mailbox is ever synced. */
  datatype World = World(store: Store, mail: Mail, passes: map<nat, Pass>, touched: set<Path>, lost: set<Path>)

  const NEW_WORLD := World(NEW_STORE, NO_MAIL, map[], {}, {})

  datatype Move =
    | BeginDeliver(id: nat)
    | FileNext(id: nat, io: IOFaults)
    | RecordFiled(id: nat, env: Env)
    | BeginIngest(id: nat)
    | ScanNext(id: nat, agent: string, scan: Listing)
    | RecordFound(id: nat, env: Env)
    | PutAway(id: nat, listing: seq<string>, io: IOFaults)
    | OtherCommit(cmd: Command, actor: Caller, draw: Draw, requestID: string, fingerprint: string, faults: Faults)
    | Resolve(callerID: string, resolveID: string, faults: Faults)
    | Drop(path: Path, content: Content<Envelope>)
    | Crash(kept: nat, settled: nat, gone: set<Path>)

  function Go(w: World, id: nat, pass: Pass): World {
    w.(passes := w.passes[id := pass])
  }

  function Stop(w: World, id: nat): World {
    w.(passes := w.passes - {id})
  }

  function FileStep(w: World, id: nat, p: Pass, io: IOFaults): World
    requires p.Delivering? && !p.filed
  {
    if p.messages == [] then Stop(w, id)
    else if !NeedsPublishing(p.messages[0]) then Go(w, id, p.(messages := p.messages[1..]))
    else
      var (m, unfiled) := PublishStep(w.mail, p.messages[0].id, EnvelopeOf(p.messages[0]), io);
      if unfiled.Some? then Stop(w.(mail := m), id) else Go(w.(mail := m), id, p.(filed := true))
  }

  function RecordFiledStep(w: World, id: nat, p: Pass, env: Env): World
    requires w.store.disk.Valid() && p.Delivering? && p.messages != []
  {
    var (s, out) := CommitStep(w.store, RecordPublishing(p.messages[0].id, env), env.faults);
    if out.Err? then Stop(w.(store := s), id) else Go(w.(store := s), id, Delivering(p.messages[1..], false))
  }

  function ScanStep(w: World, id: nat, p: Pass, agent: string, scan: Listing): World
    requires p.Ingesting?
  {
    if !ValidID(agent) || scan.faults.read then Stop(w, id)
    else Go(w, id, p.(agents := p.agents - {agent}, found := Scanned(w.mail, agent, scan.names)))
  }

  function RecordFoundStep(w: World, id: nat, p: Pass, env: Env): World
    requires w.store.disk.Valid() && p.Ingesting? && p.found != []
  {
    if p.found[0].messageID !in p.published then Go(w, id, p.(found := p.found[1..]))
    else
      var (s, out) := CommitStep(w.store, RecordProcessing(p.found[0].messageID, env), env.faults);
      if out.Err? then Stop(w.(store := s), id) else Go(w.(store := s), id, p.(recorded := true))
  }

  function PutAwayStep(w: World, id: nat, p: Pass, listing: seq<string>, io: IOFaults): World
    requires p.Ingesting? && p.found != []
  {
    var (m, unmoved) := ArchiveStep(w.mail, p.found[0].messageID, listing, io);
    if unmoved.Some? then Stop(w.(mail := m), id)
    else Go(w.(mail := m), id, p.(found := p.found[1..], recorded := false))
  }

  function Without(m: Mail, gone: set<Path>): Mail {
    m.(inbox := m.inbox - gone, archive := m.archive - gone)
  }

  function Next(w: World, move: Move): (w': World)
    requires w.store.disk.Valid()
    ensures w'.store.disk.Valid()
  {
    match move
    case BeginDeliver(id) =>
      if id in w.passes then w else Go(w, id, Delivering(Loaded(w.store).messages, false))
    case FileNext(id, io) =>
      if id in w.passes && w.passes[id].Delivering? && !w.passes[id].filed then FileStep(w, id, w.passes[id], io) else w
    case RecordFiled(id, env) =>
      if id in w.passes && w.passes[id].Delivering? && w.passes[id].filed && w.passes[id].messages != []
      then RecordFiledStep(w, id, w.passes[id], env) else w
    case BeginIngest(id) =>
      if id in w.passes then w
      else Go(w, id, Ingesting(Awaiting(Loaded(w.store).messages), Recipients(Loaded(w.store).messages), [], false))
    case ScanNext(id, agent, scan) =>
      if id in w.passes && w.passes[id].Ingesting? && w.passes[id].found == [] && agent in w.passes[id].agents
      then ScanStep(w, id, w.passes[id], agent, scan) else w
    case RecordFound(id, env) =>
      if id in w.passes && w.passes[id].Ingesting? && w.passes[id].found != [] && !w.passes[id].recorded
      then RecordFoundStep(w, id, w.passes[id], env) else w
    case PutAway(id, listing, io) =>
      if id in w.passes && w.passes[id].Ingesting? && w.passes[id].found != [] && w.passes[id].recorded
      then PutAwayStep(w, id, w.passes[id], listing, io) else w
    case OtherCommit(cmd, actor, draw, requestID, fingerprint, faults) =>
      w.(store := CommitStep(w.store, Submit(cmd, actor, draw, WORKSPACE, requestID, fingerprint), faults).0)
    case Resolve(callerID, requestID, faults) => w.(store := ResolveStep(w.store, callerID, requestID, faults).0)
    case Drop(path, content) =>
      w.(mail := w.mail.(inbox := w.mail.inbox[path := content]), touched := w.touched + {path})
    case Crash(kept, settled, gone) =>
      World(Reopened(w.store, kept, settled), Without(w.mail, gone), map[], w.touched, w.lost + gone)
  }

  function FactKey(fact: string, id: string): string {
    ReceiptKey(HOST.agentID, RequestIDForFact(fact, id))
  }

  ghost predicate IsFactKey(key: string) {
    exists fact, id :: fact in FACTS && key == FactKey(fact, id)
  }

  /** The deliverer is the sole recorder: nobody else records a delivery fact or
      submits under its request IDs. */
  ghost predicate Permitted(move: Move) {
    move.OtherCommit? ==>
      && !move.cmd.RecordPublished? && !move.cmd.RecordProcessed?
      && !IsFactKey(ReceiptKey(move.actor.agentID, move.requestID))
  }

  /* ---------- The invariant ---------- */

  predicate PublishedIn(r: Records, id: string) {
    var i := Find(r.messages, MessageID, id);
    i.Some? && r.messages[i.value].publishedAt.Some?
  }

  predicate ProcessedIn(r: Records, id: string) {
    var i := Find(r.messages, MessageID, id);
    i.Some? && r.messages[i.value].processedAt.Some?
  }

  /** The message this ID names now is still the one a pass read earlier. */
  predicate Known(r: Records, m: Message) {
    var i := Find(r.messages, MessageID, m.id);
    i.Some? && SameMessage(m, r.messages[i.value])
  }

  /** The envelope has its file: in the recipient's inbox or archive, and as it was
      written unless an outsider wrote that inbox file. */
  ghost predicate Delivered(w: World, e: Envelope) {
    var path := Path(e.recipient, e.messageID);
    path !in w.lost ==>
      && (path in w.mail.inbox || path in w.mail.archive)
      && (path !in w.touched ==> Live(w.mail, path) == Written(e))
  }

  ghost predicate InOrder(w: World, m: Message) {
    && (m.processedAt.Some? ==> m.publishedAt.Some?)
    && (m.publishedAt.Some? ==> Delivered(w, EnvelopeOf(m)))
  }

  ghost predicate AllInOrder(w: World, r: Records) {
    forall k :: 0 <= k < |r.messages| ==> InOrder(w, r.messages[k])
  }

  /** A receipt under a delivery request ID means the fact is there. */
  ghost predicate Backed(state: State) {
    && (forall id :: FactKey("publish", id) in state.receipts ==> PublishedIn(state.snapshot.records, id))
    && (forall id :: FactKey("process", id) in state.receipts ==> ProcessedIn(state.snapshot.records, id))
  }

  ghost predicate StoreSound(w: World) {
    && WellFormed(w.store) && Chained(w.store)
    && (forall i :: 0 <= i < |w.store.disk.versions| ==> AllInOrder(w, RecordsAt(w.store, i)))
    && (forall i :: 0 <= i < |w.store.disk.versions| ==> Backed(w.store.disk.versions[i]))
  }

  /** What is archived is processed, durably, and an inbox file no outsider wrote
      is read back only if it is within the read bound. */
  ghost predicate MailSound(w: World)
    requires w.store.disk.Valid()
  {
    && (forall path :: path in w.mail.archive ==> ProcessedIn(RecordsAt(w.store, w.store.disk.durable), path.name))
    && (forall path :: path in w.mail.inbox && path !in w.touched ==> WithinBound(w.mail.inbox[path]))
  }

  predicate WithinBound(content: Content<Envelope>) {
    content.Document? ==> !Oversize(content.value)
  }

  ghost predicate PassSound(w: World, p: Pass)
    requires w.store.disk.Valid()
  {
    match p
    case Delivering(messages, filed) =>
      && (forall k :: 0 <= k < |messages| ==> Known(Now(w.store), messages[k]))
      && (filed ==> messages != [] && Delivered(w, EnvelopeOf(messages[0])))
    case Ingesting(published, _, found, recorded) =>
      && (forall id :: id in published ==> PublishedIn(Now(w.store), id))
      && (recorded ==> found != [] && ProcessedIn(RecordsAt(w.store, w.store.disk.durable), found[0].messageID))
  }

  ghost predicate Sound(w: World) {
    && StoreSound(w) && MailSound(w)
    && forall id :: id in w.passes ==> PassSound(w, w.passes[id])
  }

  /* ---------- Facts outlive versions ---------- */

  lemma FactsLater(s: Store, i: nat, j: nat)
    requires Chained(s) && i <= j < |s.disk.versions|
    ensures forall id :: PublishedIn(RecordsAt(s, i), id) ==> PublishedIn(RecordsAt(s, j), id)
    ensures forall id :: ProcessedIn(RecordsAt(s, i), id) ==> ProcessedIn(RecordsAt(s, j), id)
    ensures forall m :: Known(RecordsAt(s, i), m) ==> Known(RecordsAt(s, j), m)
  {
    EvolvesAcross(s, i, j);
    var r, r' := RecordsAt(s, i), RecordsAt(s, j);
    forall id
      ensures PublishedIn(r, id) ==> PublishedIn(r', id)
      ensures ProcessedIn(r, id) ==> ProcessedIn(r', id)
    {
      FindIsStable(r.messages, r'.messages, MessageID, id);
    }
    forall m: Message | Known(r, m)
      ensures Known(r', m)
    {
      FindIsStable(r.messages, r'.messages, MessageID, m.id);
    }
  }

  lemma OwnMessagesKnown(r: Records)
    requires MessagesSound(r)
    ensures forall k :: 0 <= k < |r.messages| ==> Known(r, r.messages[k])
    ensures forall k :: 0 <= k < |r.messages| && r.messages[k].publishedAt.Some? ==> PublishedIn(r, r.messages[k].id)
  {
    forall k | 0 <= k < |r.messages|
      ensures Known(r, r.messages[k])
      ensures r.messages[k].publishedAt.Some? ==> PublishedIn(r, r.messages[k].id)
    {
      FoundWhereItIs(r, k);
    }
  }

  /** Messages of any version, compared with the latest one. */
  lemma EveryMessageKnown(s: Store, i: nat, k: nat)
    requires s.disk.Valid() && Chained(s) && i < |s.disk.versions| && k < |RecordsAt(s, i).messages|
    ensures Known(Now(s), RecordsAt(s, i).messages[k])
  {
    OwnMessagesKnown(RecordsAt(s, i));
    FactsLater(s, i, |s.disk.versions| - 1);
  }

  /* ---------- Store moves ---------- */

  /** Passes and archive follow a store that only adds versions. */
  lemma SoundWhenStoreGrows(w: World, s: Store)
    requires Sound(w) && WellFormed(s) && Chained(s)
    requires w.store.disk.versions <= s.disk.versions && w.store.disk.durable <= s.disk.durable
    requires forall i :: |w.store.disk.versions| <= i < |s.disk.versions| ==>
               AllInOrder(w, RecordsAt(s, i)) && Backed(s.disk.versions[i])
    ensures Sound(w.(store := s))
  {
    var w' := w.(store := s);
    forall i | 0 <= i < |s.disk.versions|
      ensures AllInOrder(w', RecordsAt(s, i)) && Backed(s.disk.versions[i])
    {
      InOrderElsewhere(w, w', RecordsAt(s, i));
      if i < |w.store.disk.versions| {
        assert RecordsAt(s, i) == RecordsAt(w.store, i) && Backed(w.store.disk.versions[i]);
      }
    }
    FactsLater(s, w.store.disk.durable, s.disk.durable);
    assert RecordsAt(s, w.store.disk.durable) == RecordsAt(w.store, w.store.disk.durable);
    forall id | id in w.passes
      ensures PassSound(w', w'.passes[id])
    {
      PassFollows(w, w', w.passes[id]);
    }
  }

  lemma InOrderElsewhere(w: World, w': World, r: Records)
    requires w'.mail == w.mail && w'.touched == w.touched && w'.lost == w.lost
    ensures AllInOrder(w, r) <==> AllInOrder(w', r)
  {
  }

  lemma PassFollows(w: World, w': World, p: Pass)
    requires w.store.disk.Valid() && w'.store.disk.Valid() && Chained(w'.store) && PassSound(w, p)
    requires w'.mail == w.mail && w'.touched == w.touched && w'.lost == w.lost
    requires w.store.disk.versions <= w'.store.disk.versions && w.store.disk.durable <= w'.store.disk.durable
    ensures PassSound(w', p)
  {
    if p.Delivering? {
      KnownFollows(w.store, w'.store, p.messages);
    } else {
      PublishedFollows(w.store, w'.store, p.published);
      if p.recorded {
        ProcessedFollows(w.store, w'.store, p.found[0].messageID);
      }
    }
  }

  lemma KnownFollows(s: Store, s': Store, messages: seq<Message>)
    requires s.disk.Valid() && s'.disk.Valid() && Chained(s') && s.disk.versions <= s'.disk.versions
    requires forall k :: 0 <= k < |messages| ==> Known(Now(s), messages[k])
    ensures forall k :: 0 <= k < |messages| ==> Known(Now(s'), messages[k])
  {
    assert RecordsAt(s', |s.disk.versions| - 1) == Now(s);
    FactsLater(s', |s.disk.versions| - 1, |s'.disk.versions| - 1);
  }

  lemma PublishedFollows(s: Store, s': Store, ids: set<string>)
    requires s.disk.Valid() && s'.disk.Valid() && Chained(s') && s.disk.versions <= s'.disk.versions
    requires forall id :: id in ids ==> PublishedIn(Now(s), id)
    ensures forall id :: id in ids ==> PublishedIn(Now(s'), id)
  {
    assert RecordsAt(s', |s.disk.versions| - 1) == Now(s);
    FactsLater(s', |s.disk.versions| - 1, |s'.disk.versions| - 1);
  }

  lemma ProcessedFollows(s: Store, s': Store, id: string)
    requires s.disk.Valid() && s'.disk.Valid() && Chained(s') && s.disk.versions <= s'.disk.versions
    requires s.disk.durable <= s'.disk.durable && ProcessedIn(RecordsAt(s, s.disk.durable), id)
    ensures ProcessedIn(RecordsAt(s', s'.disk.durable), id)
  {
    assert RecordsAt(s', s.disk.durable) == RecordsAt(s, s.disk.durable);
    FactsLater(s', s.disk.durable, s'.disk.durable);
  }

  /** The state after one more entry is backed when the new key's own fact is there. */
  lemma BackedNext(state: State, next: State, key: string)
    requires Backed(state) && next.receipts.Keys == state.receipts.Keys + {key}
    requires MessagesEvolve(state.snapshot.records, next.snapshot.records)
    requires forall id :: key == FactKey("publish", id) ==> PublishedIn(next.snapshot.records, id)
    requires forall id :: key == FactKey("process", id) ==> ProcessedIn(next.snapshot.records, id)
    ensures Backed(next)
  {
    hide MessagesSound;
    var r, r' := state.snapshot.records, next.snapshot.records;
    forall id
      ensures FactKey("publish", id) in next.receipts ==> PublishedIn(r', id)
      ensures FactKey("process", id) in next.receipts ==> ProcessedIn(r', id)
    {
      FindIsStable(r.messages, r'.messages, MessageID, id);
    }
  }

  /** What a request's mutation must respect. */
  ghost predicate Lawful(w: World, req: CommitRequest)
    requires w.store.disk.Valid()
  {
    req.mutate(Now(w.store)).Ok? ==>
      var r' := req.mutate(Now(w.store)).value.0;
      var key := ReceiptKey(req.caller, req.requestID);
      && AllInOrder(w, r') && MessagesEvolve(Now(w.store), r')
      && (forall id :: key == FactKey("publish", id) ==> PublishedIn(r', id))
      && (forall id :: key == FactKey("process", id) ==> ProcessedIn(r', id))
  }

  /** A commit adds at most one version, which a lawful mutation keeps in order. */
  lemma SoundAfterCommit(w: World, req: CommitRequest, faults: Faults, s: Store)
    requires Sound(w) && s == CommitStep(w.store, req, faults).0 && WellFormed(s) && Chained(s)
    requires Lawful(w, req)
    ensures Sound(w.(store := s))
    ensures w.store.disk.versions <= s.disk.versions && w.store.disk.durable <= s.disk.durable
  {
    CommitKeeps(w.store, req, faults);
    hide CommitStep, MailSound, PassSound, FactKey;
    if Applies(w.store, req, faults) {
      var n := |w.store.disk.versions|;
      BackedNext(w.store.disk.versions[n - 1], s.disk.versions[n], ReceiptKey(req.caller, req.requestID));
    }
    SoundWhenStoreGrows(w, s);
  }

  /** Recording one fact keeps every message in order. */
  lemma FactKeepsOrder(w: World, id: string, processed: bool, draw: Draw, r: Records, r': Records)
    requires AllInOrder(w, r) && ApplyDeliveryFact(id, processed, draw, r).Ok?
    requires r' == ApplyDeliveryFact(id, processed, draw, r).value.0
    requires processed ==> PublishedIn(r, id)
    requires !processed ==>
               var i := Find(r.messages, MessageID, id); i.Some? && Delivered(w, EnvelopeOf(r.messages[i.value]))
    ensures AllInOrder(w, r')
    ensures if processed then ProcessedIn(r', id) else PublishedIn(r', id)
  {
    var i := Find(r.messages, MessageID, id).value;
    FindIsStable(r.messages, r'.messages, MessageID, id);
    forall k | 0 <= k < |r'.messages|
      ensures InOrder(w, r'.messages[k])
    {
      assert InOrder(w, r.messages[k]);
      assert EnvelopeOf(r'.messages[k]) == EnvelopeOf(r.messages[k]);
    }
  }

  lemma OthersKeepOrder(w: World, cmd: Command, actor: Caller, draw: Draw, r: Records, r': Records)
    requires AllInOrder(w, r) && !cmd.RecordPublished? && !cmd.RecordProcessed?
    requires Apply(cmd, actor, draw, r).Ok? && r' == Apply(cmd, actor, draw, r).value.0
    ensures AllInOrder(w, r')
  {
    if cmd.SendMessage? {
      assert r' == ApplySend(cmd, actor, draw, r).value.0;
    } else if cmd.Acknowledge? {
      assert r' == ApplyAcknowledge(cmd.messageID, actor, draw, r).value.0;
      forall k | 0 <= k < |r'.messages|
        ensures InOrder(w, r'.messages[k])
      {
        assert InOrder(w, r.messages[k]);
        assert EnvelopeOf(r'.messages[k]) == EnvelopeOf(r.messages[k]);
      }
    } else {
      Footprint(cmd, actor, draw, r);
    }
  }

  lemma OtherIsLawful(w: World, cmd: Command, actor: Caller, draw: Draw, requestID: string, fingerprint: string)
    requires w.store.disk.Valid() && AllInOrder(w, Now(w.store)) && MessagesSound(Now(w.store))
    requires !cmd.RecordPublished? && !cmd.RecordProcessed? && !IsFactKey(ReceiptKey(actor.agentID, requestID))
    ensures Lawful(w, Submit(cmd, actor, draw, WORKSPACE, requestID, fingerprint))
  {
    var r := Now(w.store);
    if Apply(cmd, actor, draw, r).Ok? {
      OthersKeepOrder(w, cmd, actor, draw, r, Apply(cmd, actor, draw, r).value.0);
      CommandKeepsMessages(cmd, actor, draw, r, Apply(cmd, actor, draw, r).value.0);
    }
    hide Apply, AllInOrder, MessagesSound, MessagesEvolve;
  }

  lemma NowIsSound(w: World)
    requires Sound(w)
    ensures WellFormed(w.store) && Chained(w.store) && AllInOrder(w, Now(w.store)) && MessagesSound(Now(w.store))
  {
  }

  lemma OtherCommitKeeps(
    w: World, cmd: Command, actor: Caller, draw: Draw, requestID: string, fingerprint: string, faults: Faults)
    requires Sound(w) && Permitted(OtherCommit(cmd, actor, draw, requestID, fingerprint, faults))
    ensures Sound(Next(w, OtherCommit(cmd, actor, draw, requestID, fingerprint, faults)))
  {
    NowIsSound(w);
    hide Sound, Lawful, AllInOrder, MessagesSound, Apply, IsFactKey;
    var req := Submit(cmd, actor, draw, WORKSPACE, requestID, fingerprint);
    var s := CommitStep(w.store, req, faults).0;
    CommitChains(w.store, cmd, actor, draw, WORKSPACE, requestID, fingerprint, faults, s);
    OtherIsLawful(w, cmd, actor, draw, requestID, fingerprint);
    SoundAfterCommit(w, req, faults, s);
  }

  lemma ResolveKeepsSound(w: World, callerID: string, requestID: string, faults: Faults)
    requires Sound(w)
    ensures Sound(Next(w, Move.Resolve(callerID, requestID, faults)))
  {
    ResolveKeeps(w.store, callerID, requestID, faults);
    var s := ResolveStep(w.store, callerID, requestID, faults).0;
    PrefixChains(w.store, s);
    SoundWhenStoreGrows(w, s);
  }

  /** Ending a pass, or putting it where its own facts hold, is always sound. */
  lemma SoundWhenPassMoves(w: World, id: nat, p: Pass)
    requires Sound(w)
    ensures Sound(Stop(w, id))
    ensures PassSound(w, p) ==> Sound(Go(w, id, p))
  {
    var stopped, moved := Stop(w, id), Go(w, id, p);
    forall i | 0 <= i < |w.store.disk.versions|
      ensures AllInOrder(stopped, RecordsAt(w.store, i)) && AllInOrder(moved, RecordsAt(w.store, i))
    {
      InOrderElsewhere(w, stopped, RecordsAt(w.store, i));
      InOrderElsewhere(w, moved, RecordsAt(w.store, i));
    }
    forall other | other in w.passes
      ensures PassSound(stopped, w.passes[other]) && PassSound(moved, w.passes[other])
    {
      PassFollows(w, stopped, w.passes[other]);
      PassFollows(w, moved, w.passes[other]);
    }
    if PassSound(w, p) {
      PassFollows(w, moved, p);
    }
  }

  lemma PublishingIsLawful(w: World, message: Message, env: Env)
    requires w.store.disk.Valid() && AllInOrder(w, Now(w.store)) && MessagesSound(Now(w.store))
    requires Known(Now(w.store), message) && Delivered(w, EnvelopeOf(message))
    ensures Lawful(w, RecordPublishing(message.id, env))
  {
    var r := Now(w.store);
    var m := ApplyDeliveryFact(message.id, false, env.draw, r);
    assert RecordPublishing(message.id, env).mutate(r) == m;
    if m.Ok? {
      FactKeepsOrder(w, message.id, false, env.draw, r, m.value.0);
      CommandKeepsMessages(RecordPublished(message.id), HOST, env.draw, r, m.value.0);
      OneFactPerKey("publish", message.id);
    }
    hide ApplyDeliveryFact, AllInOrder, MessagesSound, MessagesEvolve, Delivered, Known;
  }

  lemma ProcessingIsLawful(w: World, messageID: string, env: Env)
    requires w.store.disk.Valid() && AllInOrder(w, Now(w.store)) && MessagesSound(Now(w.store))
    requires PublishedIn(Now(w.store), messageID)
    ensures Lawful(w, RecordProcessing(messageID, env))
  {
    var r := Now(w.store);
    var m := ApplyDeliveryFact(messageID, true, env.draw, r);
    assert RecordProcessing(messageID, env).mutate(r) == m;
    if m.Ok? {
      FactKeepsOrder(w, messageID, true, env.draw, r, m.value.0);
      CommandKeepsMessages(RecordProcessed(messageID), HOST, env.draw, r, m.value.0);
      OneFactPerKey("process", messageID);
    }
    hide ApplyDeliveryFact, AllInOrder, MessagesSound, MessagesEvolve;
  }

  /** Recording that a message whose file is in place was published. */
  lemma PublishingKeeps(w: World, message: Message, env: Env, s: Store)
    requires Sound(w) && Known(Now(w.store), message) && Delivered(w, EnvelopeOf(message))
    requires s == CommitStep(w.store, RecordPublishing(message.id, env), env.faults).0
    ensures Sound(w.(store := s))
    ensures w.store.disk.versions <= s.disk.versions && w.store.disk.durable <= s.disk.durable
  {
    NowIsSound(w);
    hide Sound, Lawful, AllInOrder, MessagesSound, Apply, Known, Delivered;
    CommitChains(w.store, RecordPublished(message.id), HOST, env.draw, WORKSPACE,
                 RequestIDForFact("publish", message.id), env.fingerprint, env.faults, s);
    PublishingIsLawful(w, message, env);
    SoundAfterCommit(w, RecordPublishing(message.id, env), env.faults, s);
  }

  lemma RecordFiledKeeps(w: World, id: nat, env: Env)
    requires Sound(w) && id in w.passes && w.passes[id].Delivering? && w.passes[id].filed
    ensures Sound(Next(w, RecordFiled(id, env)))
  {
    assert w.store.disk.Valid();
    hide WellFormed, Chained, AllInOrder, Backed, MailSound, CommitStep, Delivered, Known;
    var p := w.passes[id];
    assert PassSound(w, p);
    var s := CommitStep(w.store, RecordPublishing(p.messages[0].id, env), env.faults).0;
    PublishingKeeps(w, p.messages[0], env, s);
    var w' := w.(store := s);
    PassFollows(w, w', p);
    SoundWhenPassMoves(w', id, Delivering(p.messages[1..], false));
  }

  /** A delivery key names its fact and its message. */
  lemma OneFactPerKey(fact: string, id: string)
    requires fact in FACTS
    ensures forall f, other :: f in FACTS && FactKey(fact, id) == FactKey(f, other) ==> f == fact && other == id
  {
    forall f, other | f in FACTS && FactKey(fact, id) == FactKey(f, other)
      ensures f == fact && other == id
    {
      ReceiptKeyScopesRequests(HOST.agentID, RequestIDForFact(fact, id), RequestIDForFact(f, other));
      FactRequestsAreDistinct(fact, id, f, other);
    }
  }

  /** Recording that a published message was processed. */
  lemma ProcessingKeeps(w: World, messageID: string, env: Env, s: Store)
    requires Sound(w) && PublishedIn(Now(w.store), messageID)
    requires s == CommitStep(w.store, RecordProcessing(messageID, env), env.faults).0
    ensures Sound(w.(store := s))
    ensures w.store.disk.versions <= s.disk.versions && w.store.disk.durable <= s.disk.durable
  {
    NowIsSound(w);
    hide Sound, Lawful, AllInOrder, MessagesSound, Apply, PublishedIn;
    CommitChains(w.store, RecordProcessed(messageID), HOST, env.draw, WORKSPACE,
                 RequestIDForFact("process", messageID), env.fingerprint, env.faults, s);
    ProcessingIsLawful(w, messageID, env);
    SoundAfterCommit(w, RecordProcessing(messageID, env), env.faults, s);
  }

  lemma RecordFoundKeeps(w: World, id: nat, env: Env)
    requires Sound(w) && id in w.passes && w.passes[id].Ingesting? && w.passes[id].found != [] && !w.passes[id].recorded
    ensures Sound(Next(w, RecordFound(id, env)))
  {
    var p := w.passes[id];
    assert w.store.disk.Valid() && PassSound(w, p);
    assert Next(w, RecordFound(id, env)) == RecordFoundStep(w, id, p, env);
    hide Next, StoreSound, MailSound, CommitStep, ProcessedIn, PublishedIn;
    if p.found[0].messageID in p.published {
      var (s, out) := CommitStep(w.store, RecordProcessing(p.found[0].messageID, env), env.faults);
      ProcessingKeeps(w, p.found[0].messageID, env, s);
      FoundIsRecorded(w, id, p, env, w.(store := s), out);
    } else {
      SoundWhenPassMoves(w, id, p.(found := p.found[1..]));
    }
  }

  lemma FoundIsRecorded(w: World, id: nat, p: Pass, env: Env, w': World, out: Outcome)
    requires Sound(w) && Sound(w') && p.Ingesting? && p.found != [] && PassSound(w, p)
    requires w' == w.(store := w'.store)
    requires w.store.disk.versions <= w'.store.disk.versions && w.store.disk.durable <= w'.store.disk.durable
    requires (w'.store, out) == CommitStep(w.store, RecordProcessing(p.found[0].messageID, env), env.faults)
    ensures Sound(if out.Err? then Stop(w', id) else Go(w', id, p.(recorded := true)))
  {
    PassFollows(w, w', p);
    if out.Ok? {
      ReceiptMeansDurablyProcessed(w, w', p.found[0].messageID, env, out);
    }
    SoundWhenPassMoves(w', id, p.(recorded := true));
  }

  /** A processing receipt returned without error names a durable fact. */
  lemma ReceiptMeansDurablyProcessed(w: World, w': World, messageID: string, env: Env, out: Outcome)
    requires WellFormed(w.store) && Sound(w')
    requires (w'.store, out) == CommitStep(w.store, RecordProcessing(messageID, env), env.faults) && out.Ok?
    ensures ProcessedIn(RecordsAt(w'.store, w'.store.disk.durable), messageID)
  {
    hide Chained, AllInOrder, MailSound, PassSound, CommitStep;
    var s, key, revision := w'.store, FactKey("process", messageID), out.value.0.revision;
    CommitKeeps(w.store, RecordProcessing(messageID, env), env.faults);
    ReceiptsPersist(s, revision, |s.disk.versions| - 1, key);
    assert Backed(s.disk.versions[revision]);
    FactsLater(s, revision, s.disk.durable);
  }

  /* ---------- Mailbox moves ---------- */

  /** Everything that counts on a mailbox file still has it. */
  ghost predicate MailServes(w: World, w': World) {
    && w'.store == w.store && w'.passes == w.passes
    && (forall i, k :: 0 <= i < |w.store.disk.versions| && 0 <= k < |RecordsAt(w.store, i).messages| ==>
          Carries(w, w', RecordsAt(w.store, i).messages[k]))
    && (forall id :: id in w.passes && w.passes[id].Delivering? && w.passes[id].messages != [] ==>
          Carries(w, w', w.passes[id].messages[0]))
  }

  ghost predicate Carries(w: World, w': World, m: Message) {
    Delivered(w, EnvelopeOf(m)) ==> Delivered(w', EnvelopeOf(m))
  }

  lemma SoundWhenMailServes(w: World, w': World)
    requires Sound(w) && MailServes(w, w') && MailSound(w')
    ensures Sound(w')
  {
    forall i | 0 <= i < |w.store.disk.versions|
      ensures AllInOrder(w', RecordsAt(w.store, i))
    {
      forall k | 0 <= k < |RecordsAt(w.store, i).messages|
        ensures InOrder(w', RecordsAt(w.store, i).messages[k])
      {
        assert InOrder(w, RecordsAt(w.store, i).messages[k]);
        assert Carries(w, w', RecordsAt(w.store, i).messages[k]);
      }
    }
    forall id | id in w.passes
      ensures PassSound(w', w.passes[id])
    {
      assert PassSound(w, w.passes[id]);
      if w.passes[id].Delivering? && w.passes[id].filed {
        assert Carries(w, w', w.passes[id].messages[0]);
      }
    }
  }

  /** Two reads of one message ID agree on its envelope. */
  lemma KnownAgree(r: Records, m1: Message, m2: Message)
    requires Known(r, m1) && Known(r, m2) && m1.id == m2.id
    ensures EnvelopeOf(m1) == EnvelopeOf(m2)
  {
  }

  /** Publishing one envelope leaves every other delivered, and itself too. */
  lemma PublishCarries(w: World, sent: Message, m: Message, io: IOFaults, w': World)
    requires w.store.disk.Valid() && Known(Now(w.store), sent) && Known(Now(w.store), m)
    requires w' == w.(mail := PublishStep(w.mail, sent.id, EnvelopeOf(sent), io).0)
    ensures Carries(w, w', m)
  {
    if sent.id == m.id {
      KnownAgree(Now(w.store), sent, m);
    }
  }

  lemma PublishDelivers(w: World, sent: Message, io: IOFaults, w': World)
    requires w.store.disk.Valid() && MailSound(w) && PublishStep(w.mail, sent.id, EnvelopeOf(sent), io).1.None?
    requires w' == w.(mail := PublishStep(w.mail, sent.id, EnvelopeOf(sent), io).0)
    ensures Delivered(w', EnvelopeOf(sent))
  {
  }

  lemma PublishServes(w: World, sent: Message, io: IOFaults, w': World)
    requires Sound(w) && Known(Now(w.store), sent)
    requires w' == w.(mail := PublishStep(w.mail, sent.id, EnvelopeOf(sent), io).0)
    ensures MailServes(w, w') && MailSound(w')
  {
    forall i, k | 0 <= i < |w.store.disk.versions| && 0 <= k < |RecordsAt(w.store, i).messages|
      ensures Carries(w, w', RecordsAt(w.store, i).messages[k])
    {
      EveryMessageKnown(w.store, i, k);
      PublishCarries(w, sent, RecordsAt(w.store, i).messages[k], io, w');
    }
    forall id | id in w.passes && w.passes[id].Delivering? && w.passes[id].messages != []
      ensures Carries(w, w', w.passes[id].messages[0])
    {
      assert PassSound(w, w.passes[id]);
      PublishCarries(w, sent, w.passes[id].messages[0], io, w');
    }
  }

  lemma FilingKeeps(w: World, id: nat, io: IOFaults)
    requires Sound(w) && id in w.passes && w.passes[id].Delivering? && w.passes[id].messages != []
    requires Known(Now(w.store), w.passes[id].messages[0])
    ensures var p := w.passes[id];
            var (m, unfiled) := PublishStep(w.mail, p.messages[0].id, EnvelopeOf(p.messages[0]), io);
            var w' := w.(mail := m);
            Sound(w') && (unfiled.None? ==> Delivered(w', EnvelopeOf(p.messages[0])))
  {
    assert w.store.disk.Valid();
    hide Sound, Known, PublishStep, Delivered, MailServes, MailSound;
    var sent := w.passes[id].messages[0];
    var (m, unfiled) := PublishStep(w.mail, sent.id, EnvelopeOf(sent), io);
    PublishServes(w, sent, io, w.(mail := m));
    SoundWhenMailServes(w, w.(mail := m));
    if unfiled.None? {
      PublishDelivers(w, sent, io, w.(mail := m));
    }
  }

  /** A pass that filed its message, or passed it over, moves on. */
  lemma DeliverMovesOn(w: World, id: nat, p: Pass)
    requires Sound(w) && id in w.passes && w.passes[id].Delivering? && !w.passes[id].filed
             && w.passes[id].messages != []
    requires p == w.passes[id].(messages := w.passes[id].messages[1..])
             || (p == w.passes[id].(filed := true) && Delivered(w, EnvelopeOf(p.messages[0])))
    ensures Sound(Go(w, id, p))
  {
    assert PassSound(w, w.passes[id]);
    hide StoreSound, MailSound, Known, Delivered;
    SoundWhenPassMoves(w, id, p);
  }

  lemma FileNextKeeps(w: World, id: nat, io: IOFaults)
    requires Sound(w) && id in w.passes && w.passes[id].Delivering? && !w.passes[id].filed
    ensures Sound(Next(w, FileNext(id, io)))
  {
    var p := w.passes[id];
    assert w.store.disk.Valid() && PassSound(w, p);
    assert p.messages != [] ==> Known(Now(w.store), p.messages[0]);
    assert Next(w, FileNext(id, io)) == FileStep(w, id, p, io);
    hide Next, Sound, PassSound, Known, PublishStep, Delivered;
    if p.messages == [] {
      SoundWhenPassMoves(w, id, p);
    } else if !NeedsPublishing(p.messages[0]) {
      DeliverMovesOn(w, id, p.(messages := p.messages[1..]));
    } else {
      var (m, unfiled) := PublishStep(w.mail, p.messages[0].id, EnvelopeOf(p.messages[0]), io);
      FilingKeeps(w, id, io);
      if unfiled.None? {
        DeliverMovesOn(w.(mail := m), id, p.(filed := true));
      } else {
        SoundWhenPassMoves(w.(mail := m), id, p);
      }
    }
  }

  /** Archiving a message that is durably processed loses no envelope. */
  lemma ArchiveServes(w: World, messageID: string, listing: seq<string>, io: IOFaults, w': World)
    requires Sound(w) && ProcessedIn(RecordsAt(w.store, w.store.disk.durable), messageID)
    requires w' == w.(mail := ArchiveStep(w.mail, messageID, listing, io).0)
    ensures MailServes(w, w') && MailSound(w')
  {
    forall e | Delivered(w, e)
      ensures Delivered(w', e)
    {
      ArchiveKeepsDelivered(w, messageID, listing, io, w', e);
    }
    hide StoreSound, Delivered, ProcessedIn, PassSound;
  }

  lemma ArchiveKeepsDelivered(w: World, messageID: string, listing: seq<string>, io: IOFaults, w': World, e: Envelope)
    requires w' == w.(mail := ArchiveStep(w.mail, messageID, listing, io).0) && Delivered(w, e)
    ensures Delivered(w', e)
  {
    var path := Path(e.recipient, e.messageID);
    if path in w.mail.inbox || path in w.mail.archive {
      ArchiveLosesNothing(w.mail, messageID, listing, io, path);
    }
  }

  lemma IngestMovesOn(w: World, id: nat)
    requires Sound(w) && id in w.passes && w.passes[id].Ingesting? && w.passes[id].found != []
    ensures Sound(Stop(w, id))
    ensures Sound(Go(w, id, w.passes[id].(found := w.passes[id].found[1..], recorded := false)))
  {
    assert PassSound(w, w.passes[id]);
    hide StoreSound, MailSound, PublishedIn;
    SoundWhenPassMoves(w, id, w.passes[id].(found := w.passes[id].found[1..], recorded := false));
  }

  lemma PutAwayKeeps(w: World, id: nat, listing: seq<string>, io: IOFaults)
    requires Sound(w) && id in w.passes && w.passes[id].Ingesting? && w.passes[id].recorded
    ensures Sound(Next(w, PutAway(id, listing, io)))
  {
    var p := w.passes[id];
    assert w.store.disk.Valid() && PassSound(w, p);
    assert Next(w, PutAway(id, listing, io)) == PutAwayStep(w, id, p, listing, io);
    hide Next, Sound, PassSound, MailSound, ProcessedIn, ArchiveStep, MailServes;
    var w' := w.(mail := ArchiveStep(w.mail, p.found[0].messageID, listing, io).0);
    ArchiveServes(w, p.found[0].messageID, listing, io, w');
    SoundWhenMailServes(w, w');
    IngestMovesOn(w', id);
  }

  lemma DropKeeps(w: World, path: Path, content: Content<Envelope>)
    requires Sound(w)
    ensures Sound(Next(w, Drop(path, content)))
  {
    assert w.store.disk.Valid();
    hide WellFormed, Chained, AllInOrder, Backed;
    var w' := Next(w, Drop(path, content));
    assert forall e :: Delivered(w, e) ==> Delivered(w', e);
    SoundWhenMailServes(w, w');
  }

  lemma CrashKeepsSound(w: World, kept: nat, settled: nat, gone: set<Path>)
    requires Sound(w)
    ensures Sound(Next(w, Move.Crash(kept, settled, gone)))
  {
    CrashKeeps(w.store, kept, settled);
    var w' := Next(w, Move.Crash(kept, settled, gone));
    PrefixChains(w.store, w'.store);
    forall i | 0 <= i < |w'.store.disk.versions|
      ensures AllInOrder(w', RecordsAt(w'.store, i)) && Backed(w'.store.disk.versions[i])
    {
      assert RecordsAt(w'.store, i) == RecordsAt(w.store, i) && Backed(w.store.disk.versions[i]);
      assert AllInOrder(w, RecordsAt(w.store, i));
      forall k | 0 <= k < |RecordsAt(w.store, i).messages|
        ensures InOrder(w', RecordsAt(w.store, i).messages[k])
      {
        assert InOrder(w, RecordsAt(w.store, i).messages[k]);
      }
    }
    FactsLater(w'.store, w.store.disk.durable, w'.store.disk.durable);
    assert RecordsAt(w'.store, w.store.disk.durable) == RecordsAt(w.store, w.store.disk.durable);
  }

  /* ---------- Starting passes ---------- */

  lemma BeginKeeps(w: World, id: nat)
    requires Sound(w)
    ensures Sound(Next(w, BeginDeliver(id))) && Sound(Next(w, BeginIngest(id)))
  {
    OwnMessagesKnown(Now(w.store));
    var messages := Loaded(w.store).messages;
    assert messages == [] || messages == Now(w.store).messages;
    SoundWhenPassMoves(w, id, Delivering(messages, false));
    SoundWhenPassMoves(w, id, Ingesting(Awaiting(messages), Recipients(messages), [], false));
  }

  lemma ScanNextKeeps(w: World, id: nat, agent: string, scan: Listing)
    requires Sound(w)
    ensures Sound(Next(w, ScanNext(id, agent, scan)))
  {
    if id in w.passes && w.passes[id].Ingesting? && w.passes[id].found == [] {
      var p := w.passes[id];
      assert PassSound(w, p);
      SoundWhenPassMoves(w, id, p.(agents := p.agents - {agent}, found := Scanned(w.mail, agent, scan.names)));
    }
  }

  lemma MoveKeeps(w: World, move: Move)
    requires Sound(w) && Permitted(move)
    ensures Sound(Next(w, move))
  {
    match move {
      case BeginDeliver(id) => BeginKeeps(w, id);
      case FileNext(id, io) =>
        if id in w.passes && w.passes[id].Delivering? && !w.passes[id].filed { FileNextKeeps(w, id, io); }
      case RecordFiled(id, env) =>
        if id in w.passes && w.passes[id].Delivering? && w.passes[id].filed { RecordFiledKeeps(w, id, env); }
      case BeginIngest(id) => BeginKeeps(w, id);
      case ScanNext(id, agent, scan) => ScanNextKeeps(w, id, agent, scan);
      case RecordFound(id, env) =>
        if id in w.passes && w.passes[id].Ingesting? && w.passes[id].found != [] && !w.passes[id].recorded {
          RecordFoundKeeps(w, id, env);
        }
      case PutAway(id, listing, io) =>
        if id in w.passes && w.passes[id].Ingesting? && w.passes[id].recorded { PutAwayKeeps(w, id, listing, io); }
      case OtherCommit(cmd, actor, draw, requestID, fingerprint, faults) =>
        OtherCommitKeeps(w, cmd, actor, draw, requestID, fingerprint, faults);
      case Resolve(callerID, requestID, faults) => ResolveKeepsSound(w, callerID, requestID, faults);
      case Drop(path, content) => DropKeeps(w, path, content);
      case Crash(kept, settled, gone) => CrashKeepsSound(w, kept, settled, gone);
    }
  }

  /* ---------- Whole histories ---------- */

  /** A move the deliverer's role does not allow is skipped. */
  ghost function WorldAfter(moves: seq<Move>): (w: World)
    ensures w.store.disk.Valid()
  {
    if moves == [] then NEW_WORLD
    else
      var before, move := WorldAfter(moves[..|moves| - 1]), moves[|moves| - 1];
      if Permitted(move) then Next(before, move) else before
  }

  lemma {:induction false} EveryWorldIsSound(moves: seq<Move>)
    ensures Sound(WorldAfter(moves))
  {
    if moves != [] {
      var before, move := WorldAfter(moves[..|moves| - 1]), moves[|moves| - 1];
      EveryWorldIsSound(moves[..|moves| - 1]);
      if Permitted(move) {
        MoveKeeps(before, move);
      }
    }
  }

  /** The envelope says exactly what the message says. */
  predicate Conveys(e: Envelope, m: Message) {
    && e.messageID == m.id && e.sender == m.sender && e.recipient == m.recipient && e.kind == m.kind
    && e.body == m.body && e.createdAt == m.createdAt && e.taskID == m.taskID && e.replyTo == m.replyTo
  }

  /** THE delivery theorem: in every version of every history, a processed
      message is published, and a published one has its envelope in the
      recipient's inbox or archive, as sent unless an outsider wrote over the
      inbox file, and readable there unless over the read bound; whatever is
      archived is processed, durably. Only a power loss that takes the mailbox
      file itself breaks the middle link. */
  lemma FactsFollowFiles(moves: seq<Move>, i: nat, k: nat)
    requires i < |WorldAfter(moves).store.disk.versions|
    requires k < |RecordsAt(WorldAfter(moves).store, i).messages|
    ensures var w := WorldAfter(moves);
            var m := RecordsAt(w.store, i).messages[k];
            var path := Path(m.recipient, m.id);
            && (m.processedAt.Some? ==> m.publishedAt.Some?)
            && (m.publishedAt.Some? && path !in w.lost ==> path in w.mail.inbox || path in w.mail.archive)
            && (m.publishedAt.Some? && path !in w.lost && path !in w.touched ==>
                  if Oversize(EnvelopeOf(m)) then Live(w.mail, path).Unread?
                  else Live(w.mail, path).Document? && Conveys(Live(w.mail, path).value, m))
    ensures var w := WorldAfter(moves);
            forall path :: path in w.mail.archive ==>
              forall n :: w.store.disk.durable <= n < |w.store.disk.versions| ==>
                  ProcessedIn(RecordsAt(w.store, n), path.name)
  {
    var w := WorldAfter(moves);
    EveryWorldIsSound(moves);
    assert AllInOrder(w, RecordsAt(w.store, i));
    assert InOrder(w, RecordsAt(w.store, i).messages[k]);
    forall path, n | path in w.mail.archive && w.store.disk.durable <= n < |w.store.disk.versions|
      ensures ProcessedIn(RecordsAt(w.store, n), path.name)
    {
      FactsLater(w.store, w.store.disk.durable, n);
    }
  }
}
