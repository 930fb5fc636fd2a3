/** From a change to the client: whatever a fresh engine commit changed, every live
    stream below it is sent the one event that tells of it. */
module ToldChanges {
  import opened Results
  import opened Domain
  import opened StateStore
  import opened StoreTheorems
  import opened Commands
  import opened TaskLifecycle
  import opened Publication
  import opened EngineStreams
  import CommandEffects
  import CommandEvents
  import EventBus

  /** Some admitted command made this change, and this event announces it. */
  ghost predicate Tells(reviewers: set<string>, r: Records, r': Records, e: Event) {
    exists cmd, caller, draw :: Hosted(caller, reviewers) && Refusal(cmd, caller).None?
      && CommandEvents.Announces(cmd, caller, draw, r, r', e)
  }

  /** The change from one revision to the next. */
  function RecordsOf(s: Store, i: nat): Records
    requires i < |s.disk.versions|
  {
    s.disk.versions[i].snapshot.records
  }

  /** Stamping does not change what an event says. */
  lemma StampedSaysTheSame(cmd: Command, caller: Caller, draw: Draw, r: Records, r': Records, e: Event, revision: nat)
    requires CommandEvents.Announces(cmd, caller, draw, r, r', e)
    ensures CommandEvents.Announces(cmd, caller, draw, r, r', e.(revision := revision))
  {
    hide CommandEvents.TaskMoved, CommandEvents.DecisionChange, CommandEvents.OnlyThis, CommandEvents.Joined,
        Commands.Find,
         CommandEvents.OperationSet;
  }

  /** What a mutation of the engine carries when it changes anything. */
  lemma MutationTells(reviewers: set<string>, req: CommitRequest, r: Records, revision: nat)
    requires FromEngine(req, reviewers) && req.mutate(r).Ok? && req.mutate(r).value.0 != r
    ensures var (r', events) := req.mutate(r).value;
            |events| == 1 && Tells(reviewers, r, r', events[0].(revision := revision))
  {
    var cmd, caller, draw :| Runs(req, reviewers, cmd, caller, draw);
    CommandEvents.ChangesAreAnnounced(cmd, caller, draw, r);
    var (r', events) := req.mutate(r).value;
    hide Apply, CommandEvents.Announces;
    StampedSaysTheSame(cmd, caller, draw, r, r', events[0], revision);
  }

  /** A commit that took effect and was told of success. */
  predicate Fresh(p: Process, req: CommitRequest, faults: Faults)
    requires p.store.disk.Valid()
  {
    && p.held.None? && req.workspaceID != "" && Applies(p.store, req, faults)
    && CommitStep(p.store, req, faults).1.Ok?
  }

  lemma FreshIsHeld(reviewers: set<string>, p: Process, req: CommitRequest, loadFails: bool, faults: Faults)
    requires Sound(p) && Fresh(p, req, faults) && FromEngine(req, reviewers)
    requires var p1 := Next(p, Begin(req, loadFails, faults));
             RecordsOf(p1.store, |p1.store.disk.versions| - 1) != RecordsOf(p.store, |p.store.disk.versions| - 1)
    ensures var p1, v := Next(p, Begin(req, loadFails, faults)), |p.store.disk.versions|;
            && Sound(p1) && |p1.store.disk.versions| == v + 1 && p1.held.Some?
            && p1.held.value.isNew && p1.held.value.revision == v && |p1.held.value.events| == 1
            && p1.held.value.events[0].revision == v
            && Tells(reviewers, RecordsOf(p1.store, v - 1), RecordsOf(p1.store, v), p1.held.value.events[0])
  {
    BeginMoveKeeps(p, req, loadFails, faults);
    SoundStore(p);
    var v := |p.store.disk.versions|;
    CommitShape(p.store, req, faults);
    hide Sound, WellFormed, Tells, CommitStep;
    MutationTells(reviewers, req, RecordsOf(p.store, v - 1), v);
  }

  /** The version and the events a fresh success leaves. */
  lemma CommitShape(s: Store, req: CommitRequest, faults: Faults)
    requires WellFormed(s) && Applies(s, req, faults) && CommitStep(s, req, faults).1.Ok?
    ensures var v := |s.disk.versions|;
            var (s', out) := CommitStep(s, req, faults);
            var (r', events) := req.mutate(RecordsOf(s, v - 1)).value;
            && |s'.disk.versions| == v + 1 && RecordsOf(s', v) == r'
               && s'.disk.versions[v - 1] == s.disk.versions[v - 1]
            && out.value.0.revision == v && out.value.1 == Stamp(events, v)
            && Stamp(out.value.1, v) == out.value.1
  {
    VersionsCountRevisions(s, |s.disk.versions| - 1);
    hide WellFormed;
    var v := |s.disk.versions|;
    var events := req.mutate(RecordsOf(s, v - 1)).value.1;
    assert Stamp(Stamp(events, v), v) == Stamp(events, v);
  }

  /* ---------- Until it is published ---------- */

  ghost predicate Waits(moves: seq<Move>) {
    forall k :: 0 <= k < |moves| ==> !moves[k].Finish?
  }

  lemma {:induction false} HeldWaits(p: Process, moves: seq<Move>)
    requires Sound(p) && p.held.Some? && Waits(moves)
    ensures ProcessAfter(p, moves).held == p.held
  {
    assert p.store.disk.Valid() by { SoundStore(p); }
    if moves != [] {
      HeldWaits(p, moves[..|moves| - 1]);
      StaysSound(p, moves[..|moves| - 1]);
    }
    hide Sound;
  }

  lemma SuccessStays(p: Process, move: Move, v: nat)
    requires Sound(p) && v in p.successes
    ensures v in Next(p, move).successes && Next(p, move).successes[v] == p.successes[v]
  {
    if move.Finish? && p.held.Some? && p.held.value.isNew {
      assert v <= p.bus.lastPublished < p.held.value.revision;
    }
    hide Sound;
  }

  lemma {:induction false} SuccessRemains(p: Process, moves: seq<Move>, v: nat)
    requires Sound(p) && v in p.successes
    ensures v in ProcessAfter(p, moves).successes && ProcessAfter(p, moves).successes[v] == p.successes[v]
  {
    assert p.store.disk.Valid() by { SoundStore(p); }
    hide Sound, Next;
    if moves != [] {
      var before, move := ProcessAfter(p, moves[..|moves| - 1]), moves[|moves| - 1];
      SuccessRemains(p, moves[..|moves| - 1], v);
      StaysSound(p, moves[..|moves| - 1]);
      if Permitted(before, move) {
        SuccessStays(before, move, v);
      }
    }
  }

  /** The process once the commit has been published, and gone on. */
  function Later(
    p: Process, req: CommitRequest, loadFails: bool, faults: Faults, waits: seq<Move>, more: seq<Move>): Process
    requires p.store.disk.Valid()
  {
    ProcessAfter(Next(ProcessAfter(Next(p, Begin(req, loadFails, faults)), waits), Finish), more)
  }

  /** THE changelog theorem: when a fresh commit of the engine succeeds and changed
      the records, then however its publication and the rest of the process
      interleave with everybody else, a stream that is live with a cursor below it
      was sent, for that revision, exactly the one event that tells of the change. */
  lemma ChangeReachesStreams(
    reviewers: set<string>, p: Process, req: CommitRequest, loadFails: bool, faults: Faults, waits: seq<Move>,
    more: seq<Move>, id: nat)
    returns (e: Event)
    requires Sound(p) && Fresh(p, req, faults) && FromEngine(req, reviewers) && Waits(waits)
    requires var p1 := Next(p, Begin(req, loadFails, faults));
             RecordsOf(p1.store, |p1.store.disk.versions| - 1) != RecordsOf(p.store, |p.store.disk.versions| - 1)
    requires var q := Later(p, req, loadFails, faults, waits, more);
             && id in q.bus.subscribers && q.bus.subscribers[id].live
             && q.bus.subscribers[id].after < |p.store.disk.versions|
    ensures var v, p1 := |p.store.disk.versions|, Next(p, Begin(req, loadFails, faults));
            && |p1.store.disk.versions| == v + 1 && e.revision == v
            && Tells(reviewers, RecordsOf(p1.store, v - 1), RecordsOf(p1.store, v), e)
            && At(Later(p, req, loadFails, faults, waits, more).bus.subscribers[id].sent, v) == [e]
  {
    var v, p1 := |p.store.disk.versions|, Next(p, Begin(req, loadFails, faults));
    FreshIsHeld(reviewers, p, req, loadFails, faults);
    e := p1.held.value.events[0];
    HeldWaits(p1, waits);
    StaysSound(p1, waits);
    var p2 := ProcessAfter(p1, waits);
    FinishKeeps(p2);
    var p3 := Next(p2, Finish);
    assert p3.successes[v] == [e];
    SuccessRemains(p3, more, v);
    StaysSound(p3, more);
    hide Fresh, FromEngine, Tells;
    LiveHolds(ProcessAfter(p3, more), id, v);
  }

  lemma LiveHolds(q: Process, id: nat, v: nat)
    requires Sound(q) && v in q.successes && id in q.bus.subscribers && q.bus.subscribers[id].live
    requires q.bus.subscribers[id].after < v
    ensures At(q.bus.subscribers[id].sent, v) == q.successes[v]
  {
    AtAbove(q.bus.log, q.bus.subscribers[id].after, v);
  }
}
