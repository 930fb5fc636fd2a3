/** The engine's commit-then-publish sequence: `commitMu` is held from the store
    commit to the publication, while observers load snapshots, seed the floor,
    subscribe, drain and disconnect in between. */
module Publication {
  import opened Results
  import opened Domain
  import opened StateStore
  import opened StoreTheorems
  import EventBus
  import Decimal

  /** The revision `Engine.currentRevision` reads. */
  function LoadedRevision(s: Store): nat
    requires s.disk.Valid()
  {
    if s.disk.Current().snapshot.workspaceID == "" then 0 else s.disk.Current().snapshot.revision
  }

  /* ---------- The engine object ---------- */

  class Engine {
    const store: FileStore
    const bus: EventBus.EventBus

    ghost predicate Valid()
      reads this, store
    {
      store.disk.Valid()
    }

    constructor (store: FileStore, bus: EventBus.EventBus)
      ensures this.store == store && this.bus == bus
    {
      this.store, this.bus := store, bus;
    }

    /** The whole critical section of `commit`. `loadFaults` strike the floor's
        own read, `faults` the store commit. */
    method Commit(req: CommitRequest, loadFaults: Faults, faults: Faults) returns (r: Result<Receipt, ErrorCode>)
      requires Valid()
      modifies store, bus
      ensures store.View() == CommitStep(old(store.View()), req, faults).0
      ensures var out := CommitStep(old(store.View()), req, faults).1;
              && r == (if out.Ok? then Ok(out.value.0) else Err(out.error))
              && bus.View() == Announce(Floor(old(bus.View()), old(store.View()), loadFaults.read), out)
    {
      var snapshot := store.Load(req.workspaceID, loadFaults);
      var _ := bus.EnsureFloor(if snapshot.Ok? then Ok(snapshot.value.revision) else Err(snapshot.error));
      var out := store.Commit(req, faults);
      if out.Err? {
        return Err(out.error);
      }
      var (receipt, events) := out.value;
      if |events| > 0 {
        var stamped: seq<Event> := [];
        for i := 0 to |events|
          invariant stamped == Stamp(events[..i], receipt.revision)
          invariant bus.View() == Floor(old(bus.View()), old(store.View()), loadFaults.read)
          invariant store.View() == CommitStep(old(store.View()), req, faults).0
        {
          stamped := stamped + [events[i].(revision := receipt.revision)];
        }
        assert events[..|events|] == events;
        bus.PublishEvents(stamped);
      }
      return Ok(receipt);
    }
  }

  function Floor(bus: EventBus.Bus, s: Store, readFails: bool): EventBus.Bus
    requires s.disk.Valid()
  {
    if readFails then bus else EventBus.Seed(bus, LoadedRevision(s))
  }

  function Announce(bus: EventBus.Bus, out: Outcome): EventBus.Bus {
    if out.Ok? && out.value.1 != [] then EventBus.Publish(bus, Stamp(out.value.1, out.value.0.revision)) else bus
  }

  /* ---------- Interleavings ---------- */

  /** What the holder of `commitMu` is about to publish. */
  datatype Held = Held(revision: nat, events: seq<Event>, isNew: bool)

  /** One process: the store, the bus, the commit in progress, the revision the
      process opened at, and the events of each commit that took effect here and
      returned success. */
  datatype Process = Process(
    store: Store, bus: EventBus.Bus, held: Option<Held>, openedAt: nat, successes: map<nat, seq<Event>>)

  datatype Move =
    | Begin(req: CommitRequest, loadFails: bool, faults: Faults)
    | Finish
    | SeedLate(revision: nat)
    | Subscribe(id: nat, cursor: string)
    | Cancel(id: nat)
    | Receive(id: nat)
    | ResolveRequest(caller: string, requestID: string, faults: Faults)

  function Open(s: Store): Process
    requires s.disk.Valid()
  {
    Process(s, EventBus.NEW_BUS, None, |s.disk.versions| - 1, map[])
  }

  /** A second committer waits while one holds `commitMu`; a subscriber waits for
      the floor. Both are moves that change nothing. */
  function Next(p: Process, move: Move): (p': Process)
    requires p.store.disk.Valid()
    ensures p'.store.disk.Valid()
  {
    match move
    case Begin(req, loadFails, faults) =>
      if p.held.Some? then p
      else
        var bus := Floor(p.bus, p.store, loadFails);
        var (s, out) := CommitStep(p.store, req, faults);
        var held := if out.Ok? && out.value.1 != [] then
            Some(Held(out.value.0.revision, Stamp(out.value.1, out.value.0.revision), Applies(p.store, req, faults)))
          else None;
        p.(store := s, bus := bus, held := held)
    case Finish =>
      if p.held.None? then p
      else
        var h := p.held.value;
        p.(bus := EventBus.Publish(p.bus, h.events), held := None,
           successes := if h.isNew then p.successes[h.revision := h.events] else p.successes)
    case SeedLate(revision) => p.(bus := EventBus.Seed(p.bus, revision))
    case Subscribe(id, cursor) =>
      if p.bus.seeded then p.(bus := EventBus.Subscribe(p.bus, id, cursor).0) else p
    case Cancel(id) => p.(bus := EventBus.Cancel(p.bus, id))
    case Receive(id) => p.(bus := EventBus.Receive(p.bus, id))
    case ResolveRequest(caller, requestID, faults) => p.(store := ResolveStep(p.store, caller, requestID, faults).0)
  }

  /** The environment's side: commits name a workspace, and a late seeding uses a
      revision this process loaded, not below what evictions raised the floor to. */
  predicate Permitted(p: Process, move: Move) {
    match move
    case Begin(req, _, _) => req.workspaceID != ""
    case SeedLate(revision) =>
      p.openedAt <= revision < |p.store.disk.versions| && (p.bus.seeded || p.bus.trimmedUpTo <= revision)
    case _ => true
  }

  /* ---------- Events of one revision ---------- */

  function At(log: seq<Event>, revision: nat): seq<Event> {
    if log == [] then []
    else
      var last := log[|log| - 1];
      At(log[..|log| - 1], revision) + if last.revision == revision then [last] else []
  }

  lemma {:induction false} AtConcat(a: seq<Event>, b: seq<Event>, revision: nat)
    ensures At(a + b, revision) == At(a, revision) + At(b, revision)
  {
    if b == [] {
      assert a + b == a;
    } else {
      assert (a + b)[..|a + b| - 1] == a + b[..|b| - 1];
      AtConcat(a, b[..|b| - 1], revision);
    }
  }

  lemma {:induction false} AtOfBatch(events: seq<Event>, revision: nat, v: nat)
    requires forall i :: 0 <= i < |events| ==> events[i].revision == revision
    ensures At(events, v) == if v == revision then events else []
  {
    if events != [] {
      AtOfBatch(events[..|events| - 1], revision, v);
    }
  }

  lemma {:induction false} AtNothing(log: seq<Event>, revision: nat)
    requires forall i :: 0 <= i < |log| ==> log[i].revision != revision
    ensures At(log, revision) == []
  {
    if log != [] {
      AtNothing(log[..|log| - 1], revision);
    }
  }

  /** A stream loses no event of a revision above its cursor. */
  lemma {:induction false} AtAbove(log: seq<Event>, after: nat, revision: nat)
    requires after < revision
    ensures At(EventBus.Above(log, after), revision) == At(log, revision)
  {
    if log != [] {
      var init, last := log[..|log| - 1], log[|log| - 1];
      AtAbove(init, after, revision);
      AtConcat(EventBus.Above(init, after), if last.revision > after then [last] else [], revision);
      assert At([last], revision) == if last.revision == revision then [last] else [];
    }
  }

  /* ---------- The invariant ---------- */

  ghost predicate Named(s: Store) {
    forall i :: 0 < i < |s.disk.versions| ==> s.disk.versions[i].snapshot.workspaceID != ""
  }

  ghost predicate HeldFits(p: Process, h: Held) {
    && h.events != [] && h.revision < |p.store.disk.versions|
    && (forall i :: 0 <= i < |h.events| ==> h.events[i].revision == h.revision)
    && (h.isNew ==> p.bus.lastPublished < h.revision && h.revision == |p.store.disk.versions| - 1)
  }

  ghost predicate StoreSide(p: Process) {
    && WellFormed(p.store) && Named(p.store)
    && p.openedAt < |p.store.disk.versions|
    && (p.held.Some? ==> HeldFits(p, p.held.value))
  }

  ghost predicate BusSide(p: Process) {
    && EventBus.Consistent(p.bus)
    && p.bus.lastPublished < |p.store.disk.versions|
    && (p.bus.seeded ==> p.openedAt <= p.bus.trimmedUpTo)
    && (p.bus.subscribers != map[] ==> p.bus.seeded)
    && forall id :: id in p.bus.subscribers ==> p.openedAt <= p.bus.subscribers[id].after
  }

  ghost predicate Announced(p: Process) {
    forall v :: v in p.successes ==>
      v <= p.bus.lastPublished && p.successes[v] != [] && At(p.bus.log, v) == p.successes[v]
  }

  ghost predicate Sound(p: Process) {
    StoreSide(p) && BusSide(p) && Announced(p)
  }

  lemma LoadSeesRevision(s: Store)
    requires WellFormed(s) && Named(s)
    ensures LoadedRevision(s) == |s.disk.versions| - 1
  {
    VersionsCountRevisions(s, |s.disk.versions| - 1);
  }

  lemma OpenIsSound(s: Store)
    requires WellFormed(s) && Named(s)
    ensures Sound(Open(s))
  {
  }

  lemma FloorKeeps(p: Process, loadFails: bool)
    requires Sound(p)
    ensures Sound(p.(bus := Floor(p.bus, p.store, loadFails)))
  {
    LoadSeesRevision(p.store);
    if !p.bus.seeded {
      EventBus.SeedKeepsExactly(p.bus, LoadedRevision(p.store));
    }
  }

  lemma BeginKeeps(p: Process, req: CommitRequest, faults: Faults, s: Store, out: Outcome, held: Option<Held>)
    requires Sound(p) && p.held.None? && req.workspaceID != ""
    requires CommitFacts(p.store, req, faults, s, out)
    requires held == if out.Ok? && out.value.1 != [] then
                       Some(Held(out.value.0.revision, Stamp(out.value.1, out.value.0.revision),
                           Applies(p.store, req, faults)))
                     else None
    ensures Sound(p.(store := s, held := held))
  {
    var p' := p.(store := s, held := held);
    assert |s.disk.versions| == |p.store.disk.versions| + |Appended(p.store, req, faults)|;
    forall i | 0 < i < |s.disk.versions|
      ensures s.disk.versions[i].snapshot.workspaceID != ""
    {
      if i < |p.store.disk.versions| {
        assert s.disk.versions[i] == p.store.disk.versions[i];
      }
    }
  }

  /** What was announced stays announced when a newer batch joins the log, and
      the batch itself is then announced. */
  lemma BatchAnnounced(log: seq<Event>, last: nat, events: seq<Event>, revision: nat, v: nat)
    requires forall i :: 0 <= i < |log| ==> log[i].revision <= last
    requires last < revision && forall i :: 0 <= i < |events| ==> events[i].revision == revision
    ensures At(log + events, v) == if v == revision then events else At(log, v)
  {
    AtConcat(log, events, v);
    AtOfBatch(events, revision, v);
    if v == revision {
      AtNothing(log, v);
    }
  }

  lemma FinishKeepsBus(p: Process, h: Held)
    requires Sound(p) && p.held == Some(h)
    ensures BusSide(p.(bus := EventBus.Publish(p.bus, h.events)))
  {
    EventBus.PublishKeeps(p.bus, h.events);
    hide EventBus.Consistent, WellFormed, Named;
    if h.events[0].revision > p.bus.lastPublished {
      assert !p.bus.seeded || p.openedAt <= p.bus.trimmedUpTo;
      EventBus.PublishRaisesFloor(p.bus, h.events);
      var bus := EventBus.Publish(p.bus, h.events);
      forall id | id in bus.subscribers
        ensures bus.subscribers[id].after == p.bus.subscribers[id].after
      {
        DeliverKeepsCursor(p.bus.subscribers[id], h.events);
      }
    }
  }

  lemma FinishKeepsAnnounced(p: Process, h: Held)
    requires Announced(p) && HeldFits(p, h) && h.events[0].revision > p.bus.lastPublished
    requires forall i :: 0 <= i < |p.bus.log| ==> p.bus.log[i].revision <= p.bus.lastPublished
    ensures Announced(p.(bus := EventBus.Publish(p.bus, h.events), successes := p.successes[h.revision := h.events]))
    ensures Announced(p.(bus := EventBus.Publish(p.bus, h.events)))
  {
    hide At;
    forall v: nat
      ensures At(p.bus.log + h.events, v) == if v == h.revision then h.events else At(p.bus.log, v)
    {
      BatchAnnounced(p.bus.log, p.bus.lastPublished, h.events, h.revision, v);
    }
  }

  lemma FinishKeeps(p: Process)
    requires Sound(p) && p.held.Some?
    ensures Sound(Next(p, Finish))
  {
    var h := p.held.value;
    FinishKeepsBus(p, h);
    if h.events[0].revision > p.bus.lastPublished {
      assert forall i :: 0 <= i < |p.bus.log| ==> p.bus.log[i].revision <= p.bus.lastPublished;
      FinishKeepsAnnounced(p, h);
    }
    FinishAssembles(p, h);
  }

  lemma FinishAssembles(p: Process, h: Held)
    requires Sound(p) && p.held == Some(h) && BusSide(p.(bus := EventBus.Publish(p.bus, h.events)))
    requires h.events[0].revision > p.bus.lastPublished ==>
               && Announced(p.(bus := EventBus.Publish(p.bus, h.events),
                  successes := p.successes[h.revision := h.events]))
               && Announced(p.(bus := EventBus.Publish(p.bus, h.events)))
    ensures Sound(Next(p, Finish))
  {
    hide EventBus.Consistent, WellFormed, Named, At;
    if h.events[0].revision > p.bus.lastPublished {
      hide EventBus.Publish;
    }
  }

  lemma {:induction false} DeliverKeepsCursor(sub: EventBus.Subscriber, events: seq<Event>)
    ensures EventBus.Deliver(sub, events).after == sub.after
    decreases |events|
  {
    if events != [] && sub.live {
      var e := events[0];
      if e.revision <= sub.after {
        DeliverKeepsCursor(sub, events[1..]);
      } else if |sub.queue| < EventBus.QUEUE_CAPACITY {
        DeliverKeepsCursor(sub.(queue := sub.queue + [e], sent := sub.sent + [e]), events[1..]);
      }
    }
  }

  lemma BeginMoveKeeps(p: Process, req: CommitRequest, loadFails: bool, faults: Faults)
    requires Sound(p) && p.held.None? && req.workspaceID != ""
    ensures Sound(Next(p, Begin(req, loadFails, faults)))
  {
    hide Sound;
    FloorKeeps(p, loadFails);
    assert WellFormed(p.store) by { SoundStore(p); }
    CommitKeeps(p.store, req, faults);
    BeginKeeps(p.(bus := Floor(p.bus, p.store, loadFails)), req, faults, CommitStep(p.store, req, faults).0,
               CommitStep(p.store, req, faults).1, Next(p, Begin(req, loadFails, faults)).held);
  }

  lemma SoundStore(p: Process)
    requires Sound(p)
    ensures WellFormed(p.store) && EventBus.Consistent(p.bus)
  {
  }

  /** A move of an observer: the late seeding, or its own stream. */
  lemma SeedMoveKeeps(p: Process, revision: nat)
    requires Sound(p) && Permitted(p, SeedLate(revision))
    ensures Sound(Next(p, SeedLate(revision)))
  {
    if !p.bus.seeded {
      EventBus.SeedKeepsExactly(p.bus, revision);
    }
  }

  /** The process is as sound on a bus whose log and floor are as before. */
  lemma SameLogKeeps(p: Process, bus: EventBus.Bus)
    requires Sound(p) && p.bus.seeded && EventBus.Consistent(bus)
    requires bus.log == p.bus.log && bus.lastPublished == p.bus.lastPublished
    requires bus.seeded == p.bus.seeded && bus.trimmedUpTo == p.bus.trimmedUpTo
    requires forall id :: id in bus.subscribers ==> p.openedAt <= bus.subscribers[id].after
    ensures Sound(p.(bus := bus))
  {
    hide WellFormed, Named, EventBus.Consistent;
  }

  lemma SubscribeMoveKeeps(p: Process, id: nat, cursor: string)
    requires Sound(p)
    ensures Sound(Next(p, Subscribe(id, cursor)))
  {
    if p.bus.seeded {
      EventBus.SubscribeKeeps(p.bus, id, cursor);
      hide EventBus.Consistent, WellFormed, Named;
      SameLogKeeps(p, EventBus.Subscribe(p.bus, id, cursor).0);
    }
  }

  lemma CancelMoveKeeps(p: Process, id: nat)
    requires Sound(p)
    ensures Sound(Next(p, Cancel(id)))
  {
    if id in p.bus.subscribers {
      EventBus.CancelKeeps(p.bus, id);
      hide EventBus.Consistent, WellFormed, Named;
      SameLogKeeps(p, EventBus.Cancel(p.bus, id));
    }
  }

  lemma ReceiveMoveKeeps(p: Process, id: nat)
    requires Sound(p)
    ensures Sound(Next(p, Receive(id)))
  {
    if id in p.bus.subscribers {
      EventBus.ReceiveKeeps(p.bus, id);
      hide EventBus.Consistent, WellFormed, Named;
      SameLogKeeps(p, EventBus.Receive(p.bus, id));
    }
  }

  lemma ResolveMoveKeeps(p: Process, caller: string, requestID: string, faults: Faults)
    requires Sound(p)
    ensures Sound(Next(p, ResolveRequest(caller, requestID, faults)))
  {
    ResolveKeeps(p.store, caller, requestID, faults);
  }

  lemma MoveKeeps(p: Process, move: Move)
    requires Sound(p) && Permitted(p, move)
    ensures Sound(Next(p, move))
  {
    hide Sound;
    match move {
      case Begin(req, loadFails, faults) => if p.held.None? { BeginMoveKeeps(p, req, loadFails, faults); }
      case Finish => if p.held.Some? { FinishKeeps(p); }
      case ResolveRequest(caller, requestID, faults) => ResolveMoveKeeps(p, caller, requestID, faults);
      case SeedLate(revision) => SeedMoveKeeps(p, revision);
      case Subscribe(id, cursor) => SubscribeMoveKeeps(p, id, cursor);
      case Cancel(id) => CancelMoveKeeps(p, id);
      case Receive(id) => ReceiveMoveKeeps(p, id);
    }
  }

  /* ---------- Whole runs of one process ---------- */

  /** Any sequence of permitted moves; a move the environment may not make is
      skipped. */
  function ProcessAfter(p: Process, moves: seq<Move>): (p': Process)
    requires p.store.disk.Valid()
    ensures p'.store.disk.Valid()
  {
    if moves == [] then p
    else
      var before, move := ProcessAfter(p, moves[..|moves| - 1]), moves[|moves| - 1];
      if Permitted(before, move) then Next(before, move) else before
  }

  lemma {:induction false} StaysSound(p: Process, moves: seq<Move>)
    requires Sound(p)
    ensures Sound(ProcessAfter(p, moves))
  {
    hide Sound;
    assert p.store.disk.Valid() by { SoundStore(p); }
    if moves != [] {
      var before, move := ProcessAfter(p, moves[..|moves| - 1]), moves[|moves| - 1];
      StaysSound(p, moves[..|moves| - 1]);
      if Permitted(before, move) {
        MoveKeeps(before, move);
      }
    }
  }

  lemma EveryProcessIsSound(s: Store, moves: seq<Move>)
    requires WellFormed(s) && Named(s)
    ensures Sound(ProcessAfter(Open(s), moves))
  {
    OpenIsSound(s);
    StaysSound(Open(s), moves);
  }

  /** THE observer theorem: however commits, replays and subscriptions interleave,
      a live stream holds every event of every commit above its cursor that took
      effect in this process and returned success, in commit order. */
  lemma ObserverSeesEverySuccess(s: Store, moves: seq<Move>, id: nat)
    requires WellFormed(s) && Named(s)
    requires id in ProcessAfter(Open(s), moves).bus.subscribers && ProcessAfter(Open(s), moves).bus.subscribers[id].live
    ensures var p := ProcessAfter(Open(s), moves);
            var sub := p.bus.subscribers[id];
            && EventBus.Ordered(sub.sent)
            && sub.sent == EventBus.Above(p.bus.log, sub.after)
            && forall v :: v in p.successes && v > sub.after ==> At(sub.sent, v) == p.successes[v]
  {
    var p := ProcessAfter(Open(s), moves);
    EveryProcessIsSound(s, moves);
    var sub := p.bus.subscribers[id];
    EventBus.AboveKeepsOrder(p.bus.log, sub.after);
    forall v | v in p.successes && v > sub.after
      ensures At(sub.sent, v) == p.successes[v]
    {
      AtAbove(p.bus.log, sub.after, v);
    }
  }

  /** The cursor in any version of the state file names that version's revision. */
  lemma CursorNamesRevision(s: Store, i: nat)
    requires WellFormed(s) && i < |s.disk.versions| && i <= Decimal.MAX_UINT64
    ensures EventBus.ParseCursor(s.disk.versions[i].snapshot.cursor) == Some(i)
  {
    VersionsCountRevisions(s, i);
    if i > 0 {
      assert Extends(s.disk.versions[i - 1], s.disk.versions[i]);
      Decimal.ParseUintRoundTrip(i);
      Decimal.DigitsAreDigits(i);
    }
  }

  /** Subscribing from a snapshot's cursor starts a live stream at the snapshot's
      revision, unless the bus reports it expired. */
  lemma SnapshotCursorResumes(p: Process, i: nat, id: nat)
    requires Sound(p) && p.bus.seeded && i < |p.store.disk.versions| && i <= Decimal.MAX_UINT64
    ensures var (bus, error) := EventBus.Subscribe(p.bus, id, p.store.disk.versions[i].snapshot.cursor);
            if i < p.bus.trimmedUpTo then error == Some(CursorExpired) && bus == p.bus
            else error == None && bus.subscribers[id].after == i && bus.subscribers[id].live
  {
    CursorNamesRevision(p.store, i);
  }

  /** A replay of a commit that already succeeded here, or was made before this
      process opened, adds nothing to any stream. */
  lemma ReplayAddsNothing(p: Process)
    requires Sound(p) && p.held.Some? && !p.held.value.isNew
    requires p.held.value.revision in p.successes || p.held.value.revision <= p.openedAt
    ensures Next(p, Finish).bus.subscribers == p.bus.subscribers
  {
    var h := p.held.value;
    if p.bus.lastPublished < h.revision {
      forall id | id in p.bus.subscribers
        ensures EventBus.Deliver(p.bus.subscribers[id], h.events) == p.bus.subscribers[id]
      {
        DeliverNothing(p.bus.subscribers[id], h.events);
      }
    }
  }

  lemma {:induction false} DeliverNothing(sub: EventBus.Subscriber, events: seq<Event>)
    requires forall i :: 0 <= i < |events| ==> events[i].revision <= sub.after
    ensures EventBus.Deliver(sub, events) == sub
  {
    if events != [] && sub.live {
      DeliverNothing(sub, events[1..]);
    }
  }

  /** The first readable load puts the floor exactly at the store's revision at
      that moment, and no later move of the process moves it down or reads again. */
  lemma FloorIsLoadedOnce(p: Process, req: CommitRequest, faults: Faults, moves: seq<Move>)
    requires Sound(p) && p.held.None? && req.workspaceID != ""
    ensures var p1 := Next(p, Begin(req, false, faults));
            var p2 := ProcessAfter(p1, moves);
            && p1.bus.seeded && p2.bus.seeded && p1.bus.trimmedUpTo <= p2.bus.trimmedUpTo
            && p1.bus.trimmedUpTo == if p.bus.seeded then p.bus.trimmedUpTo else |p.store.disk.versions| - 1
  {
    SoundStore(p);
    LoadSeesRevision(p.store);
    FloorOnlyRises(Next(p, Begin(req, false, faults)), moves);
  }

  lemma {:induction false} FloorOnlyRises(p: Process, moves: seq<Move>)
    requires p.store.disk.Valid() && p.bus.seeded
    ensures var p' := ProcessAfter(p, moves); p'.bus.seeded && p.bus.trimmedUpTo <= p'.bus.trimmedUpTo
  {
    if moves != [] {
      var before, move := ProcessAfter(p, moves[..|moves| - 1]), moves[|moves| - 1];
      FloorOnlyRises(p, moves[..|moves| - 1]);
      hide Next;
      FloorStep(before, move);
    }
  }

  lemma FloorStep(p: Process, move: Move)
    requires p.store.disk.Valid() && p.bus.seeded
    ensures Next(p, move).bus.seeded && p.bus.trimmedUpTo <= Next(p, move).bus.trimmedUpTo
  {
    hide CommitStep, ResolveStep, EventBus.Deliver, EventBus.Above;
    if move.Finish? && p.held.Some? {
      EventBus.PublishRaisesFloor(p.bus, p.held.value.events);
    }
  }

  /** The engine's whole `commit` is the two moves in a row: what other observers
      do between them is all that the interleavings add. */
  lemma CommitIsBeginThenFinish(p: Process, req: CommitRequest, loadFails: bool, faults: Faults)
    requires p.store.disk.Valid() && p.held.None?
    ensures var (s, out) := CommitStep(p.store, req, faults);
            var p' := Next(Next(p, Begin(req, loadFails, faults)), Finish);
            p'.store == s && p'.bus == Announce(Floor(p.bus, p.store, loadFails), out) && p'.held.None?
  {
    hide CommitStep, EventBus.Publish;
  }

  /** Why the mutex spans both halves: publishing out of commit order loses the
      earlier commit's events for good. */
  lemma OutOfOrderPublicationLoses(b: EventBus.Bus, first: seq<Event>, second: seq<Event>)
    requires first != [] && second != [] && b.lastPublished < first[0].revision < second[0].revision
    ensures EventBus.Publish(EventBus.Publish(b, second), first).log == b.log + second
    ensures EventBus.Publish(EventBus.Publish(b, first), second).log == b.log + first + second
  {
  }
}
