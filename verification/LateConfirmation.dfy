/** What becomes of the events of a commit that was left uncertain and confirmed
    by a later replay: published only if nothing newer was published first. */
module LateConfirmation {
  import opened Results
  import opened Domain
  import opened StateStore
  import opened StoreTheorems
  import opened Publication
  import opened Cursors
  import EventBus

  /** No event of this revision. */
  predicate Unheard(log: seq<Event>, revision: nat) {
    forall i :: 0 <= i < |log| ==> log[i].revision != revision
  }

  /** The same request asked again; its mutation is not run again. */
  predicate Repeats(again: CommitRequest, req: CommitRequest) {
    again.caller == req.caller && again.requestID == req.requestID && again.fingerprint == req.fingerprint
  }

  /** The events this request's commit would carry. */
  function EventsOf(s: Store, req: CommitRequest): seq<Event>
    requires s.disk.Valid()
  {
    var mutated := req.mutate(s.disk.Current().snapshot.records);
    if mutated.Ok? then Stamp(mutated.value.1, |s.disk.versions|) else []
  }

  /** The commit takes effect, but its directory sync fails. */
  predicate LeftUncertain(p: Process, req: CommitRequest, faults: Faults)
    requires p.store.disk.Valid()
  {
    p.held.None? && req.workspaceID != "" && Applies(p.store, req, faults) && faults.sync
        && EventsOf(p.store, req) != []
  }

  /** The ledger entry the request left. */
  predicate Entered(s: Store, req: CommitRequest, revision: nat, events: seq<Event>)
    requires s.disk.Valid()
  {
    var key, receipts := ReceiptKey(req.caller, req.requestID), s.disk.Current().receipts;
    key in receipts && receipts[key] == ReceiptRecord(Receipt(req.requestID, revision), events, req.fingerprint)
  }

  lemma UncertainIsEntered(p: Process, req: CommitRequest, loadFails: bool, faults: Faults)
    requires Sound(p) && LeftUncertain(p, req, faults)
    ensures var p1, v := Next(p, Begin(req, loadFails, faults)), |p.store.disk.versions|;
            && Sound(p1) && p1.held.None? && p1.bus.log == p.bus.log && Unheard(p1.bus.log, v)
            && CommitStep(p.store, req, faults).1 == Err(OutcomeUncertain(v))
            && Entered(p1.store, req, v, EventsOf(p.store, req))
  {
    assert p.bus.lastPublished < |p.store.disk.versions|;
    SoundStore(p);
    VersionsCountRevisions(p.store, |p.store.disk.versions| - 1);
    BeginMoveKeeps(p, req, loadFails, faults);
    hide Sound, WellFormed;
  }

  /** Entries never change while a process lives. */
  lemma MoveKeepsEntry(p: Process, move: Move, req: CommitRequest, revision: nat, events: seq<Event>)
    requires Sound(p) && Entered(p.store, req, revision, events)
    ensures Entered(Next(p, move).store, req, revision, events)
  {
    SoundStore(p);
    match move {
      case Begin(other, _, faults) =>
        if p.held.None? {
          CommitKeepsEntry(p.store, other, faults, req, revision, events);
        }
      case ResolveRequest(caller, requestID, faults) => ResolveKeeps(p.store, caller, requestID, faults);
      case _ =>
    }
  }

  lemma CommitKeepsEntry(
    s: Store, other: CommitRequest, faults: Faults, req: CommitRequest, revision: nat, events: seq<Event>)
    requires WellFormed(s) && Entered(s, req, revision, events)
    ensures Entered(CommitStep(s, other, faults).0, req, revision, events)
  {
    CommitKeeps(s, other, faults);
  }

  lemma {:induction false} EntryStays(
    p: Process, moves: seq<Move>, req: CommitRequest, revision: nat, events: seq<Event>)
    requires Sound(p) && Entered(p.store, req, revision, events)
    ensures Entered(ProcessAfter(p, moves).store, req, revision, events)
  {
    assert p.store.disk.Valid() by { SoundStore(p); }
    hide Sound, Entered, Next;
    if moves != [] {
      var before, move := ProcessAfter(p, moves[..|moves| - 1]), moves[|moves| - 1];
      EntryStays(p, moves[..|moves| - 1], req, revision, events);
      StaysSound(p, moves[..|moves| - 1]);
      if Permitted(before, move) {
        MoveKeepsEntry(before, move, req, revision, events);
      }
    }
  }

  /** A replay the store confirms answers from the entry and holds its events. */
  lemma ReplayHolds(
    p: Process, again: CommitRequest, loadFails: bool, faults: Faults, req: CommitRequest, v: nat, events: seq<Event>)
    requires Sound(p) && p.held.None? && Entered(p.store, req, v, events) && Repeats(again, req)
             && again.workspaceID != ""
    requires CommitStep(p.store, again, faults).1.Ok?
    requires events != [] && forall i :: 0 <= i < |events| ==> events[i].revision == v
    ensures CommitStep(p.store, again, faults).1.value == (Receipt(req.requestID, v), events)
    ensures var p' := Next(p, Begin(again, loadFails, faults));
            Sound(p') && p'.held == Some(Held(v, events, false)) && p'.bus.log == p.bus.log
            && p'.bus.lastPublished == p.bus.lastPublished
  {
    BeginMoveKeeps(p, again, loadFails, faults);
    assert Stamp(events, v) == events;
    SoundStore(p);
    hide Sound, WellFormed;
  }

  /** THE confirmation theorem: when a commit left uncertain is later confirmed by
      a replay, and was not published before, its events join the log if and only
      if nothing newer was published first; otherwise the caller is told of
      success and the log never gains them. */
  lemma ConfirmedLateIsPublishedExactly(
    p: Process, req: CommitRequest, loadFails: bool, faults: Faults, more: seq<Move>,
    again: CommitRequest, loadFails2: bool, faults2: Faults)
    requires Sound(p) && LeftUncertain(p, req, faults) && Repeats(again, req) && again.workspaceID != ""
    requires var p2 := ProcessAfter(Next(p, Begin(req, loadFails, faults)), more);
             p2.held.None? && CommitStep(p2.store, again, faults2).1.Ok? && Unheard(p2.bus.log, |p.store.disk.versions|)
    ensures var v, events := |p.store.disk.versions|, EventsOf(p.store, req);
            var p2 := ProcessAfter(Next(p, Begin(req, loadFails, faults)), more);
            var p3 := Next(Next(p2, Begin(again, loadFails2, faults2)), Finish);
            && CommitStep(p2.store, again, faults2).1 == Ok((Receipt(req.requestID, v), events))
            && (At(p3.bus.log, v) == events <==> forall i :: 0 <= i < |p2.bus.log| ==> p2.bus.log[i].revision <= v)
            && (At(p3.bus.log, v) == events || p3.bus.log == p2.bus.log)
  {
    var v, events := |p.store.disk.versions|, EventsOf(p.store, req);
    UncertainIsEntered(p, req, loadFails, faults);
    var p1 := Next(p, Begin(req, loadFails, faults));
    EntryStays(p1, more, req, v, events);
    StaysSound(p1, more);
    var p2 := ProcessAfter(p1, more);
    assert forall i :: 0 <= i < |events| ==> events[i].revision == v;
    ReplayHolds(p2, again, loadFails2, faults2, req, v, events);
    var held := Next(p2, Begin(again, loadFails2, faults2));
    SoundStore(held);
    hide Sound, At, Unheard, EventBus.Consistent;
    PublishDecides(held.bus, v, events);
  }

  /** Nothing newer is out exactly when the last published revision is older. */
  lemma NothingNewerExactly(b: EventBus.Bus, v: nat)
    requires EventBus.Consistent(b) && Unheard(b.log, v) && v > 0
    ensures b.lastPublished < v <==> forall i :: 0 <= i < |b.log| ==> b.log[i].revision <= v
  {
    if b.log != [] {
      assert b.log[|b.log| - 1].revision == b.lastPublished != v;
      assert forall i :: 0 <= i < |b.log| ==> b.log[i].revision <= b.lastPublished;
    }
    hide EventBus.FloorCoversEvicted, EventBus.StreamAgrees, EventBus.FloorIsEvicted;
  }

  lemma LogGains(log: seq<Event>, v: nat, events: seq<Event>)
    requires Unheard(log, v) && events != [] && forall i :: 0 <= i < |events| ==> events[i].revision == v
    ensures At(log + events, v) == events && At(log, v) == []
  {
    hide At;
    AtConcat(log, events, v);
    AtOfBatch(events, v, v);
    AtNothing(log, v);
  }

  /** Publishing one revision's batch adds it exactly when nothing newer is out. */
  lemma PublishDecides(b: EventBus.Bus, v: nat, events: seq<Event>)
    requires EventBus.Consistent(b) && Unheard(b.log, v)
    requires events != [] && forall i :: 0 <= i < |events| ==> events[i].revision == v > 0
    ensures var log := EventBus.Publish(b, events).log;
            && (At(log, v) == events <==> forall i :: 0 <= i < |b.log| ==> b.log[i].revision <= v)
            && (At(log, v) == events || log == b.log)
  {
    LogGains(b.log, v, events);
    NothingNewerExactly(b, v);
    hide EventBus.Consistent, At, Unheard;
    assert EventBus.Publish(b, events).log == if v <= b.lastPublished then b.log else b.log + events;
    hide EventBus.Publish;
  }

  /* ---------- Lost for good ---------- */

  /** Something newer than `v` is out, and `v` is not. */
  ghost predicate Missed(p: Process, v: nat) {
    Unheard(p.bus.log, v) && v <= p.bus.lastPublished
  }

  lemma FinishKeepsMissed(p: Process, v: nat)
    requires Sound(p) && p.held.Some? && Missed(p, v)
    ensures Missed(Next(p, Finish), v)
  {
    var h, log := p.held.value, Next(p, Finish).bus.log;
    assert log == p.bus.log || (log == p.bus.log + h.events && p.bus.lastPublished < h.revision);
    hide Sound;
  }

  lemma MoveKeepsMissed(p: Process, move: Move, v: nat)
    requires Sound(p) && Missed(p, v)
    ensures Missed(Next(p, move), v)
  {
    if move.Finish? {
      if p.held.Some? {
        FinishKeepsMissed(p, v);
      }
    } else {
      hide Sound;
    }
  }

  lemma {:induction false} StaysMissed(p: Process, moves: seq<Move>, v: nat)
    requires Sound(p) && Missed(p, v)
    ensures Missed(ProcessAfter(p, moves), v)
  {
    assert p.store.disk.Valid() by { SoundStore(p); }
    hide Sound, Missed, Next;
    if moves != [] {
      var before, move := ProcessAfter(p, moves[..|moves| - 1]), moves[|moves| - 1];
      StaysMissed(p, moves[..|moves| - 1], v);
      StaysSound(p, moves[..|moves| - 1]);
      if Permitted(before, move) {
        MoveKeepsMissed(before, move, v);
      }
    }
  }

  lemma {:induction false} AboveIsFromLog(log: seq<Event>, after: nat, v: nat)
    requires Unheard(log, v)
    ensures Unheard(EventBus.Above(log, after), v)
  {
    if log != [] {
      AboveIsFromLog(log[..|log| - 1], after, v);
    }
  }

  /** A revision passed over is sent to no stream, however the process goes on. */
  lemma PassedOverIsNeverSent(p: Process, v: nat, i: nat, moves: seq<Move>, id: nat)
    requires Sound(p) && Unheard(p.bus.log, v) && i < |p.bus.log| && p.bus.log[i].revision > v
    requires id in ProcessAfter(p, moves).bus.subscribers
    ensures Unheard(ProcessAfter(p, moves).bus.subscribers[id].sent, v)
  {
    assert p.bus.log[i].revision <= p.bus.lastPublished;
    StaysMissed(p, moves, v);
    StaysSound(p, moves);
    var q := ProcessAfter(p, moves);
    var sub := q.bus.subscribers[id];
    assert EventBus.StreamAgrees(sub, q.bus.log);
    AboveIsFromLog(q.bus.log, sub.after, v);
    assert forall k :: 0 <= k < |sub.sent| ==> sub.sent[k] == EventBus.Above(q.bus.log, sub.after)[k];
  }

  /** Such a run: a commit loses its sync, a newer one is published, and the
      replay of the first succeeds without ever being published. */
  lemma LateConfirmationIsLost(s: Store, req: CommitRequest) returns (newer: CommitRequest)
    requires WellFormed(s) && Named(s) && LeftUncertain(Open(s), req, LOST_SYNC)
    ensures var v := |s.disk.versions|;
            var p2 := ProcessAfter(Next(Open(s), Begin(req, false, LOST_SYNC)),
                                   [Begin(newer, false, NO_FAULTS), Finish]);
            var p3 := Next(Next(p2, Begin(req, false, NO_FAULTS)), Finish);
            && CommitStep(p2.store, req, NO_FAULTS).1 == Ok((Receipt(req.requestID, v), EventsOf(s, req)))
            && Sound(p3) && Unheard(p3.bus.log, v) && (exists i :: 0 <= i < |p3.bus.log| && p3.bus.log[i].revision > v)
  {
    var v, p1 := |s.disk.versions|, Next(Open(s), Begin(req, false, LOST_SYNC));
    OpenIsSound(s);
    UncertainIsEntered(Open(s), req, false, LOST_SYNC);
    assert p1.store.disk.Valid() by { SoundStore(p1); }
    newer := FreshRequest(p1.store);
    var p2 := FreshIsPublished(p1, newer, v);
    EntryStays(p1, [Begin(newer, false, NO_FAULTS), Finish], req, v, EventsOf(s, req));
    ReplayHolds(p2, req, false, NO_FAULTS, req, v, EventsOf(s, req));
    var held := Next(p2, Begin(req, false, NO_FAULTS));
    FinishKeeps(held);
    hide Sound;
    assert Next(held, Finish).bus == held.bus;
  }

  lemma FreshIsPublished(p1: Process, newer: CommitRequest, v: nat) returns (p2: Process)
    requires Sound(p1) && p1.held.None? && Unheard(p1.bus.log, v) && |p1.store.disk.versions| == v + 1
    requires newer.workspaceID != "" && Applies(p1.store, newer, NO_FAULTS)
    requires forall r :: newer.mutate(r) == Ok((r, [ANY_EVENT]))
    ensures p2 == ProcessAfter(p1, [Begin(newer, false, NO_FAULTS), Finish])
    ensures Sound(p2) && p2.held.None? && Unheard(p2.bus.log, v) && p2.bus.lastPublished == v + 1
    ensures exists i :: 0 <= i < |p2.bus.log| && p2.bus.log[i].revision == v + 1
  {
    var moves := [Begin(newer, false, NO_FAULTS), Finish];
    FreshCommit(p1, newer);
    var held := Next(p1, moves[0]);
    MoveKeeps(held, Finish);
    p2 := Next(held, Finish);
    TwoMoves(p1, moves[0], Finish);
  }

  lemma TwoMoves(p: Process, a: Move, b: Move)
    requires p.store.disk.Valid() && Permitted(p, a) && Permitted(Next(p, a), b)
    ensures ProcessAfter(p, [a, b]) == Next(Next(p, a), b)
  {
    hide Next, Permitted;
    assert [] + [a] == [a] && [a] + [b] == [a, b];
    OneMore(p, [], a);
    OneMore(p, [a], b);
  }
}
