/** Which accepted cursors are served: exactly those the store still vouches for.
    A cursor kept from a history that a power loss took away is accepted and then
    silently misses commits. */
module Cursors {
  import opened Results
  import opened Domain
  import opened StateStore
  import opened StoreTheorems
  import opened Publication
  import EventBus
  import Decimal

  /** The stream's own subscription is not replaced. */
  predicate Undisturbed(moves: seq<Move>, id: nat) {
    forall k :: 0 <= k < |moves| && moves[k].Subscribe? ==> moves[k].id != id
  }

  /** While it is live the stream holds every success after revision `base`. */
  predicate Delivered(p: Process, id: nat, base: nat) {
    id in p.bus.subscribers && p.bus.subscribers[id].live ==>
      forall v :: v in p.successes && v > base ==> At(p.bus.subscribers[id].sent, v) == p.successes[v]
  }

  /** However the process goes on. */
  ghost predicate ServedFrom(p: Process, id: nat, base: nat)
    requires p.store.disk.Valid()
  {
    forall moves :: Undisturbed(moves, id) ==> Delivered(ProcessAfter(p, moves), id, base)
  }

  /* ---------- Cursors the store vouches for ---------- */

  lemma MoveKeepsCursor(p: Process, move: Move, id: nat)
    requires p.store.disk.Valid() && id in p.bus.subscribers && (move.Subscribe? ==> move.id != id)
    ensures id in Next(p, move).bus.subscribers
    ensures Next(p, move).bus.subscribers[id].after == p.bus.subscribers[id].after
  {
    if move.Finish? && p.held.Some? {
      DeliverKeepsCursor(p.bus.subscribers[id], p.held.value.events);
    }
  }

  lemma {:induction false} CursorStays(p: Process, moves: seq<Move>, id: nat)
    requires p.store.disk.Valid() && id in p.bus.subscribers && Undisturbed(moves, id)
    ensures id in ProcessAfter(p, moves).bus.subscribers
    ensures ProcessAfter(p, moves).bus.subscribers[id].after == p.bus.subscribers[id].after
  {
    if moves != [] {
      var init := moves[..|moves| - 1];
      CursorStays(p, init, id);
      MoveKeepsCursor(ProcessAfter(p, init), moves[|moves| - 1], id);
    }
  }

  lemma VouchedIsServed(p: Process, id: nat, base: nat)
    requires Sound(p) && id in p.bus.subscribers && p.bus.subscribers[id].after <= base
    ensures ServedFrom(p, id, base)
  {
    forall moves | Undisturbed(moves, id)
      ensures Delivered(ProcessAfter(p, moves), id, base)
    {
      var q := ProcessAfter(p, moves);
      StaysSound(p, moves);
      CursorStays(p, moves, id);
      forall v | v in q.successes && v > base
        ensures At(EventBus.Above(q.bus.log, q.bus.subscribers[id].after), v) == q.successes[v]
      {
        AtAbove(q.bus.log, q.bus.subscribers[id].after, v);
      }
    }
  }

  /* ---------- Cursors from beyond the store ---------- */

  lemma {:induction false} LongerThanAll(keys: set<string>) returns (n: nat)
    ensures forall k :: k in keys ==> |k| < n
  {
    if keys == {} {
      n := 0;
    } else {
      var key :| key in keys;
      var m := LongerThanAll(keys - {key});
      n := m + |key| + 1;
    }
  }

  /** Some request is always new to the ledger. */
  lemma FreshRequest(s: Store) returns (req: CommitRequest)
    requires s.disk.Valid()
    ensures req.workspaceID != "" && Applies(s, req, NO_FAULTS)
    ensures forall r :: req.mutate(r) == Ok((r, [ANY_EVENT]))
  {
    var n := LongerThanAll(s.disk.Current().receipts.Keys);
    var id := seq(n, i => 'x');
    assert |ReceiptKey("", id)| > n;
    req := CommitRequest("w", "", id, "", r => Ok((r, [ANY_EVENT])));
  }

  const NO_FAULTS := Faults(false, false, false)
  const ANY_EVENT := Event("", "", [], 0)

  /** The stream of a cursor above everything published ignores a batch below it. */
  lemma BelowCursorIsIgnored(p: Process, id: nat)
    requires Sound(p) && id in p.bus.subscribers && |p.store.disk.versions| <= p.bus.subscribers[id].after + 1
    ensures var p' := Next(p, Finish);
            && Sound(p') && p'.held.None? && p'.store == p.store
            && id in p'.bus.subscribers && p'.bus.subscribers[id] == p.bus.subscribers[id]
  {
    MoveKeeps(p, Finish);
    if p.held.Some? {
      DeliverNothing(p.bus.subscribers[id], p.held.value.events);
    }
  }

  lemma FreshCommit(p: Process, req: CommitRequest)
    requires Sound(p) && p.held.None? && req.workspaceID != "" && Applies(p.store, req, NO_FAULTS)
    requires forall r :: req.mutate(r) == Ok((r, [ANY_EVENT]))
    ensures var p', v := Next(p, Begin(req, false, NO_FAULTS)), |p.store.disk.versions|;
            && Sound(p') && |p'.store.disk.versions| == v + 1 && p'.bus.subscribers == p.bus.subscribers
            && p'.held.Some? && p'.held.value.isNew && p'.held.value.revision == v
  {
    MoveKeeps(p, Begin(req, false, NO_FAULTS));
    CommitKeeps(p.store, req, NO_FAULTS);
  }

  lemma SuccessIsRecorded(p: Process)
    requires Sound(p) && p.held.Some? && p.held.value.isNew
    ensures var v := p.held.value.revision; v in Next(p, Finish).successes && Next(p, Finish).successes[v] != []
  {
  }

  lemma LivesUndelivered(p: Process, id: nat, v: nat)
    requires Sound(p) && id in p.bus.subscribers && p.bus.subscribers[id].live
    requires v in p.successes && p.successes[v] != [] && v <= p.bus.subscribers[id].after
    ensures At(p.bus.subscribers[id].sent, v) != p.successes[v]
  {
    EventBus.AboveKeepsOrder(p.bus.log, p.bus.subscribers[id].after);
    AtNothing(p.bus.subscribers[id].sent, v);
  }

  lemma ThreeMoves(p: Process, a: Move, b: Move, c: Move)
    requires p.store.disk.Valid()
    requires Permitted(p, a) && Permitted(Next(p, a), b) && Permitted(Next(Next(p, a), b), c)
    ensures ProcessAfter(p, [a, b, c]) == Next(Next(Next(p, a), b), c)
  {
    hide Next, Permitted;
    assert [] + [a] == [a] && [a] + [b] == [a, b] && [a, b] + [c] == [a, b, c];
    OneMore(p, [], a);
    OneMore(p, [a], b);
    OneMore(p, [a, b], c);
  }

  lemma OneMore(p: Process, moves: seq<Move>, move: Move)
    requires p.store.disk.Valid() && Permitted(ProcessAfter(p, moves), move)
    ensures ProcessAfter(p, moves + [move]) == Next(ProcessAfter(p, moves), move)
  {
    hide Next, Permitted;
    assert (moves + [move])[..|moves|] == moves;
  }

  /** Let the commit in progress finish, then one more commit publish an event. */
  lemma LaterSuccess(p: Process, id: nat) returns (req: CommitRequest)
    requires Sound(p) && id in p.bus.subscribers && p.bus.subscribers[id].live
    requires |p.store.disk.versions| <= p.bus.subscribers[id].after
    ensures req.workspaceID != ""
    ensures var p1 := Next(p, Finish);
            var p2 := Next(p1, Begin(req, false, NO_FAULTS));
            var p3, v := Next(p2, Finish), |p.store.disk.versions|;
            && id in p3.bus.subscribers && p3.bus.subscribers[id].live
            && v in p3.successes && At(p3.bus.subscribers[id].sent, v) != p3.successes[v]
  {
    var v := |p.store.disk.versions|;
    BelowCursorIsIgnored(p, id);
    var p1 := Next(p, Finish);
    assert p1.store.disk.Valid() by { SoundStore(p1); }
    req := FreshRequest(p1.store);
    FreshCommit(p1, req);
    var p2 := Next(p1, Begin(req, false, NO_FAULTS));
    hide Sound, Next;
    SuccessIsRecorded(p2);
    BelowCursorIsIgnored(p2, id);
    LivesUndelivered(Next(p2, Finish), id, v);
  }

  lemma NotServed(p: Process, moves: seq<Move>, id: nat, base: nat)
    requires p.store.disk.Valid() && Undisturbed(moves, id) && !Delivered(ProcessAfter(p, moves), id, base)
    ensures !ServedFrom(p, id, base)
  {
    hide ProcessAfter, Delivered, Undisturbed;
  }

  lemma BeyondIsNotServed(p: Process, id: nat)
    requires Sound(p) && id in p.bus.subscribers && p.bus.subscribers[id].live
    requires |p.store.disk.versions| <= p.bus.subscribers[id].after
    ensures !ServedFrom(p, id, |p.store.disk.versions| - 1)
  {
    assert p.store.disk.Valid() by { SoundStore(p); }
    hide Sound, Next;
    var req := LaterSuccess(p, id);
    ThreeMoves(p, Finish, Begin(req, false, NO_FAULTS), Finish);
    NotServed(p, [Finish, Begin(req, false, NO_FAULTS), Finish], id, |p.store.disk.versions| - 1);
  }

  /** THE cursor theorem: a cursor the bus accepts is sent every later success, in
      every continuation, if and only if it is not above the store's revision. */
  lemma CursorIsServedExactly(p: Process, id: nat, cursor: string)
    requires Sound(p) && p.bus.seeded && EventBus.Subscribe(p.bus, id, cursor).1 == None
    ensures var now := |p.store.disk.versions| - 1;
            ServedFrom(Next(p, Subscribe(id, cursor)), id, now) <==> EventBus.ParseCursor(cursor).value <= now
  {
    MoveKeeps(p, Subscribe(id, cursor));
    var p', now := Next(p, Subscribe(id, cursor)), |p.store.disk.versions| - 1;
    if p'.bus.subscribers[id].after <= now {
      VouchedIsServed(p', id, now);
    } else {
      BeyondIsNotServed(p', id);
    }
  }

  const LOST_SYNC := Faults(false, false, true)

  /** Such a cursor is real: an observer is shown a commit whose sync failed, a
      power loss takes it, and the reopened process accepts the cursor. */
  lemma LostCursorIsAccepted(s: Store, req: CommitRequest, id: nat)
    requires WellFormed(s) && Named(s) && s.disk.durable == |s.disk.versions| - 1 < Decimal.MAX_UINT64
    requires req.workspaceID != "" && Applies(s, req, LOST_SYNC)
    ensures var now := s.disk.durable;
            var shown := CommitStep(s, req, LOST_SYNC).0;
            var cursor := shown.disk.Current().snapshot.cursor;
            var again := Open(Reopened(shown, 0, 0));
            var p := Next(again, SeedLate(now));
            && Permitted(again, SeedLate(now)) && Sound(p) && |p.store.disk.versions| - 1 == now
            && EventBus.ParseCursor(cursor) == Some(now + 1)
            && EventBus.Subscribe(p.bus, id, cursor).1 == None
            && !ServedFrom(Next(p, Subscribe(id, cursor)), id, now)
  {
    var now, shown := s.disk.durable, CommitStep(s, req, LOST_SYNC).0;
    CommitKeeps(s, req, LOST_SYNC);
    CursorNamesRevision(shown, now + 1);
    var back := Reopened(shown, 0, 0);
    CrashKeeps(shown, 0, 0);
    assert back.disk.versions == s.disk.versions;
    OpenIsSound(back);
    MoveKeeps(Open(back), SeedLate(now));
    CursorIsServedExactly(Next(Open(back), SeedLate(now)), id, shown.disk.Current().snapshot.cursor);
  }
}
