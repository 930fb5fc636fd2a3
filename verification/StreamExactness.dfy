/** Exactly what each subscriber is sent and when its stream ends, and exactly
    which cursors are accepted. */
module StreamExactness {
  import opened Results
  import opened Domain
  import opened EventBus

  /* ---------- One publication ---------- */

  lemma {:induction false} AboveFirst(first: Event, rest: seq<Event>, after: nat)
    ensures Above([first] + rest, after) == (if first.revision > after then [first] else []) + Above(rest, after)
  {
    AboveConcat([first], rest, after);
    assert [first][..0] == [] && Above([], after) == [];
    assert Above([first], after) == if first.revision > after then [first] else [];
  }

  /** What a stream becomes when `wanted` events are offered to it in order: all of
      them queue, or those that fit and it is disconnected with a full queue. */
  predicate Offered(sub: Subscriber, wanted: seq<Event>, sub': Subscriber) {
    var room := QUEUE_CAPACITY - |sub.queue|;
    if |wanted| <= room then
      sub' == sub.(queue := sub.queue + wanted, sent := sub.sent + wanted)
    else
      0 <= room && |sub'.queue| == QUEUE_CAPACITY
      && sub' == sub.(queue := sub.queue + wanted[..room], sent := sub.sent + wanted[..room], live := false)
  }

  lemma OfferedOneMore(sub: Subscriber, first: Event, wanted: seq<Event>, sub': Subscriber)
    requires |sub.queue| < QUEUE_CAPACITY
    requires Offered(sub.(queue := sub.queue + [first], sent := sub.sent + [first]), wanted, sub')
    ensures Offered(sub, [first] + wanted, sub')
  {
    var next := sub.(queue := sub.queue + [first], sent := sub.sent + [first]);
    var room := QUEUE_CAPACITY - |next.queue|;
    if |wanted| <= room {
      assert next.queue + wanted == sub.queue + ([first] + wanted);
      assert next.sent + wanted == sub.sent + ([first] + wanted);
    } else {
      assert ([first] + wanted)[..room + 1] == [first] + wanted[..room];
      assert next.queue + wanted[..room] == sub.queue + ([first] + wanted)[..room + 1];
      assert next.sent + wanted[..room] == sub.sent + ([first] + wanted)[..room + 1];
    }
  }

  /** THE delivery theorem: a live stream is offered exactly the batch's events
      above its cursor, in order; it stays live if and only if they fit beside what
      it has not drained, and is otherwise left disconnected with a full queue. */
  lemma {:induction false} DeliversExactly(sub: Subscriber, events: seq<Event>)
    requires sub.live && |sub.queue| <= QUEUE_CAPACITY
    ensures Offered(sub, Above(events, sub.after), Deliver(sub, events))
    ensures Deliver(sub, events).live <==> |sub.queue| + |Above(events, sub.after)| <= QUEUE_CAPACITY
    decreases |events|
  {
    if events == [] {
      assert sub.queue + [] == sub.queue && sub.sent + [] == sub.sent;
    } else {
      var e, rest := events[0], events[1..];
      assert events == [e] + rest;
      AboveFirst(e, rest, sub.after);
      hide Above;
      if e.revision <= sub.after {
        assert Above(events, sub.after) == Above(rest, sub.after);
        DeliversExactly(sub, rest);
      } else if |sub.queue| < QUEUE_CAPACITY {
        var next := sub.(queue := sub.queue + [e], sent := sub.sent + [e]);
        DeliversExactly(next, rest);
        OfferedOneMore(sub, e, Above(rest, sub.after), Deliver(next, rest));
      } else {
        assert sub.queue + [] == sub.queue && sub.sent + [] == sub.sent;
        assert ([e] + Above(rest, sub.after))[..0] == [];
      }
    }
  }

  lemma DisconnectedGetsNothing(sub: Subscriber, events: seq<Event>)
    requires !sub.live
    ensures Deliver(sub, events) == sub
  {
  }

  /* ---------- When a stream ends ---------- */

  /** What this action offers a stream with this cursor. */
  function OfferOf(b: Bus, action: Action, after: nat): seq<Event> {
    if action.DoPublish? && action.events != [] && action.events[0].revision > b.lastPublished then
      Above(action.events, after)
    else []
  }

  /** THE end theorem: in every history, the one action that ends a live stream is
      its own cancellation, or a publication of more events above its cursor than
      its queue has room for, which leaves the queue full. */
  lemma StreamEndsExactly(floor: nat, actions: seq<Action>, action: Action, id: nat)
    requires id in ActAll(Seed(NEW_BUS, floor), actions).subscribers
    requires ActAll(Seed(NEW_BUS, floor), actions).subscribers[id].live
    requires action.DoPublish? ==> Batch(action.events)
    requires forall k :: 0 <= k < |actions| && actions[k].DoPublish? ==> Batch(actions[k].events)
    requires action.DoSubscribe? ==> action.id != id
    ensures var b := ActAll(Seed(NEW_BUS, floor), actions);
            var sub, offer := b.subscribers[id], OfferOf(b, action, b.subscribers[id].after);
            var b' := Act(b, action);
            && id in b'.subscribers
            && (b'.subscribers[id].live <==> action != DoCancel(id) && |sub.queue| + |offer| <= QUEUE_CAPACITY)
            && (!b'.subscribers[id].live && action != DoCancel(id) ==> |b'.subscribers[id].queue| == QUEUE_CAPACITY)
  {
    EveryStreamAgrees(floor, actions);
    var b := ActAll(Seed(NEW_BUS, floor), actions);
    assert StreamAgrees(b.subscribers[id], b.log);
    if action.DoPublish? {
      DeliversExactly(b.subscribers[id], action.events);
    }
    hide Consistent, Above, Deliver, ActAll;
  }

  /** The events a subscriber has taken off its channel. */
  function Taken(sub: Subscriber): seq<Event>
    requires |sub.queue| <= |sub.sent|
  {
    sub.sent[..|sub.sent| - |sub.queue|]
  }

  /** Receiving takes the one next event, and nothing changes for anybody else. */
  lemma ReceiveTakesNext(b: Bus, id: nat)
    requires Consistent(b) && id in b.subscribers
    ensures var sub, sub' := b.subscribers[id], Receive(b, id).subscribers[id];
            && |sub.queue| <= |sub.sent| && |sub'.queue| <= |sub'.sent| && sub'.live == sub.live
            && Taken(sub') == Taken(sub) + (if sub.queue == [] then [] else [sub.sent[|Taken(sub)|]])
            && Receive(b, id) == b.(subscribers := b.subscribers[id := sub'])
  {
    var sub := b.subscribers[id];
    assert StreamAgrees(sub, b.log);
    if sub.queue == [] {
      assert b.subscribers[id := sub] == b.subscribers;
    } else {
      var n := |sub.sent| - |sub.queue|;
      assert sub.sent[..n + 1] == sub.sent[..n] + [sub.sent[n]];
    }
    hide Consistent;
  }

  /* ---------- Which cursors are accepted ---------- */

  /** The last event the buffer no longer holds, if any. */
  function FloorOver(floor: nat, log: seq<Event>): nat {
    if |log| > BUFFER_CAPACITY && log[|log| - BUFFER_CAPACITY - 1].revision > floor
    then log[|log| - BUFFER_CAPACITY - 1].revision else floor
  }

  /** The buffer is the end of the log, as long as it may be, and the floor the
      highest of where it was seeded and what has left the buffer. */
  ghost predicate Recent(b: Bus, floor: nat) {
    && b.seeded
    && |b.buffer| == (if |b.log| > BUFFER_CAPACITY then BUFFER_CAPACITY else |b.log|)
    && b.trimmedUpTo == FloorOver(floor, b.log)
  }

  /** Raising over events in order ends at the last of them, or where it was. */
  lemma {:induction false} RaiseEndsAtLast(floor: nat, evicted: seq<Event>)
    requires Ordered(evicted)
    ensures Raise(floor, evicted) ==
            if evicted != [] && evicted[|evicted| - 1].revision > floor then evicted[|evicted| - 1].revision else floor
    decreases |evicted|
  {
    if evicted != [] {
      var floor' := if evicted[0].revision > floor then evicted[0].revision else floor;
      RaiseEndsAtLast(floor', evicted[1..]);
      if |evicted| > 1 {
        assert evicted[1..][|evicted| - 2] == evicted[|evicted| - 1];
        assert evicted[0].revision <= evicted[|evicted| - 1].revision;
      }
    }
  }

  /** Where the evicted events stand in the longer log. */
  lemma EvictedInLog(b: Bus, events: seq<Event>, excess: nat)
    requires Consistent(b) && excess <= |b.buffer| + |events|
    ensures var start := |b.log| - |b.buffer|;
            (b.buffer + events)[..excess] == (b.log + events)[start..start + excess]
  {
    hide StreamAgrees, Ordered, FloorIsEvicted, LastIsLogged;
    var start := |b.log| - |b.buffer|;
    assert b.buffer == b.log[start..];
    assert (b.log + events)[start..] == b.buffer + events;
  }

  lemma OrderedPart(log: seq<Event>, from: nat, to: nat)
    requires Ordered(log) && from <= to <= |log|
    ensures Ordered(log[from..to])
  {
  }

  /** Where raising over this batch's evicted events ends. */
  lemma RaisedFloor(b: Bus, events: seq<Event>, floor: nat, excess: nat)
    requires Consistent(b) && Recent(b, floor) && Ordered(b.log + events)
    requires excess == if |b.buffer| + |events| > BUFFER_CAPACITY then |b.buffer| + |events| - BUFFER_CAPACITY else 0
    ensures Raise(b.trimmedUpTo, (b.buffer + events)[..excess]) == FloorOver(floor, b.log + events)
  {
    var log', start := b.log + events, |b.log| - |b.buffer|;
    assert |b.buffer| <= |b.log|;
    hide FloorOver, Raise, StreamAgrees, FloorIsEvicted, LastIsLogged, FloorCoversEvicted, Ordered;
    EvictedInLog(b, events, excess);
    hide Consistent;
    OrderedPart(log', start, start + excess);
    var evicted := log'[start..start + excess];
    RaiseEndsAtLast(b.trimmedUpTo, evicted);
    assert excess > 0 ==> evicted[excess - 1] == log'[start + excess - 1];
    FloorMoves(b, log', start, excess, floor);
  }

  lemma PublishShape(b: Bus, events: seq<Event>, excess: nat)
    requires events != [] && events[0].revision > b.lastPublished
    requires excess == if |b.buffer| + |events| > BUFFER_CAPACITY then |b.buffer| + |events| - BUFFER_CAPACITY else 0
    ensures var b' := Publish(b, events);
            && b'.log == b.log + events && b'.seeded == b.seeded && |b'.buffer| == |b.buffer| + |events| - excess
            && b'.trimmedUpTo == Raise(b.trimmedUpTo, (b.buffer + events)[..excess])
  {
    hide Raise, Deliver;
  }

  lemma PublishKeepsRecent(b: Bus, events: seq<Event>, floor: nat)
    requires Consistent(b) && Recent(b, floor) && Batch(events)
    ensures Recent(Publish(b, events), floor)
  {
    if events != [] && events[0].revision > b.lastPublished {
      hide Publish, FloorOver, Raise, Ordered;
      var excess: nat := if |b.buffer| + |events| > BUFFER_CAPACITY then |b.buffer| + |events| - BUFFER_CAPACITY else 0;
      PublishShape(b, events, excess);
      assert Ordered(b.log + events) by { PublishKeeps(b, events); }
      RaisedFloor(b, events, floor, excess);
      assert |b.buffer| <= |b.log|;
    } else {
      assert Publish(b, events) == b;
    }
  }

  lemma FloorMoves(b: Bus, log': seq<Event>, start: nat, excess: nat, floor: nat)
    requires Recent(b, floor) && Ordered(log') && b.log <= log' && |b.buffer| <= |b.log|
             && start == |b.log| - |b.buffer|
    requires start + excess <= |log'|
    requires |log'| - start > BUFFER_CAPACITY ==> excess == |log'| - start - BUFFER_CAPACITY
    requires |log'| - start <= BUFFER_CAPACITY ==> excess == 0
    ensures FloorOver(floor, log') ==
            if excess > 0 && log'[start + excess - 1].revision > b.trimmedUpTo then log'[start + excess - 1].revision
            else b.trimmedUpTo
  {
    if start > 0 {
      assert log'[start - 1] == b.log[start - 1];
    }
  }

  lemma {:induction false} EveryBusIsRecent(floor: nat, actions: seq<Action>)
    requires forall k :: 0 <= k < |actions| && actions[k].DoPublish? ==> Batch(actions[k].events)
    ensures Recent(ActAll(Seed(NEW_BUS, floor), actions), floor)
  {
    if actions != [] {
      var before, action := actions[..|actions| - 1], actions[|actions| - 1];
      EveryBusIsRecent(floor, before);
      EveryStreamAgrees(floor, before);
      var b := ActAll(Seed(NEW_BUS, floor), before);
      hide Consistent, ActAll;
      if action.DoPublish? {
        PublishKeepsRecent(b, action.events, floor);
      }
    }
  }

  /** THE acceptance theorem: in every history of a bus seeded first, a cursor is
      accepted if and only if it names a revision at or above the seed and every
      event above it is still among the newest the buffer may hold. */
  lemma CursorAcceptedExactly(floor: nat, actions: seq<Action>, id: nat, cursor: string)
    requires forall k :: 0 <= k < |actions| && actions[k].DoPublish? ==> Batch(actions[k].events)
    ensures var b := ActAll(Seed(NEW_BUS, floor), actions);
            Subscribe(b, id, cursor).1 == None <==>
              && ParseCursor(cursor).Some? && floor <= ParseCursor(cursor).value
              && forall i :: 0 <= i < |b.log| && b.log[i].revision > ParseCursor(cursor).value ==>
                   i >= |b.log| - BUFFER_CAPACITY
  {
    EveryBusIsRecent(floor, actions);
    EveryStreamAgrees(floor, actions);
    var b := ActAll(Seed(NEW_BUS, floor), actions);
    assert Ordered(b.log);
    hide Consistent, ActAll, ParseCursor, Above;
    if |b.log| > BUFFER_CAPACITY {
      var last := |b.log| - BUFFER_CAPACITY - 1;
      assert forall i :: 0 <= i <= last ==> b.log[i].revision <= b.log[last].revision;
    }
  }
}
