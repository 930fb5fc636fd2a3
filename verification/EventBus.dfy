/** The in-process event bus: a bounded replay buffer with an eviction floor,
    replay dedup, and live fan-out that disconnects a slow subscriber. */
module EventBus {
  import opened Results
  import opened Domain
  import Decimal

  const BUFFER_CAPACITY := 256
  const QUEUE_CAPACITY := BUFFER_CAPACITY

  /** One subscriber's channel: `queue` is what it has not drained yet, `sent`
      everything ever put on it, `live` whether it is still registered. */
  datatype Subscriber = Subscriber(after: nat, queue: seq<Event>, sent: seq<Event>, live: bool)

  /** The bus, with the log of everything accepted for publication. */
  datatype Bus = Bus(
    seeded: bool, buffer: seq<Event>, trimmedUpTo: nat, lastPublished: nat,
    subscribers: map<nat, Subscriber>, log: seq<Event>)

  const NEW_BUS := Bus(false, [], 0, 0, map[], [])

  /* ---------- What each operation does ---------- */

  function Seed(b: Bus, revision: nat): Bus {
    if b.seeded then b else b.(trimmedUpTo := revision, seeded := true)
  }

  /** Raises the floor over every evicted event. */
  function Raise(floor: nat, evicted: seq<Event>): nat
    decreases |evicted|
  {
    if evicted == [] then floor
    else Raise(if evicted[0].revision > floor then evicted[0].revision else floor, evicted[1..])
  }

  /** Offers events to one subscriber; a full queue disconnects it. */
  function Deliver(sub: Subscriber, events: seq<Event>): Subscriber
    decreases |events|
  {
    if events == [] || !sub.live then sub
    else if events[0].revision <= sub.after then Deliver(sub, events[1..])
    else if |sub.queue| < QUEUE_CAPACITY then
      Deliver(sub.(queue := sub.queue + [events[0]], sent := sub.sent + [events[0]]), events[1..])
    else sub.(live := false)
  }

  function Publish(b: Bus, events: seq<Event>): Bus {
    if events == [] || events[0].revision <= b.lastPublished then b
    else
      var full := b.buffer + events;
      var excess := if |full| > BUFFER_CAPACITY then |full| - BUFFER_CAPACITY else 0;
      Bus(b.seeded, full[excess..], Raise(b.trimmedUpTo, full[..excess]), events[0].revision,
          map i | i in b.subscribers :: Deliver(b.subscribers[i], events), b.log + events)
  }

  /** The events of `log` above a revision, in order. */
  function Above(log: seq<Event>, after: nat): seq<Event> {
    if log == [] then []
    else
      var last := log[|log| - 1];
      Above(log[..|log| - 1], after) + if last.revision > after then [last] else []
  }

  /** The revision a cursor names; the empty cursor names the beginning. */
  function ParseCursor(cursor: string): Option<nat> {
    if cursor == "" then Some(0) else Decimal.ParseUint(cursor)
  }

  function Subscribe(b: Bus, id: nat, cursor: string): (Bus, Option<ErrorCode>) {
    match ParseCursor(cursor)
    case None => (b, Some(CursorExpired))
    case Some(after) =>
      if after < b.trimmedUpTo then (b, Some(CursorExpired))
      else
        var backlog := Above(b.buffer, after);
        (b.(subscribers := b.subscribers[id := Subscriber(after, backlog, backlog, true)]), None)
  }

  function Cancel(b: Bus, id: nat): Bus {
    if id in b.subscribers then b.(subscribers := b.subscribers[id := b.subscribers[id].(live := false)]) else b
  }

  /** A subscriber takes the oldest event off its channel. */
  function Receive(b: Bus, id: nat): Bus {
    if id in b.subscribers && b.subscribers[id].queue != [] then
      b.(subscribers := b.subscribers[id := b.subscribers[id].(queue := b.subscribers[id].queue[1..])])
    else b
  }

  /* ---------- The bus object ---------- */

  class EventBus {
    var seeded: bool
    var buffer: seq<Event>
    var trimmedUpTo: nat
    var lastPublished: nat
    var subscribers: map<nat, Subscriber>
    ghost var log: seq<Event>

    ghost function View(): Bus
      reads this
    {
      Bus(seeded, buffer, trimmedUpTo, lastPublished, subscribers, log)
    }

    constructor ()
      ensures View() == NEW_BUS
    {
      seeded, buffer, trimmedUpTo, lastPublished, subscribers, log := false, [], 0, 0, map[], [];
    }

    /** `loaded` is what reading the workspace revision gave. */
    method EnsureFloor(loaded: Result<nat, ErrorCode>) returns (error: Option<ErrorCode>)
      modifies this
      ensures View() == if loaded.Ok? then Seed(old(View()), loaded.value) else old(View())
      ensures error == if old(seeded) || loaded.Ok? then None else Some(loaded.error)
    {
      if seeded {
        return None;
      }
      if loaded.Err? {
        return Some(loaded.error);
      }
      trimmedUpTo := loaded.value;
      seeded := true;
      return None;
    }

    method Append(events: seq<Event>)
      modifies this`buffer
      ensures buffer == old(buffer) + events
    {
      for i := 0 to |events|
        invariant buffer == old(buffer) + events[..i]
      {
        buffer := buffer + [events[i]];
      }
    }

    method Evict()
      modifies this`buffer, this`trimmedUpTo
      ensures var excess := if |old(buffer)| > BUFFER_CAPACITY then |old(buffer)| - BUFFER_CAPACITY else 0;
              buffer == old(buffer)[excess..] && trimmedUpTo == Raise(old(trimmedUpTo), old(buffer)[..excess])
    {
      ghost var full := buffer;
      ghost var excess: nat := if |full| > BUFFER_CAPACITY then |full| - BUFFER_CAPACITY else 0;
      ghost var gone: nat := 0;
      while |buffer| > BUFFER_CAPACITY
        invariant gone <= excess && buffer == full[gone..]
        invariant Raise(trimmedUpTo, full[gone..excess]) == Raise(old(trimmedUpTo), full[..excess])
      {
        var evicted := buffer[0];
        assert full[gone..excess][1..] == full[gone + 1..excess];
        buffer := buffer[1..];
        if evicted.revision > trimmedUpTo {
          trimmedUpTo := evicted.revision;
        }
        gone := gone + 1;
      }
    }

    method FanOut(id: nat, events: seq<Event>)
      requires id in subscribers
      modifies this`subscribers
      ensures subscribers == old(subscribers)[id := Deliver(old(subscribers)[id], events)]
    {
      var sub := subscribers[id];
      var i := 0;
      while i < |events| && sub.live
        invariant 0 <= i <= |events|
        invariant Deliver(sub, events[i..]) == Deliver(old(subscribers)[id], events)
      {
        assert events[i..][1..] == events[i + 1..];
        if events[i].revision > sub.after {
          if |sub.queue| < QUEUE_CAPACITY {
            sub := sub.(queue := sub.queue + [events[i]], sent := sub.sent + [events[i]]);
          } else {
            sub := sub.(live := false);
          }
        }
        i := i + 1;
      }
      subscribers := subscribers[id := sub];
    }

    method PublishEvents(events: seq<Event>)
      modifies this
      ensures View() == Publish(old(View()), events)
    {
      if events == [] || events[0].revision <= lastPublished {
        return;
      }
      lastPublished := events[0].revision;
      Append(events);
      Evict();
      ghost var before := subscribers;
      var todo := subscribers.Keys;
      while todo != {}
        invariant todo <= subscribers.Keys == before.Keys
        invariant forall i :: i in before ==>
                    subscribers[i] == if i in todo then before[i] else Deliver(before[i], events)
        invariant seeded == old(seeded) && lastPublished == events[0].revision && log == old(log)
        invariant buffer == Publish(old(View()), events).buffer
        invariant trimmedUpTo == Publish(old(View()), events).trimmedUpTo
      {
        var id :| id in todo;
        FanOut(id, events);
        todo := todo - {id};
      }
      log := log + events;
    }

    method SubscribeAfter(id: nat, cursor: string) returns (error: Option<ErrorCode>)
      modifies this`subscribers
      ensures (View(), error) == Subscribe(old(View()), id, cursor)
    {
      var after := 0;
      if cursor != "" {
        var parsed := Decimal.ParseUint(cursor);
        if parsed.None? {
          return Some(CursorExpired);
        }
        after := parsed.value;
      }
      if after < trimmedUpTo {
        return Some(CursorExpired);
      }
      var backlog: seq<Event> := [];
      for i := 0 to |buffer|
        invariant backlog == Above(buffer[..i], after)
      {
        assert buffer[..i + 1][..i] == buffer[..i];
        if buffer[i].revision > after {
          backlog := backlog + [buffer[i]];
        }
      }
      assert buffer[..|buffer|] == buffer;
      subscribers := subscribers[id := Subscriber(after, backlog, backlog, true)];
      return None;
    }
  }

  /* ---------- The filter ---------- */

  lemma {:induction false} AboveConcat(a: seq<Event>, b: seq<Event>, after: nat)
    ensures Above(a + b, after) == Above(a, after) + Above(b, after)
  {
    if b == [] {
      assert a + b == a;
    } else {
      var init := b[..|b| - 1];
      assert (a + b)[..|a + b| - 1] == a + init;
      AboveConcat(a, init, after);
    }
  }

  lemma {:induction false} AboveNothing(log: seq<Event>, after: nat)
    requires forall i :: 0 <= i < |log| ==> log[i].revision <= after
    ensures Above(log, after) == []
  {
    if log != [] {
      AboveNothing(log[..|log| - 1], after);
    }
  }

  lemma {:induction false} AboveKeepsOrder(log: seq<Event>, after: nat)
    requires Ordered(log)
    ensures Ordered(Above(log, after)) && |Above(log, after)| <= |log|
    ensures forall i :: 0 <= i < |Above(log, after)| ==> after < Above(log, after)[i].revision
    ensures forall i :: 0 <= i < |Above(log, after)| ==> Above(log, after)[i].revision <= log[|log| - 1].revision
  {
    if log != [] {
      AboveKeepsOrder(log[..|log| - 1], after);
    }
  }

  /** Filtering twice keeps the events above the higher of the two revisions. */
  lemma {:induction false} AboveAbove(log: seq<Event>, low: nat, high: nat)
    requires low <= high
    ensures Above(Above(log, low), high) == Above(log, high)
  {
    if log != [] {
      var init, last := log[..|log| - 1], log[|log| - 1];
      AboveAbove(init, low, high);
      var rest := if last.revision > low then [last] else [];
      AboveConcat(Above(init, low), rest, high);
      assert Above(rest, high) == if last.revision > high then [last] else [];
    }
  }

  /* ---------- The invariant ---------- */

  ghost predicate Ordered(log: seq<Event>) {
    forall i, j :: 0 <= i < j < |log| ==> log[i].revision <= log[j].revision
  }

  /** A batch as the engine stamps it: one revision for all its events. */
  ghost predicate Batch(events: seq<Event>) {
    forall i :: 0 <= i < |events| ==> events[i].revision == events[0].revision
  }

  /** Every event no longer in the buffer is at or below the floor. */
  ghost predicate FloorCoversEvicted(b: Bus) {
    && |b.buffer| <= |b.log|
    && b.buffer == b.log[|b.log| - |b.buffer|..]
    && forall i :: 0 <= i < |b.log| - |b.buffer| ==> b.log[i].revision <= b.trimmedUpTo
  }

  /** THE stream contract: a live subscriber was sent exactly the log above its
      cursor, a disconnected one a prefix of that. */
  ghost predicate StreamAgrees(sub: Subscriber, log: seq<Event>) {
    && (sub.live ==> sub.sent == Above(log, sub.after))
    && sub.sent <= Above(log, sub.after)
    && |sub.queue| <= QUEUE_CAPACITY && |sub.queue| <= |sub.sent|
    && sub.queue == sub.sent[|sub.sent| - |sub.queue|..]
  }

  /** Until it is seeded the floor has only been raised by evictions. */
  ghost predicate FloorIsEvicted(b: Bus) {
    b.trimmedUpTo == 0 || exists i :: 0 <= i < |b.log| - |b.buffer| && b.log[i].revision == b.trimmedUpTo
  }

  /** The last revision published is that of the log's last event. */
  predicate LastIsLogged(b: Bus) {
    b.lastPublished == if b.log == [] then 0 else b.log[|b.log| - 1].revision
  }

  ghost predicate Consistent(b: Bus) {
    && |b.buffer| <= BUFFER_CAPACITY
    && Ordered(b.log)
    && (forall i :: 0 <= i < |b.log| ==> b.log[i].revision <= b.lastPublished)
    && LastIsLogged(b)
    && FloorCoversEvicted(b)
    && (!b.seeded ==> FloorIsEvicted(b))
    && forall id :: id in b.subscribers ==> StreamAgrees(b.subscribers[id], b.log)
  }

  lemma {:induction false} RaiseCovers(floor: nat, evicted: seq<Event>)
    ensures floor <= Raise(floor, evicted)
    ensures forall i :: 0 <= i < |evicted| ==> evicted[i].revision <= Raise(floor, evicted)
    decreases |evicted|
  {
    if evicted != [] {
      var floor' := if evicted[0].revision > floor then evicted[0].revision else floor;
      RaiseCovers(floor', evicted[1..]);
      forall i | 0 <= i < |evicted|
        ensures evicted[i].revision <= Raise(floor, evicted)
      {
        if i > 0 {
          assert evicted[i] == evicted[1..][i - 1];
        }
      }
    }
  }

  lemma {:induction false} RaiseIsOneOf(floor: nat, evicted: seq<Event>)
    ensures Raise(floor, evicted) == floor
            || exists i :: 0 <= i < |evicted| && evicted[i].revision == Raise(floor, evicted)
    decreases |evicted|
  {
    if evicted != [] {
      var floor' := if evicted[0].revision > floor then evicted[0].revision else floor;
      RaiseIsOneOf(floor', evicted[1..]);
      if i :| 0 <= i < |evicted[1..]| && evicted[1..][i].revision == Raise(floor', evicted[1..]) {
        assert evicted[i + 1] == evicted[1..][i];
      }
    }
  }

  /** One event joins the log, and is offered to a live subscriber. */
  lemma OfferAgrees(sub: Subscriber, log: seq<Event>, e: Event)
    requires StreamAgrees(sub, log) && sub.live
    ensures e.revision <= sub.after ==> StreamAgrees(sub, log + [e])
    ensures e.revision > sub.after && |sub.queue| < QUEUE_CAPACITY ==>
              StreamAgrees(sub.(queue := sub.queue + [e], sent := sub.sent + [e]), log + [e])
    ensures e.revision > sub.after ==> StreamAgrees(sub.(live := false), log + [e])
  {
    assert (log + [e])[..|log|] == log;
    assert Above(log + [e], sub.after) == sub.sent + if e.revision > sub.after then [e] else [];
  }

  /** What a disconnected subscriber was sent stays a prefix. */
  lemma LongerLogAgrees(sub: Subscriber, log: seq<Event>, events: seq<Event>)
    requires StreamAgrees(sub, log) && (!sub.live || events == [])
    ensures StreamAgrees(sub, log + events)
  {
    AboveConcat(log, events, sub.after);
    assert events == [] ==> log + events == log;
  }

  lemma {:induction false} DeliverAgrees(sub: Subscriber, log: seq<Event>, events: seq<Event>)
    requires StreamAgrees(sub, log)
    ensures StreamAgrees(Deliver(sub, events), log + events)
    decreases |events|
  {
    hide StreamAgrees;
    if events == [] || !sub.live {
      LongerLogAgrees(sub, log, events);
    } else {
      var e, rest := events[0], events[1..];
      assert (log + [e]) + rest == log + events;
      OfferAgrees(sub, log, e);
      if e.revision <= sub.after {
        DeliverAgrees(sub, log + [e], rest);
      } else if |sub.queue| < QUEUE_CAPACITY {
        DeliverAgrees(sub.(queue := sub.queue + [e], sent := sub.sent + [e]), log + [e], rest);
      } else {
        LongerLogAgrees(sub.(live := false), log + [e], rest);
      }
    }
  }

  lemma PublishRaisesFloor(b: Bus, events: seq<Event>)
    ensures b.trimmedUpTo <= Publish(b, events).trimmedUpTo
  {
    var full := b.buffer + events;
    RaiseCovers(b.trimmedUpTo, full[..if |full| > BUFFER_CAPACITY then |full| - BUFFER_CAPACITY else 0]);
  }

  lemma PublishKeepsFloor(b: Bus, events: seq<Event>)
    requires Consistent(b) && Batch(events)
    requires events != [] && events[0].revision > b.lastPublished
    ensures FloorCoversEvicted(Publish(b, events))
    ensures !b.seeded ==> FloorIsEvicted(Publish(b, events))
  {
    hide StreamAgrees, Deliver, Ordered;
    var full := b.buffer + events;
    var excess := if |full| > BUFFER_CAPACITY then |full| - BUFFER_CAPACITY else 0;
    var b' := Publish(b, events);
    RaiseCovers(b.trimmedUpTo, full[..excess]);
    RaiseIsOneOf(b.trimmedUpTo, full[..excess]);
    var start := |b.log| - |b.buffer|;
    assert b'.log[start..] == full;
    assert b'.log[start + excess..] == full[excess..];
    EvictedIsLog(b'.log, full, start, excess);
    assert forall i :: 0 <= i < start ==> b'.log[i] == b.log[i];
  }

  /** The evicted events are the part of the log that follows what was evicted before. */
  lemma EvictedIsLog(log: seq<Event>, full: seq<Event>, start: nat, excess: nat)
    requires start <= |log| && log[start..] == full && excess <= |full|
    ensures forall i :: 0 <= i < excess ==> log[start + i] == full[..excess][i]
    ensures forall i :: start <= i < start + excess ==> log[i] == full[..excess][i - start]
  {
    forall i | start <= i < start + excess
      ensures log[i] == full[..excess][i - start]
    {
      assert log[i] == log[start..][i - start];
    }
    forall i | 0 <= i < excess
      ensures log[start + i] == full[..excess][i]
    {
      assert log[start + i] == log[start..][i];
    }
  }

  lemma PublishKeeps(b: Bus, events: seq<Event>)
    requires Consistent(b) && Batch(events)
    ensures Consistent(Publish(b, events))
  {
    if events != [] && events[0].revision > b.lastPublished {
      PublishKeepsFloor(b, events);
      var b' := Publish(b, events);
      forall id | id in b'.subscribers
        ensures StreamAgrees(b'.subscribers[id], b'.log)
      {
        DeliverAgrees(b.subscribers[id], b.log, events);
      }
    }
  }

  /** Seeding keeps the bus sound exactly when it does not lower the floor; in
      particular always before the first eviction. */
  lemma SeedKeepsExactly(b: Bus, revision: nat)
    requires Consistent(b) && !b.seeded
    ensures Consistent(Seed(b, revision)) <==> b.trimmedUpTo <= revision
  {
  }

  /** An accepted cursor is never stale: the backlog it is seeded with is the
      whole log above it, and always fits its queue. */
  lemma AcceptedCursorMissesNothing(b: Bus, after: nat)
    requires Consistent(b) && b.trimmedUpTo <= after
    ensures Above(b.buffer, after) == Above(b.log, after)
    ensures |Above(b.buffer, after)| <= QUEUE_CAPACITY
  {
    var cut := |b.log| - |b.buffer|;
    assert b.log == b.log[..cut] + b.log[cut..];
    AboveConcat(b.log[..cut], b.log[cut..], after);
    AboveNothing(b.log[..cut], after);
    AboveLength(b.buffer, after);
  }

  lemma {:induction false} AboveLength(log: seq<Event>, after: nat)
    ensures |Above(log, after)| <= |log|
  {
    if log != [] {
      AboveLength(log[..|log| - 1], after);
    }
  }

  lemma NewSubscriberAgrees(b: Bus, after: nat)
    requires Consistent(b) && b.trimmedUpTo <= after
    ensures StreamAgrees(Subscriber(after, Above(b.buffer, after), Above(b.buffer, after), true), b.log)
  {
    AcceptedCursorMissesNothing(b, after);
  }

  lemma NewStreamKeeps(b: Bus, id: nat, sub: Subscriber)
    requires Consistent(b) && StreamAgrees(sub, b.log)
    ensures Consistent(b.(subscribers := b.subscribers[id := sub]))
  {
    hide StreamAgrees, Ordered, FloorCoversEvicted, FloorIsEvicted, LastIsLogged;
    SameFloor(b, b.(subscribers := b.subscribers[id := sub]));
  }

  lemma SameFloor(b: Bus, b': Bus)
    requires b' == b.(subscribers := b'.subscribers)
    ensures FloorCoversEvicted(b') <==> FloorCoversEvicted(b)
    ensures FloorIsEvicted(b') <==> FloorIsEvicted(b)
    ensures LastIsLogged(b') <==> LastIsLogged(b)
  {
  }

  lemma SubscribeKeeps(b: Bus, id: nat, cursor: string)
    requires Consistent(b)
    ensures Consistent(Subscribe(b, id, cursor).0)
    ensures Subscribe(b, id, cursor).1.None? <==>
              ParseCursor(cursor).Some? && b.trimmedUpTo <= ParseCursor(cursor).value
  {
    hide Consistent, StreamAgrees, Above, ParseCursor;
    var after := ParseCursor(cursor);
    if after.Some? && b.trimmedUpTo <= after.value {
      NewSubscriberAgrees(b, after.value);
      NewStreamKeeps(b, id, Subscriber(after.value, Above(b.buffer, after.value), Above(b.buffer, after.value), true));
    }
  }

  lemma ReceiveKeeps(b: Bus, id: nat)
    requires Consistent(b)
    ensures Consistent(Receive(b, id))
  {
    if id in b.subscribers && b.subscribers[id].queue != [] {
      var sub := b.subscribers[id];
      var n := |sub.sent| - |sub.queue|;
      assert sub.sent[n..][1..] == sub.sent[n + 1..];
    }
  }

  /* ---------- Whole histories of one bus ---------- */

  datatype Action =
    | DoSeed(revision: nat)
    | DoPublish(events: seq<Event>)
    | DoSubscribe(id: nat, cursor: string)
    | DoCancel(id: nat)
    | DoReceive(id: nat)

  function Act(b: Bus, action: Action): Bus {
    match action
    case DoSeed(revision) => Seed(b, revision)
    case DoPublish(events) => Publish(b, events)
    case DoSubscribe(id, cursor) => Subscribe(b, id, cursor).0
    case DoCancel(id) => Cancel(b, id)
    case DoReceive(id) => Receive(b, id)
  }

  function ActAll(b: Bus, actions: seq<Action>): Bus {
    if actions == [] then b else Act(ActAll(b, actions[..|actions| - 1]), actions[|actions| - 1])
  }

  /** Every subscriber's stream agrees with the filter of the log, in every
      history that seeds the floor before it publishes. */
  lemma {:induction false} EveryStreamAgrees(floor: nat, actions: seq<Action>)
    requires forall i :: 0 <= i < |actions| && actions[i].DoPublish? ==> Batch(actions[i].events)
    ensures var b := ActAll(Seed(NEW_BUS, floor), actions); Consistent(b) && b.seeded
  {
    if actions != [] {
      var before, last := actions[..|actions| - 1], actions[|actions| - 1];
      EveryStreamAgrees(floor, before);
      ActKeeps(ActAll(Seed(NEW_BUS, floor), before), last);
    }
  }

  lemma ActKeeps(b: Bus, action: Action)
    requires Consistent(b) && b.seeded && (action.DoPublish? ==> Batch(action.events))
    ensures Consistent(Act(b, action)) && Act(b, action).seeded
  {
    match action {
      case DoSeed(_) =>
      case DoPublish(events) => PublishKeeps(b, events);
      case DoSubscribe(id, cursor) => SubscribeKeeps(b, id, cursor);
      case DoCancel(id) => CancelKeeps(b, id);
      case DoReceive(id) => ReceiveKeeps(b, id);
    }
  }

  lemma CancelKeeps(b: Bus, id: nat)
    requires Consistent(b)
    ensures Consistent(Cancel(b, id))
  {
  }

  /* ---------- A floor seeded late ---------- */

  /** `n` commits of one event each, published before anyone read the floor. */
  function Commits(n: nat): seq<Event> {
    seq(n, i requires 0 <= i < n => Event("", "", [], i + 1))
  }

  function Announcements(n: nat): seq<Action> {
    seq(n, i requires 0 <= i < n => DoPublish([Event("", "", [], i + 1)]))
  }

  function Evicted(n: nat): nat {
    if n > BUFFER_CAPACITY then n - BUFFER_CAPACITY else 0
  }

  function Unseeded(n: nat): Bus {
    Bus(false, Commits(n)[Evicted(n)..], Evicted(n), n, map[], Commits(n))
  }

  lemma OneMoreCommit(n: nat)
    ensures Publish(Unseeded(n), [Event("", "", [], n + 1)]) == Unseeded(n + 1)
  {
    var e := Event("", "", [], n + 1);
    var full := Commits(n)[Evicted(n)..] + [e];
    assert Commits(n + 1) == Commits(n) + [e];
    assert full == Commits(n + 1)[Evicted(n)..];
    if n >= BUFFER_CAPACITY {
      assert full[..1] == [full[0]] && full[0].revision == Evicted(n + 1);
      assert Raise(Evicted(n), [full[0]]) == Raise(full[0].revision, [full[0]][1..]);
      assert full[1..] == Commits(n + 1)[Evicted(n + 1)..];
    } else {
      assert full[0..] == full && full[..0] == [];
    }
    assert Publish(Unseeded(n), [e]).subscribers == map[];
  }

  lemma {:induction false} UnseededBus(n: nat)
    ensures ActAll(NEW_BUS, Announcements(n)) == Unseeded(n)
  {
    if n > 0 {
      UnseededBus(n - 1);
      OneMoreCommit(n - 1);
      assert Announcements(n)[..n - 1] == Announcements(n - 1);
    }
  }

  /** A bus that evicted before it was seeded, then seeded from a revision read
      too early: it accepts a cursor whose next events are gone. */
  lemma LateSeedLosesEvents(n: nat, revision: nat, id: nat, cursor: string)
    requires revision < Evicted(n) && ParseCursor(cursor) == Some(revision)
    ensures var b := ActAll(NEW_BUS, Announcements(n));
            var (after, error) := Subscribe(Seed(b, revision), id, cursor);
            && Consistent(b) && !Consistent(Seed(b, revision))
            && error == None && after.subscribers[id].live && after.subscribers[id].sent != Above(after.log, revision)
  {
    UnseededBus(n);
    UnseededIsConsistent(n);
    var b := ActAll(NEW_BUS, Announcements(n));
    SeedKeepsExactly(b, revision);
    AboveLength(b.buffer, revision);
    AboveSuffix(n, revision);
  }

  lemma UnseededIsConsistent(n: nat)
    ensures Consistent(Unseeded(n))
  {
    if Evicted(n) > 0 {
      assert Commits(n)[Evicted(n) - 1].revision == Evicted(n);
    }
  }

  lemma {:induction false} AboveSuffix(n: nat, after: nat)
    requires after <= n
    ensures |Above(Commits(n), after)| == n - after
  {
    if n > after {
      assert Commits(n)[..n - 1] == Commits(n - 1);
      AboveSuffix(n - 1, after);
    } else {
      AboveNothing(Commits(n), after);
    }
  }

  /* ---------- Resuming after a disconnect ---------- */

  /** The revision a subscriber resumes from: that of the last event it got. */
  function ResumePoint(after: nat, received: seq<Event>): nat {
    if received == [] then after else received[|received| - 1].revision
  }

  /** A received prefix that stops inside one commit's batch. */
  ghost predicate CutsABatch(received: seq<Event>, rest: seq<Event>) {
    received != [] && rest != [] && rest[0].revision == received[|received| - 1].revision
  }

  lemma {:induction false} AboveOfHigher(log: seq<Event>, after: nat)
    requires forall i :: 0 <= i < |log| ==> log[i].revision > after
    ensures Above(log, after) == log
  {
    if log != [] {
      AboveOfHigher(log[..|log| - 1], after);
    }
  }

  /** Draining a closed stream and resuming from its last revision continues the
      filter with no gap and no repeat exactly when no batch was cut. */
  lemma ResumeContinuesExactly(log: seq<Event>, after: nat, received: seq<Event>, rest: seq<Event>)
    requires Ordered(log) && Above(log, after) == received + rest
    ensures received + Above(log, ResumePoint(after, received)) == Above(log, after)
            <==> !CutsABatch(received, rest)
  {
    var resume := ResumePoint(after, received);
    var whole := received + rest;
    AboveKeepsOrder(log, after);
    if received == [] {
      assert whole == rest;
    } else {
      assert whole[|received| - 1] == received[|received| - 1];
      AboveAbove(log, after, resume);
      OnlyTheRestIsAbove(received, rest);
      if CutsABatch(received, rest) {
        CutLosesOne(rest, resume);
      } else {
        AboveOfHigher(rest, resume);
      }
    }
  }

  /** Above the last revision received lie only events not received. */
  lemma OnlyTheRestIsAbove(received: seq<Event>, rest: seq<Event>)
    requires received != [] && Ordered(received + rest)
    ensures var resume := received[|received| - 1].revision;
            && Above(received + rest, resume) == Above(rest, resume)
            && (!CutsABatch(received, rest) ==> forall i :: 0 <= i < |rest| ==> rest[i].revision > resume)
  {
    var whole, n, resume := received + rest, |received|, received[|received| - 1].revision;
    assert whole[n - 1] == received[n - 1];
    AboveConcat(received, rest, resume);
    forall i | 0 <= i < n
      ensures received[i].revision <= resume
    {
      assert received[i] == whole[i];
    }
    AboveNothing(received, resume);
    forall i | 0 <= i < |rest|
      ensures rest[i].revision >= rest[0].revision >= resume
    {
      assert rest[i] == whole[n + i] && rest[0] == whole[n];
    }
  }

  lemma CutLosesOne(rest: seq<Event>, resume: nat)
    requires rest != [] && rest[0].revision == resume
    ensures |Above(rest, resume)| < |rest|
  {
    assert rest == [rest[0]] + rest[1..];
    AboveConcat([rest[0]], rest[1..], resume);
    assert Above([rest[0]], resume) == [];
    AboveLength(rest[1..], resume);
  }

  lemma {:induction false} StrictAbove(log: seq<Event>, after: nat)
    requires forall i, j :: 0 <= i < j < |log| ==> log[i].revision < log[j].revision
    ensures forall i, j :: 0 <= i < j < |Above(log, after)| ==>
            Above(log, after)[i].revision < Above(log, after)[j].revision
    ensures forall i :: 0 <= i < |Above(log, after)| ==> Above(log, after)[i].revision <= log[|log| - 1].revision
  {
    if log != [] {
      StrictAbove(log[..|log| - 1], after);
    }
  }

  lemma SingletonBatchesAreNeverCut(log: seq<Event>, after: nat, received: seq<Event>, rest: seq<Event>)
    requires forall i, j :: 0 <= i < j < |log| ==> log[i].revision < log[j].revision
    requires Above(log, after) == received + rest
    ensures !CutsABatch(received, rest)
  {
    StrictAbove(log, after);
    var whole := received + rest;
    if received != [] && rest != [] {
      assert whole[|received| - 1].revision < whole[|received|].revision;
    }
  }

  /** With at most one event per commit, draining a closed stream and resuming
      either reports the cursor expired or continues exactly. */
  lemma ResumeIsSeamless(b: Bus, id: nat, newID: nat, cursor: string)
    requires Consistent(b) && id in b.subscribers && newID !in b.subscribers
    requires forall i, j :: 0 <= i < j < |b.log| ==> b.log[i].revision < b.log[j].revision
    requires !b.subscribers[id].live && b.subscribers[id].queue == []
    requires ParseCursor(cursor) == Some(ResumePoint(b.subscribers[id].after, b.subscribers[id].sent))
    ensures var (b', error) := Subscribe(b, newID, cursor);
            error == Some(CursorExpired)
            || (error == None
                && b.subscribers[id].sent + b'.subscribers[newID].sent == Above(b.log, b.subscribers[id].after))
  {
    var sub := b.subscribers[id];
    var resume := ResumePoint(sub.after, sub.sent);
    if b.trimmedUpTo <= resume {
      assert StreamAgrees(sub, b.log) && Ordered(b.log);
      AcceptedCursorMissesNothing(b, resume);
      hide Consistent, FloorCoversEvicted;
      DrainedContinues(sub, b.log);
    }
  }

  lemma DrainedContinues(sub: Subscriber, log: seq<Event>)
    requires StreamAgrees(sub, log) && Ordered(log)
    requires forall i, j :: 0 <= i < j < |log| ==> log[i].revision < log[j].revision
    ensures sub.sent + Above(log, ResumePoint(sub.after, sub.sent)) == Above(log, sub.after)
  {
    hide Above, Ordered;
    RestOf(sub.sent, Above(log, sub.after));
    UncutContinues(log, sub.after, sub.sent, Above(log, sub.after)[|sub.sent|..]);
  }

  lemma RestOf(sent: seq<Event>, whole: seq<Event>)
    requires sent <= whole
    ensures whole == sent + whole[|sent|..]
  {
  }

  lemma UncutContinues(log: seq<Event>, after: nat, sent: seq<Event>, rest: seq<Event>)
    requires Ordered(log) && Above(log, after) == sent + rest
    requires forall i, j :: 0 <= i < j < |log| ==> log[i].revision < log[j].revision
    ensures sent + Above(log, ResumePoint(after, sent)) == Above(log, after)
  {
    hide Above, CutsABatch, Ordered;
    SingletonBatchesAreNeverCut(log, after, sent, rest);
    ResumeContinuesExactly(log, after, sent, rest);
  }
}
