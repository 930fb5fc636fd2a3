/** The bounded observation loops the supervisor waits with. An observation
    stream gives what the i-th poll sees; `lastPoll` is the poll after which the
    deadline has passed. Each loop is what the race model's own wait statements,
    taken one poll at a time, come to. */
module Polling {
  import opened Results
  import opened Supervisor

  datatype Errno = ESRCH | EPERM | OtherErrno

  /** `groupExists`, after the leader is reaped: a refusal is a live group. */
  predicate ProbeSeesGroup(e: Option<Errno>) {
    e.None? || e.value == EPERM
  }

  /* ---------- What the polls must show ---------- */

  /** The leader's end, by exit status or because it is no longer a child, before
      any other error and by the deadline. */
  ghost predicate EndSeen(peeks: nat -> PeekResult, first: nat, lastPoll: nat) {
    exists i :: first <= i <= lastPoll && (peeks(i) == PeekResult.Exited || peeks(i) == NoChild)
      && forall j :: first <= j < i ==> peeks(j) == PeekResult.Running
  }

  /** An exit within grace and not after the caller cancelled; errors do not count. */
  ghost predicate ExitSeen(peeks: nat -> PeekResult, first: nat, lastPoll: nat, cancelledAt: Option<nat>) {
    exists i :: first <= i <= lastPoll && (cancelledAt.Some? ==> i <= cancelledAt.value)
        && peeks(i) == PeekResult.Exited
  }

  /** Some probe up to the deadline, or the one after it, finds no group. */
  ghost predicate EmptySeen(probes: nat -> Option<Errno>, first: nat, lastPoll: nat) {
    exists i :: first <= i <= lastPoll && !ProbeSeesGroup(probes(i))
  }

  /* ---------- The loops ---------- */

  method WaitLeaderExited(peeks: nat -> PeekResult, lastPoll: nat) returns (ended: bool)
    ensures ended <==> EndSeen(peeks, 0, lastPoll)
  {
    var i := 0;
    while true
      invariant 0 <= i <= lastPoll
      invariant forall j :: 0 <= j < i ==> peeks(j) == PeekResult.Running
      decreases lastPoll - i
    {
      match peeks(i) {
        case NoChild => return true;
        case PeekFailed => return false;
        case Exited => return true;
        case Running =>
      }
      if i == lastPoll {
        return false;
      }
      i := i + 1;
    }
  }

  method WaitLeaderExitedWithinGrace(
    peeks: nat -> PeekResult, lastPoll: nat, cancelledAt: Option<nat>) returns (exited: bool)
    ensures exited <==> ExitSeen(peeks, 0, lastPoll, cancelledAt)
  {
    var i := 0;
    while true
      invariant 0 <= i <= lastPoll && (cancelledAt.Some? ==> i <= cancelledAt.value)
      invariant forall j :: 0 <= j < i ==> peeks(j) != PeekResult.Exited
      decreases lastPoll - i
    {
      if peeks(i) == PeekResult.Exited {
        return true;
      }
      if i == lastPoll || cancelledAt == Some(i) {
        return false;
      }
      i := i + 1;
    }
  }

  method WaitGroupGone(probes: nat -> Option<Errno>, lastPoll: nat) returns (gone: bool)
    ensures gone <==> EmptySeen(probes, 0, lastPoll)
  {
    var i := 0;
    while ProbeSeesGroup(probes(i))
      invariant 0 <= i <= lastPoll
      invariant forall j :: 0 <= j < i ==> ProbeSeesGroup(probes(j))
      decreases lastPoll - i
    {
      if i == lastPoll {
        return false;
      }
      i := i + 1;
    }
    return true;
  }

  /** Absence needs two clean scans; an unreadable one is uncertainty, not absence. */
  method ConfirmOtherMembersAbsent(first: Scan, second: Scan) returns (confirmed: bool, uncertain: bool)
    ensures confirmed <==> first == Absent && second == Absent
    ensures uncertain <==> first == Unreadable || (first == Absent && second == Unreadable)
    ensures !(confirmed && uncertain)
  {
    if first == Unreadable {
      return false, true;
    }
    if first == Present {
      return false, false;
    }
    if second == Unreadable {
      return false, true;
    }
    return second == Absent, false;
  }

  /* ---------- The same waits in the race ---------- */

  /** What the i-th poll of a wait meets: the record as others left it, the other
      group members, and what its system call draws. */
  datatype Poll = Poll(core: Core, members: nat, choice: Choice)

  function Peeked(poll: Poll): PeekResult {
    WaitidPeek(poll.core.leader, poll.choice.fails)
  }

  predicate Waiting(pc: StopPc) {
    pc.GraceWait? || pc.ExitWait? || pc.GroupWait?
  }

  /** A `Stop` call taken through its wait statements from the i-th poll on. */
  function Through(polls: nat -> Poll, pc: StopPc, i: nat): StopPc
    decreases if Waiting(pc) then pc.polls + 1 else 0
  {
    if !Waiting(pc) then pc
    else Through(polls, StopEffect(polls(i).core, None, polls(i).members, Stopper(0), pc, polls(i).choice).pc, i + 1)
  }

  /** The grace wait goes on to lock with exactly the answer the grace loop gives. */
  lemma {:induction false} GraceWaitIsPolled(
    polls: nat -> Poll, peeks: nat -> PeekResult, cancelledAt: Option<nat>, i: nat, n: nat)
    requires forall k: nat :: peeks(k) == Peeked(polls(k))
    requires forall k: nat :: polls(k).choice.cancelled <==> cancelledAt == Some(k)
    requires cancelledAt.Some? ==> i <= cancelledAt.value
    ensures Through(polls, GraceWait(n), i) ==
            if ExitSeen(peeks, i, i + n, cancelledAt) then LockNote(true) else LockSecond(false)
    decreases n
  {
    if peeks(i) != PeekResult.Exited && n > 0 && cancelledAt != Some(i) {
      GraceWaitIsPolled(polls, peeks, cancelledAt, i + 1, n - 1);
      assert ExitSeen(peeks, i, i + n, cancelledAt) <==> ExitSeen(peeks, i + 1, i + n, cancelledAt);
    }
  }

  /** So does the exit wait: it goes on to reap, or reports recovery required. */
  lemma {:induction false} ExitWaitIsPolled(polls: nat -> Poll, peeks: nat -> PeekResult, i: nat, n: nat)
    requires forall k: nat :: peeks(k) == Peeked(polls(k))
    ensures Through(polls, ExitWait(n), i) ==
            if EndSeen(peeks, i, i + n) then LockNote(false) else WriteResult(Failure(RecoveryRequired))
    decreases n
  {
    if peeks(i) == PeekResult.Running && n > 0 {
      ExitWaitIsPolled(polls, peeks, i + 1, n - 1);
      EndSeenFromNext(peeks, i, i + n);
    }
  }

  lemma EndSeenFromNext(peeks: nat -> PeekResult, first: nat, lastPoll: nat)
    requires peeks(first) == PeekResult.Running
    ensures EndSeen(peeks, first, lastPoll) <==> EndSeen(peeks, first + 1, lastPoll)
  {
    if EndSeen(peeks, first + 1, lastPoll) {
      var k :| first + 1 <= k <= lastPoll && (peeks(k) == PeekResult.Exited || peeks(k) == NoChild)
        && forall j :: first + 1 <= j < k ==> peeks(j) == PeekResult.Running;
      assert forall j :: first <= j < k ==> peeks(j) == PeekResult.Running;
    }
  }

  /** And the group wait, whose probes see the reaped leader's group: it writes
      success if and only if the reap succeeded and a probe finds no group in time. */
  lemma {:induction false} GroupWaitIsPolled(
    polls: nat -> Poll, probes: nat -> Option<Errno>, failed: bool, i: nat, n: nat)
    requires forall k: nat :: ProbeSeesGroup(probes(k)) <==> GroupExists(polls(k).core, polls(k).members)
    ensures Through(polls, GroupWait(n, failed), i) ==
            WriteResult(if EmptySeen(probes, i, i + n) && !failed then Success else Failure(RecoveryRequired))
    decreases n
  {
    if ProbeSeesGroup(probes(i)) && n > 0 {
      GroupWaitIsPolled(polls, probes, failed, i + 1, n - 1);
      assert EmptySeen(probes, i, i + n) <==> EmptySeen(probes, i + 1, i + n);
    }
  }

  /** The observer taken through its group wait. */
  function ObserverThrough(polls: nat -> Poll, pc: NaturalPc, i: nat): NaturalPc
    decreases if pc.WaitGroup? then pc.polls + 1 else 0
  {
    if !pc.WaitGroup? then pc
    else ObserverThrough(polls, NaturalEffect(polls(i).core, None, polls(i).members, pc, polls(i).choice).pc, i + 1)
  }

  /** So does the observer's own group wait. */
  lemma {:induction false} ObserverGroupWaitIsPolled(
    polls: nat -> Poll, probes: nat -> Option<Errno>, failed: bool, i: nat, n: nat)
    requires forall k: nat :: ProbeSeesGroup(probes(k)) <==> GroupExists(polls(k).core, polls(k).members)
    ensures ObserverThrough(polls, WaitGroup(n, failed), i) ==
            SetResult(if EmptySeen(probes, i, i + n) && !failed then Success else Failure(RecoveryRequired))
    decreases n
  {
    if ProbeSeesGroup(probes(i)) && n > 0 {
      ObserverGroupWaitIsPolled(polls, probes, failed, i + 1, n - 1);
      assert EmptySeen(probes, i, i + n) <==> EmptySeen(probes, i + 1, i + n);
    }
  }

  /** What the observer does after it has looked for other members: it goes on to
      close exactly when both scans are clean, gives up exactly when the one that
      decides cannot be read, and otherwise looks again. */
  lemma ScansDecide(core: Core, mu: Option<Actor>, members: nat, c1: Choice, c2: Choice)
    ensures var one := NaturalEffect(core, mu, members, ScanFirst, c1);
            var two := NaturalEffect(one.core, mu, members, one.pc, c2);
            if c1.scan != Absent then
              one.core.scans == core.scans + [c1.scan] && one.mu == mu
              && (c1.scan == Unreadable <==> one.pc == Left) && (c1.scan == Present <==> one.pc == LockCheck)
            else
              two.core.scans == core.scans + [c1.scan, c2.scan] && two.mu == mu
              && (c2.scan == Absent <==> two.pc == LockClose)
              && (c2.scan == Unreadable <==> two.pc == Left) && (c2.scan == Present <==> two.pc == LockCheck)
  {
    assert core.scans + [c1.scan] + [c2.scan] == core.scans + [c1.scan, c2.scan];
  }
}
