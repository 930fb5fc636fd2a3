/** `Stop` calls that find the record before `Start` has returned: exactly when
    `Start`'s own reap of a fast exit can be followed by a signal. */
module SupervisorStart {
  import opened Results
  import opened Supervisor
  import opened SupervisorSafety

  /* ---------- Any interleaving at all ---------- */

  /** Every move is made, a `Stop` during `Start` included. */
  function Run(s: Sys, moves: seq<Move>): Sys
    decreases |moves|
  {
    if moves == [] then s else Run(Next(s, moves[0]), moves[1..])
  }

  predicate SignalledReaped(core: Core) {
    exists i :: 0 <= i < |core.sent| && core.sent[i].leader == Reaped
  }

  /** This call can still reach one of its two kill statements. */
  predicate CanSignal(core: Core, pc: StopPc) {
    || (!core.closed && !core.stopClaimed && (pc.LockClaim? || pc.CheckClaim?))
    || pc.SendTerm? || pc.UnlockTerm? || pc.GraceWait? || (pc.LockSecond? && !pc.exited)
    || (pc.CheckClosed? && !pc.exited && !core.closed) || pc.SendKill?
  }

  ghost predicate Armed(s: Sys) {
    exists id :: id in s.stops && CanSignal(s.core, s.stops[id])
  }

  /** A `Stop` that looks the record up now would find it open and unclaimed. */
  predicate Claimable(s: Sys) {
    s.registered && !s.core.closed && !s.core.stopClaimed
  }

  /* ---------- What holds once Start has reaped, or given up ---------- */

  predicate Dismissed(pc: NaturalPc) {
    pc.StartReaped? || pc.StartFailed?
  }

  predicate PastClose(pc: StopPc) {
    pc.ReapLeader? || pc.UnlockReap? || pc.Forget? || pc.GroupWait? || pc.WriteResult? || pc.CloseDone? || pc.Returned?
  }

  /** Only the claiming call closes the record, past its last signal. */
  predicate OwnerPlace(core: Core, pc: StopPc) {
    && !pc.FallbackAfterGrace? && !pc.FallbackAfterReap?
    && (core.closed ==> PastClose(pc)) && (pc.ReapLeader? ==> core.closed)
  }

  ghost predicate Owned(s: Sys) {
    match s.claimer
    case None => !s.core.closed && !s.core.stopClaimed && NoStopClaims(s, None)
    case Some(Stopper(owner)) =>
      s.core.stopClaimed && owner in s.stops && StopClaims(s.stops[owner]) && NoStopClaims(s, Some(owner))
      && OwnerPlace(s.core, s.stops[owner])
    case Some(_) => false
  }

  /** The race goes on without the observer, and without its promises about the
      leader. */
  ghost predicate Loose(s: Sys) {
    Exclusive(s) && Owned(s) && Dismissed(s.natural)
  }

  lemma OwnerBeforeClose(core: Core, mu: Option<Actor>, members: nat, me: Actor, pc: StopPc, c: Choice)
    requires StopClaims(pc) && !PastClose(pc) && OwnerPlace(core, pc)
    ensures var e := StopEffect(core, mu, members, me, pc, c);
            && StopClaims(e.pc) && OwnerPlace(e.core, e.pc) && e.core.stopClaimed == core.stopClaimed
            && (core.closed ==> e.core.closed)
  {
  }

  lemma OwnerAfterClose(core: Core, mu: Option<Actor>, members: nat, me: Actor, pc: StopPc, c: Choice)
    requires StopClaims(pc) && PastClose(pc) && OwnerPlace(core, pc)
    ensures var e := StopEffect(core, mu, members, me, pc, c);
            && StopClaims(e.pc) && OwnerPlace(e.core, e.pc) && e.core.stopClaimed == core.stopClaimed
            && (core.closed ==> e.core.closed)
  {
  }

  lemma OwnerStatement(core: Core, mu: Option<Actor>, members: nat, me: Actor, pc: StopPc, c: Choice)
    requires StopClaims(pc) && OwnerPlace(core, pc)
    ensures var e := StopEffect(core, mu, members, me, pc, c);
            && StopClaims(e.pc) && OwnerPlace(e.core, e.pc) && e.core.stopClaimed == core.stopClaimed
            && (core.closed ==> e.core.closed)
  {
    if PastClose(pc) {
      OwnerAfterClose(core, mu, members, me, pc, c);
    } else {
      OwnerBeforeClose(core, mu, members, me, pc, c);
    }
  }

  lemma LooseStopStep(s: Sys, id: nat, c: Choice)
    requires Loose(s) && id in s.stops
    ensures Loose(StepStop(s, id, c))
  {
    var s', pc := StepStop(s, id, c), s.stops[id];
    StopMutex(s.core, s.mu, s.members, Stopper(id), pc, c);
    StillExclusive(s, s', id);
    if StopClaims(pc) {
      OwnerStatement(s.core, s.mu, s.members, Stopper(id), pc, c);
    } else {
      BystanderStatement(s.core, s.mu, s.members, Stopper(id), pc, c);
    }
    hide StopEffect, Exclusive;
  }

  lemma LooseKeeps(s: Sys, move: Move)
    requires Loose(s)
    ensures Loose(Next(s, move))
  {
    if move.StopStep? && move.id in s.stops {
      hide Loose, StepStop;
      LooseStopStep(s, move.id, move.choice);
    }
  }

  /** Until then, and once the observer has the record, the race is as proved. */
  ghost predicate Followed(s: Sys) {
    (Safe(s) && (s.natural.NotStarted? || s.natural.SawExit?)) || Loose(s) || Watched(s.natural)
  }

  lemma WatchedStays(s: Sys, move: Move)
    requires Watched(s.natural)
    ensures Watched(Next(s, move).natural)
  {
  }

  /** `Start`'s own statements, while nothing it does depends on the others. */
  lemma StarterKeeps(s: Sys, move: Move)
    requires Safe(s) && (s.natural.NotStarted? || s.natural.SawExit?)
    requires move.StartReturnsNil? || move.FastExitSeen? || move.FastExitReap? || move.FastExitForget?
             || move.StartCannotWatch?
    ensures Followed(Next(s, move))
  {
    if s.claimer.Some? && s.claimer.value.Stopper? {
      assert StopPhase(s.core, s.claimer.value, s.stops[s.claimer.value.id]);
    }
  }

  lemma IdleObserver(s: Sys, c: Choice)
    requires !Watched(s.natural)
    ensures StepNatural(s, c) == s
  {
  }

  lemma FollowedKeeps(s: Sys, move: Move)
    requires Followed(s)
    ensures Followed(Next(s, move))
  {
    if Watched(s.natural) {
      WatchedStays(s, move);
    } else if Loose(s) {
      LooseKeeps(s, move);
    } else {
      hide Safe, Loose, StopEffect, NaturalEffect, StepNatural;
      match move {
        case CallStop(id) => if id !in s.stops { CallStopKeeps(s, id); }
        case StopStep(id, c) => if id in s.stops { StopStepKeeps(s, id, c); }
        case NaturalStep(c) => IdleObserver(s, c);
        case LeaderExits => LeaderExitKeeps(s);
        case GroupChanges(members) => GroupChangeKeeps(s, members);
        case _ => StarterKeeps(s, move);
      }
    }
  }

  lemma SpawnedIsSafe()
    ensures Safe(SPAWNED)
  {
  }

  lemma {:induction false} RunIsFollowed(s: Sys, moves: seq<Move>)
    requires Followed(s)
    ensures Followed(Run(s, moves))
    decreases |moves|
  {
    hide Followed, Next;
    if moves != [] {
      FollowedKeeps(s, moves[0]);
      RunIsFollowed(Next(s, moves[0]), moves[1..]);
    }
  }

  /** Whatever was called when, a dismissed record is loosely owned. */
  lemma DismissedIsLoose(moves: seq<Move>)
    requires Dismissed(Run(SPAWNED, moves).natural)
    ensures Loose(Run(SPAWNED, moves))
  {
    SpawnedIsSafe();
    RunIsFollowed(SPAWNED, moves);
  }

  /* ---------- Nobody armed: no signal follows ---------- */

  /** `Start` reaped the leader, and nobody can signal or still claim. */
  ghost predicate Quiet(s: Sys) {
    Dismissed(s.natural) && s.core.leader == Reaped && !Armed(s) && !Claimable(s) && !SignalledReaped(s.core)
  }

  lemma DisarmedStatement(core: Core, mu: Option<Actor>, members: nat, me: Actor, pc: StopPc, c: Choice)
    requires !CanSignal(core, pc) && core.leader == Reaped
    ensures var e := StopEffect(core, mu, members, me, pc, c);
            && e.core.sent == core.sent && e.core.leader == Reaped && !CanSignal(e.core, e.pc)
            && (core.closed ==> e.core.closed) && (core.stopClaimed ==> e.core.stopClaimed)
  {
  }

  lemma StaysDisarmed(core: Core, core': Core, pc: StopPc)
    requires !CanSignal(core, pc) && (core.closed ==> core'.closed) && (core.stopClaimed ==> core'.stopClaimed)
    ensures !CanSignal(core', pc)
  {
  }

  lemma QuietStep(s: Sys, id: nat, c: Choice)
    requires Quiet(s) && id in s.stops
    ensures Quiet(StepStop(s, id, c))
  {
    var s' := StepStop(s, id, c);
    DisarmedStatement(s.core, s.mu, s.members, Stopper(id), s.stops[id], c);
    hide StopEffect;
    forall other | other in s'.stops
      ensures !CanSignal(s'.core, s'.stops[other])
    {
      if other != id {
        StaysDisarmed(s.core, s'.core, s.stops[other]);
      }
    }
  }

  lemma QuietKeeps(s: Sys, move: Move)
    requires Quiet(s)
    ensures Quiet(Next(s, move))
  {
    if move.StopStep? && move.id in s.stops {
      QuietStep(s, move.id, move.choice);
    }
  }

  lemma {:induction false} QuietStays(s: Sys, moves: seq<Move>)
    requires Quiet(s)
    ensures !SignalledReaped(Run(s, moves).core)
    decreases |moves|
  {
    if moves != [] {
      QuietKeeps(s, moves[0]);
      QuietStays(Next(s, moves[0]), moves[1..]);
    }
  }

  /* ---------- Start did not reap: no signal follows either ---------- */

  /** Whoever reaps will have closed the record first. */
  ghost predicate Harmless(s: Sys) {
    Loose(s) && !SignalledReaped(s.core) && (s.core.leader == Reaped ==> s.core.closed)
  }

  lemma HarmlessStatement(core: Core, mu: Option<Actor>, members: nat, me: Actor, pc: StopPc, c: Choice)
    requires !SignalledReaped(core) && (core.leader == Reaped ==> core.closed)
    requires StopClaims(pc) ==> OwnerPlace(core, pc)
    ensures var e := StopEffect(core, mu, members, me, pc, c);
            !SignalledReaped(e.core) && (e.core.leader == Reaped ==> e.core.closed)
  {
    var sent := StopEffect(core, mu, members, me, pc, c).core.sent;
    assert forall i :: 0 <= i < |core.sent| ==> sent[i] == core.sent[i];
  }

  lemma HarmlessKeeps(s: Sys, move: Move)
    requires Harmless(s)
    ensures Harmless(Next(s, move))
  {
    LooseKeeps(s, move);
    if move.StopStep? && move.id in s.stops {
      HarmlessStatement(s.core, s.mu, s.members, Stopper(move.id), s.stops[move.id], move.choice);
    }
    hide Loose, StopEffect;
  }

  lemma {:induction false} HarmlessStays(s: Sys, moves: seq<Move>)
    requires Harmless(s)
    ensures !SignalledReaped(Run(s, moves).core)
    decreases |moves|
  {
    if moves != [] {
      HarmlessKeeps(s, moves[0]);
      HarmlessStays(Next(s, moves[0]), moves[1..]);
    }
  }

  /* ---------- Somebody armed: a signal can follow ---------- */

  /** A caller that gives up waiting at once. */
  const HURRY := Choice(false, true, 0, Absent)

  predicate WantsMutex(pc: StopPc) {
    pc.LockClaim? || pc.LockSecond?
  }

  /** Another call is inside the critical section this one waits for, and can
      leave it without closing the record. */
  predicate HeldBriefly(s: Sys, id: nat) {
    s.mu.Some? ==>
      && s.mu.value.Stopper? && s.mu.value.id in s.stops && s.mu.value.id != id
      && (s.stops[s.mu.value.id].CheckClaim? || s.stops[s.mu.value.id].UnlockAwait?)
  }

  /** The reaped leader, and a call on its way to a kill statement. */
  predicate Poised(s: Sys, id: nat) {
    && s.core.leader == Reaped && id in s.stops && CanSignal(s.core, s.stops[id])
    && (WantsMutex(s.stops[id]) || s.stops[id].GraceWait? ==> HeldBriefly(s, id))
    && (s.core.stopClaimed || s.stops[id].LockClaim? || s.stops[id].CheckClaim?)
    && !s.core.closed
  }

  /** Statements to the kill; a waiting call also counts the holder's. */
  function ToSignal(pc: StopPc): nat {
    match pc
    case LockClaim => 9
    case CheckClaim => 8
    case UnlockTerm => 6
    case GraceWait(_) => 5
    case LockSecond(_) => 3
    case CheckClosed(_) => 2
    case _ => 1
  }

  function ToFree(s: Sys): nat {
    if s.mu.Some? && s.mu.value.Stopper? && s.mu.value.id in s.stops then
      if s.stops[s.mu.value.id].CheckClaim? then 2 else 1
    else 0
  }

  lemma SendsNow(s: Sys, id: nat)
    requires s.core.leader == Reaped && id in s.stops && (s.stops[id].SendTerm? || s.stops[id].SendKill?)
    ensures SignalledReaped(Next(s, StopStep(id, HURRY)).core)
  {
    var core := Next(s, StopStep(id, HURRY)).core;
    assert core.sent[|s.core.sent|].leader == Reaped;
  }

  /** A poised call's own statement, when nobody holds it up. */
  lemma StepsNearer(s: Sys, id: nat)
    requires Poised(s, id) && !s.stops[id].SendTerm? && !s.stops[id].SendKill?
    requires WantsMutex(s.stops[id]) ==> s.mu == None
    ensures var s' := Next(s, StopStep(id, HURRY));
            Poised(s', id) && ToSignal(s'.stops[id]) < ToSignal(s.stops[id])
  {
  }

  /** The holder's statement: it frees the mutex, or is about to. */
  lemma HolderGivesWay(s: Sys, id: nat)
    requires Poised(s, id) && WantsMutex(s.stops[id]) && s.mu.Some?
    requires !(s.stops[s.mu.value.id].CheckClaim? && s.stops[id].LockClaim?)
    ensures var s' := Next(s, StopStep(s.mu.value.id, HURRY));
            Poised(s', id) && s'.stops[id] == s.stops[id] && ToFree(s') < ToFree(s)
  {
  }

  /** From a poised state some continuation signals the reaped leader. */
  lemma {:induction false} ReachesSignal(s: Sys, id: nat) returns (moves: seq<Move>)
    requires Poised(s, id)
    ensures SignalledReaped(Run(s, moves).core)
    decreases ToSignal(s.stops[id]), ToFree(s)
  {
    var pc := s.stops[id];
    if pc.SendTerm? || pc.SendKill? {
      SendsNow(s, id);
      moves := [StopStep(id, HURRY)];
      assert Run(s, moves) == Next(s, moves[0]);
    } else if WantsMutex(pc) && s.mu.Some? {
      var holder := s.mu.value.id;
      if s.stops[holder].CheckClaim? && pc.LockClaim? {
        moves := ReachesSignal(s, holder);
      } else {
        HolderGivesWay(s, id);
        var rest := ReachesSignal(Next(s, StopStep(holder, HURRY)), id);
        moves := [StopStep(holder, HURRY)] + rest;
        assert moves[1..] == rest;
      }
    } else {
      StepsNearer(s, id);
      var rest := ReachesSignal(Next(s, StopStep(id, HURRY)), id);
      moves := [StopStep(id, HURRY)] + rest;
      assert moves[1..] == rest;
    }
  }

  /** Whoever else holds the mutex of an armed call is only looking. */
  lemma ArmedIsPoised(s: Sys, id: nat)
    requires Loose(s) && s.core.leader == Reaped && id in s.stops && CanSignal(s.core, s.stops[id])
    ensures Poised(s, id)
  {
    if StopClaims(s.stops[id]) {
      assert s.claimer == Some(Stopper(id));
    } else {
      assert s.claimer == None;
    }
  }

  lemma {:induction false} FreshID(ids: set<nat>) returns (id: nat)
    ensures forall other :: other in ids ==> other < id
  {
    if ids == {} {
      id := 0;
    } else {
      var one :| one in ids;
      var m := FreshID(ids - {one});
      id := m + one + 1;
      assert forall other :: other in ids ==> other == one || other in ids - {one};
    }
  }

  /** No continuation whatever signals the reaped leader. */
  ghost predicate Silent(s: Sys) {
    forall after :: !SignalledReaped(Run(s, after).core)
  }

  lemma SilentEnough(s: Sys)
    requires Quiet(s) || Harmless(s)
    ensures Silent(s)
  {
    forall after
      ensures !SignalledReaped(Run(s, after).core)
    {
      if Quiet(s) {
        QuietStays(s, after);
      } else {
        HarmlessStays(s, after);
      }
    }
  }

  lemma NotSilent(s: Sys, after: seq<Move>)
    requires SignalledReaped(Run(s, after).core)
    ensures !Silent(s)
  {
  }

  lemma ArmedIsNotSilent(s: Sys)
    requires Loose(s) && s.core.leader == Reaped && Armed(s)
    ensures !Silent(s)
  {
    var id :| id in s.stops && CanSignal(s.core, s.stops[id]);
    ArmedIsPoised(s, id);
    var after := ReachesSignal(s, id);
    NotSilent(s, after);
  }

  lemma ClaimableIsNotSilent(s: Sys)
    requires Loose(s) && s.core.leader == Reaped && Claimable(s)
    ensures !Silent(s)
  {
    var id := FreshID(s.stops.Keys);
    var s1 := Next(s, CallStop(id));
    LooseKeeps(s, CallStop(id));
    assert CanSignal(s1.core, s1.stops[id]);
    ArmedIsPoised(s1, id);
    var rest := ReachesSignal(s1, id);
    var after := [CallStop(id)] + rest;
    assert after[1..] == rest;
    NotSilent(s, after);
  }

  /** THE start theorem: at any moment after `Start` reaped a fast exit or gave
      up, no continuation signals a reaped leader if and only if none was
      signalled yet and, where the leader is reaped, no call can still reach a
      kill statement and none can still claim the record. */
  lemma SilentExactly(before: seq<Move>)
    requires Dismissed(Run(SPAWNED, before).natural)
    ensures var s := Run(SPAWNED, before);
            Silent(s) <==> !SignalledReaped(s.core) && (s.core.leader == Reaped ==> !Armed(s) && !Claimable(s))
  {
    var s := Run(SPAWNED, before);
    DismissedIsLoose(before);
    if SignalledReaped(s.core) {
      NotSilent(s, []);
    } else if s.core.leader == Reaped && Armed(s) {
      ArmedIsNotSilent(s);
    } else if s.core.leader == Reaped && Claimable(s) {
      ClaimableIsNotSilent(s);
    } else {
      SilentEnough(s);
    }
  }

  lemma {:induction false} RunOn(s: Sys, moves: seq<Move>, move: Move)
    ensures Run(s, moves + [move]) == Next(Run(s, moves), move)
    decreases |moves|
  {
    hide Next;
    if moves == [] {
      assert [move][1..] == [] && moves + [move] == [move];
      assert Run(Next(s, move), []) == Next(s, move);
    } else {
      assert (moves + [move])[1..] == moves[1..] + [move];
      RunOn(Next(s, moves[0]), moves[1..], move);
    }
  }

  /** At the forget: after `Start` has reaped a fast exit and forgotten the run,
      no continuation signals the reaped leader if and only if nobody has yet
      and no `Stop` that looked the record up before can still reach a kill. */
  lemma FastExitIsSilentExactly(before: seq<Move>)
    requires Run(SPAWNED, before).natural.StartReaped? && Run(SPAWNED, before).core.leader == Reaped
    ensures var s := Run(SPAWNED, before);
            Silent(Next(s, FastExitForget)) <==> !SignalledReaped(s.core) && !Armed(s)
  {
    RunOn(SPAWNED, before, FastExitForget);
    SilentExactly(before + [FastExitForget]);
  }

  /** Between the reap and the forget: if nobody had claimed the record, a `Stop`
      still to come can signal the reaped leader, whoever called before. */
  lemma ReapOpensWindow(before: seq<Move>)
    requires Run(SPAWNED, before).natural.SawExit? && Run(SPAWNED, before).core.leader == Zombie
    requires Claimable(Run(SPAWNED, before))
    ensures !Silent(Next(Run(SPAWNED, before), FastExitReap(false)))
  {
    RunOn(SPAWNED, before, FastExitReap(false));
    SilentExactly(before + [FastExitReap(false)]);
  }

  const WINDOW := [LeaderExits, FastExitSeen, FastExitReap(false)]
  const LATE_STOP := [CallStop(0), StopStep(0, HURRY), StopStep(0, HURRY), StopStep(0, HURRY)]

  /** Such a run: nobody has called `Stop` when the leader is reaped; the first
      call then finds the record, claims it and signals the reaped leader. */
  lemma StopInWindowSignals()
    ensures Run(SPAWNED, WINDOW).stops == map[] && Run(SPAWNED, WINDOW).core.leader == Reaped
    ensures Run(Run(SPAWNED, WINDOW), LATE_STOP).core.sent == [Sent(Term, Stopper(0), false, Reaped, false)]
  {
    var s, step := Run(SPAWNED, WINDOW), StopStep(0, HURRY);
    RunThree(SPAWNED, LeaderExits, FastExitSeen, FastExitReap(false));
    assert LATE_STOP == [CallStop(0)] + [step, step, step] && LATE_STOP[1..] == [step, step, step];
    RunThree(Next(s, CallStop(0)), step, step, step);
    assert Run(s, LATE_STOP) == Run(Next(s, CallStop(0)), [step, step, step]);
  }

  lemma RunThree(s: Sys, a: Move, b: Move, c: Move)
    ensures Run(s, [a, b, c]) == Next(Next(Next(s, a), b), c)
  {
    hide Next;
    assert [a, b, c][1..] == [b, c] && [b, c][1..] == [c] && [c][1..] == [];
    assert Run(Next(Next(Next(s, a), b), c), []) == Next(Next(Next(s, a), b), c);
    assert Run(Next(Next(s, a), b), [c]) == Next(Next(Next(s, a), b), c);
    assert Run(Next(s, a), [b, c]) == Next(Next(Next(s, a), b), c);
  }

  lemma {:induction false} NobodyCalled(s: Sys, moves: seq<Move>)
    requires s.stops == map[] && s.core.sent == [] && forall k :: 0 <= k < |moves| ==> !moves[k].CallStop?
    ensures Run(s, moves).stops == map[] && Run(s, moves).core.sent == []
    decreases |moves|
  {
    if moves != [] {
      NaturalSendsNothing(s, moves[0]);
      NobodyCalled(Next(s, moves[0]), moves[1..]);
    }
  }

  lemma NaturalSendsNothing(s: Sys, move: Move)
    requires s.stops == map[] && s.core.sent == [] && !move.CallStop?
    ensures Next(s, move).stops == map[] && Next(s, move).core.sent == []
  {
  }

  /** The caller's side of it: if no `Stop` looks the record up before the forget,
      no continuation signals a reaped leader. */
  lemma NoLookupIsSilent(before: seq<Move>)
    requires Run(SPAWNED, before).natural.StartReaped? && forall k :: 0 <= k < |before| ==> !before[k].CallStop?
    ensures Silent(Next(Run(SPAWNED, before), FastExitForget))
  {
    NobodyCalled(SPAWNED, before);
    RunOn(SPAWNED, before, FastExitForget);
    SilentExactly(before + [FastExitForget]);
  }

  /** And the first that does look it up, while nobody has claimed, is armed from
      its first statement on. */
  lemma LookupArms(before: seq<Move>, id: nat)
    requires Claimable(Run(SPAWNED, before)) && id !in Run(SPAWNED, before).stops
    ensures Armed(Next(Run(SPAWNED, before), CallStop(id)))
  {
    var s := Next(Run(SPAWNED, before), CallStop(id));
    assert CanSignal(s.core, s.stops[id]);
  }
}
