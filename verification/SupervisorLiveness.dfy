/** Why a claimed record is always finalized: over any schedule that goes on
    serving the party that claimed it, that party closes `done`. */
module SupervisorLiveness {
  import opened Results
  import opened Supervisor
  import opened SupervisorSafety

  /* ---------- Schedules ---------- */

  type Schedule = nat -> Move

  /** The system after `n` moves of a schedule; a `Stop` called before `Start`
      has returned nil is not made. */
  function RunTo(s: Sys, sched: Schedule, n: nat): Sys {
    if n == 0 then s
    else
      var before := RunTo(s, sched, n - 1);
      if Permitted(before, sched(n - 1)) then Next(before, sched(n - 1)) else before
  }

  lemma Advance(s: Sys, sched: Schedule, n: nat)
    requires Permitted(RunTo(s, sched, n), sched(n))
    ensures RunTo(s, sched, n + 1) == Next(RunTo(s, sched, n), sched(n))
  {
  }

  lemma {:induction false} RunIsSafe(s: Sys, sched: Schedule, n: nat)
    requires Inv(s)
    ensures Inv(RunTo(s, sched, n))
  {
    if n > 0 {
      RunIsSafe(s, sched, n - 1);
      var before := RunTo(s, sched, n - 1);
      if Permitted(before, sched(n - 1)) {
        MoveKeeps(before, sched(n - 1));
      }
    }
  }

  /* ---------- The claiming Stop ---------- */

  /** Distance from finalizing: a stage, then the polls a bounded wait has left. */
  function StopStage(pc: StopPc): nat {
    match pc
    case SendTerm => 24
    case UnlockTerm => 23
    case UnlockTermFailed => 22
    case GraceWait(_) => 21
    case LockNote(inGrace) => if inGrace then 20 else 12
    case UnlockNote(inGrace) => if inGrace then 19 else 11
    case LockSecond(_) => 18
    case CheckClosed(_) => 17
    case SendKill => 16
    case UnlockKillFailed => 15
    case UnlockSecond => 14
    case ExitWait(_) => 13
    case LockReap => 10
    case CheckReap => 9
    case ReapLeader => 8
    case UnlockReap(_) => 7
    case Forget(_) => 6
    case GroupWait(_, _) => 5
    case WriteResult(_) => 2
    case CloseDone(_) => 1
    case _ => 0
  }

  function StopPolls(pc: StopPc): nat {
    if pc.GraceWait? || pc.ExitWait? || pc.GroupWait? then pc.polls else 0
  }

  predicate Nearer(pc: StopPc, pc': StopPc) {
    StopStage(pc') < StopStage(pc) || (StopStage(pc') == StopStage(pc) && StopPolls(pc') < StopPolls(pc))
  }

  predicate WaitsForMutex(pc: StopPc) {
    pc.LockNote? || pc.LockSecond? || pc.LockReap?
  }

  lemma ProgressToReap(core: Core, mu: Option<Actor>, members: nat, me: Actor, pc: StopPc, c: Choice)
    requires StopClaims(pc) && !Finalizing(pc) && StopPhase(core, me, pc)
    ensures var e := StopEffect(core, mu, members, me, pc, c);
            Nearer(pc, e.pc) || (WaitsForMutex(pc) && mu.Some? && e == Effect(core, mu, pc))
  {
  }

  lemma ProgressToReturn(core: Core, mu: Option<Actor>, members: nat, me: Actor, pc: StopPc, c: Choice)
    requires Finalizing(pc) && !pc.Returned?
    ensures Nearer(pc, StopEffect(core, mu, members, me, pc, c).pc)
  {
  }

  /** Every statement a claiming call makes brings it nearer to finalizing; only
      another party's critical section can hold it up, and only where it locks. */
  lemma ProgressAlone(core: Core, mu: Option<Actor>, members: nat, me: Actor, pc: StopPc, c: Choice)
    requires StopClaims(pc) && !pc.Returned? && StopPhase(core, me, pc)
    ensures var e := StopEffect(core, mu, members, me, pc, c);
            Nearer(pc, e.pc) || (WaitsForMutex(pc) && mu.Some? && e == Effect(core, mu, pc))
  {
    if Finalizing(pc) {
      ProgressToReturn(core, mu, members, me, pc, c);
    } else {
      ProgressToReap(core, mu, members, me, pc, c);
    }
  }

  ghost predicate Claiming(s: Sys, id: nat) {
    Safe(s) && Inv(s) && id in s.stops && StopClaims(s.stops[id])
  }

  /** The move is a statement of this call, and no critical section holds it up. */
  predicate ServesStop(s: Sys, id: nat, move: Move) {
    move.StopStep? && move.id == id && id in s.stops && !(WaitsForMutex(s.stops[id]) && s.mu.Some?)
  }

  lemma OthersLeaveStop(s: Sys, id: nat, move: Move)
    requires id in s.stops && !(move.StopStep? && move.id == id)
    ensures id in Next(s, move).stops && Next(s, move).stops[id] == s.stops[id]
  {
    hide StopEffect, NaturalEffect;
  }

  lemma ClaimingIsPhased(s: Sys, id: nat)
    requires Claiming(s, id)
    ensures StopPhase(s.core, Stopper(id), s.stops[id])
  {
    assert s.claimer == Some(Stopper(id));
  }

  lemma StaysSafe(s: Sys)
    requires Inv(s) && s.stops != map[]
    ensures Safe(s)
  {
  }

  lemma ClaimerMoves(s: Sys, id: nat, move: Move)
    requires Claiming(s, id) && Permitted(s, move)
    ensures Claiming(Next(s, move), id)
    ensures var pc, pc' := s.stops[id], Next(s, move).stops[id];
            && (pc' == pc || Nearer(pc, pc'))
            && (!pc.Returned? && ServesStop(s, id, move) ==> Nearer(pc, pc'))
  {
    MoveKeeps(s, move);
    ClaimingIsPhased(s, id);
    hide Safe, Inv, StopEffect, StopPhase, Nearer;
    if move.StopStep? && move.id == id {
      var pc, c := s.stops[id], move.choice;
      var e := StopEffect(s.core, s.mu, s.members, Stopper(id), pc, c);
      assert Next(s, move) == StepStop(s, id, c) && Next(s, move).stops[id] == e.pc;
      ClaimerPhase(s.core, s.mu, s.members, Stopper(id), pc, c, e);
      if !pc.Returned? {
        ProgressAlone(s.core, s.mu, s.members, Stopper(id), pc, c);
      } else {
        ReturnedStays(s.core, s.mu, s.members, Stopper(id), pc, c);
      }
    } else {
      OthersLeaveStop(s, id, move);
    }
    hide Next;
    StaysSafe(Next(s, move));
  }

  lemma ReturnedStays(core: Core, mu: Option<Actor>, members: nat, me: Actor, pc: StopPc, c: Choice)
    requires pc.Returned?
    ensures StopEffect(core, mu, members, me, pc, c).pc == pc
  {
  }

  /** From the `n`-th move on, the call is served again unless it has returned. */
  ghost predicate StopServedAfter(s: Sys, sched: Schedule, id: nat, n: nat) {
    || (id in RunTo(s, sched, n).stops && RunTo(s, sched, n).stops[id].Returned?)
    || exists m: nat :: n <= m && ServesStop(RunTo(s, sched, m), id, sched(m))
  }

  ghost predicate KeepsServingStop(s: Sys, sched: Schedule, id: nat) {
    forall n: nat :: StopServedAfter(s, sched, id, n)
  }

  lemma {:induction false} NeverFarther(s: Sys, sched: Schedule, id: nat, n: nat, m: nat)
    requires n <= m && Claiming(RunTo(s, sched, n), id)
    ensures Claiming(RunTo(s, sched, m), id)
    ensures var pc, pc' := RunTo(s, sched, n).stops[id], RunTo(s, sched, m).stops[id]; pc' == pc || Nearer(pc, pc')
    decreases m - n
  {
    hide Next, Permitted, Safe, Inv, StopClaims;
    if n < m {
      NeverFarther(s, sched, id, n, m - 1);
      var before := RunTo(s, sched, m - 1);
      if Permitted(before, sched(m - 1)) {
        ClaimerMoves(before, id, sched(m - 1));
      }
    }
  }

  /** Served once more, the call has returned or is nearer to it. */
  lemma ServedOnce(s: Sys, sched: Schedule, id: nat, n: nat) returns (m: nat)
    requires Claiming(RunTo(s, sched, n), id) && StopServedAfter(s, sched, id, n)
    ensures Claiming(RunTo(s, sched, m), id)
    ensures RunTo(s, sched, m).stops[id].Returned? || Nearer(RunTo(s, sched, n).stops[id], RunTo(s, sched, m).stops[id])
  {
    hide Next, RunTo, Safe, Inv;
    if RunTo(s, sched, n).stops[id].Returned? {
      return n;
    }
    var k: nat :| n <= k && ServesStop(RunTo(s, sched, k), id, sched(k));
    NeverFarther(s, sched, id, n, k);
    if RunTo(s, sched, k).stops[id].Returned? {
      return k;
    }
    ClaimerMoves(RunTo(s, sched, k), id, sched(k));
    Advance(s, sched, k);
    m := k + 1;
  }

  lemma {:induction false} FinalizesFrom(s: Sys, sched: Schedule, id: nat, n: nat) returns (m: nat)
    requires Claiming(RunTo(s, sched, n), id) && KeepsServingStop(s, sched, id)
    ensures Claiming(RunTo(s, sched, m), id) && RunTo(s, sched, m).stops[id].Returned?
    decreases StopStage(RunTo(s, sched, n).stops[id]), StopPolls(RunTo(s, sched, n).stops[id])
  {
    hide Next, RunTo, Safe, Inv;
    assert StopServedAfter(s, sched, id, n);
    m := ServedOnce(s, sched, id, n);
    if !RunTo(s, sched, m).stops[id].Returned? {
      m := FinalizesFrom(s, sched, id, m);
    }
  }

  /** THE liveness theorem: a `Stop` that claimed the record finalizes it on every
      path that goes on serving it. It returns the verdict it recorded, and
      `done` is closed, once. */
  lemma ClaimingStopFinalizes(moves: seq<Move>, id: nat, sched: Schedule) returns (m: nat)
    requires id in SysAfter(moves).stops && StopClaims(SysAfter(moves).stops[id])
    requires KeepsServingStop(SysAfter(moves), sched, id)
    ensures var s := RunTo(SysAfter(moves), sched, m);
            && id in s.stops && s.stops[id].Returned? && s.stops[id].how == Finalized
            && VerdictFacts(s, s.stops[id].verdict)
  {
    EverySysIsSafe(moves);
    var s := SysAfter(moves);
    assert RunTo(s, sched, 0) == s;
    m := FinalizesFrom(s, sched, id, 0);
    SafeVerdict(RunTo(s, sched, m), id);
  }

  /* ---------- The observer that closed the record ---------- */

  function NaturalStage(pc: NaturalPc): nat {
    match pc
    case ReapNow => 6
    case UnlockReaped(_) => 5
    case ForgetRun(_) => 4
    case WaitGroup(_, _) => 3
    case SetResult(_) => 2
    case FinishDone(_) => 1
    case _ => 0
  }

  function NaturalPolls(pc: NaturalPc): nat {
    if pc.WaitGroup? then pc.polls else 0
  }

  predicate NaturalNearer(pc: NaturalPc, pc': NaturalPc) {
    NaturalStage(pc') < NaturalStage(pc)
        || (NaturalStage(pc') == NaturalStage(pc) && NaturalPolls(pc') < NaturalPolls(pc))
  }

  ghost predicate Observing(s: Sys) {
    Safe(s) && Inv(s) && NaturalClaims(s.natural)
  }

  /** No statement of an observer that closed the record can be held up. */
  lemma ObserverMoves(s: Sys, move: Move)
    requires Observing(s) && Permitted(s, move)
    ensures Observing(Next(s, move))
    ensures var pc, pc' := s.natural, Next(s, move).natural;
            && (pc' == pc || NaturalNearer(pc, pc'))
            && (!pc.Finished? && move.NaturalStep? ==> NaturalNearer(pc, pc'))
  {
    MoveKeeps(s, move);
    assert NaturalFacts(s.core, s.natural);
    if move.NaturalStep? {
      ObserverStatement(s.core, s.mu, s.members, s.natural, move.choice);
    }
  }

  ghost predicate ObserverServedAfter(s: Sys, sched: Schedule, n: nat) {
    RunTo(s, sched, n).natural.Finished? || exists m: nat :: n <= m && sched(m).NaturalStep?
  }

  ghost predicate KeepsServingObserver(s: Sys, sched: Schedule) {
    forall n: nat :: ObserverServedAfter(s, sched, n)
  }

  lemma {:induction false} ObserverNeverFarther(s: Sys, sched: Schedule, n: nat, m: nat)
    requires n <= m && Observing(RunTo(s, sched, n))
    ensures Observing(RunTo(s, sched, m))
    ensures var pc, pc' := RunTo(s, sched, n).natural, RunTo(s, sched, m).natural; pc' == pc || NaturalNearer(pc, pc')
    decreases m - n
  {
    hide Next, Permitted, Safe, Inv, NaturalClaims;
    if n < m {
      ObserverNeverFarther(s, sched, n, m - 1);
      var before := RunTo(s, sched, m - 1);
      if Permitted(before, sched(m - 1)) {
        ObserverMoves(before, sched(m - 1));
      }
    }
  }

  lemma ObserverServedOnce(s: Sys, sched: Schedule, n: nat) returns (m: nat)
    requires Observing(RunTo(s, sched, n)) && ObserverServedAfter(s, sched, n)
    ensures Observing(RunTo(s, sched, m))
    ensures RunTo(s, sched, m).natural.Finished?
            || NaturalNearer(RunTo(s, sched, n).natural, RunTo(s, sched, m).natural)
  {
    hide Next, RunTo, Safe, Inv;
    if RunTo(s, sched, n).natural.Finished? {
      return n;
    }
    var k: nat :| n <= k && sched(k).NaturalStep?;
    ObserverNeverFarther(s, sched, n, k);
    if RunTo(s, sched, k).natural.Finished? {
      return k;
    }
    ObserverMoves(RunTo(s, sched, k), sched(k));
    Advance(s, sched, k);
    m := k + 1;
  }

  lemma {:induction false} ObserverFinishesFrom(s: Sys, sched: Schedule, n: nat) returns (m: nat)
    requires Observing(RunTo(s, sched, n)) && KeepsServingObserver(s, sched)
    ensures Observing(RunTo(s, sched, m)) && RunTo(s, sched, m).natural.Finished?
    decreases NaturalStage(RunTo(s, sched, n).natural), NaturalPolls(RunTo(s, sched, n).natural)
  {
    assert ObserverServedAfter(s, sched, n);
    m := ObserverServedOnce(s, sched, n);
    if !RunTo(s, sched, m).natural.Finished? {
      m := ObserverFinishesFrom(s, sched, m);
    }
  }

  /** So does an observer that closed the record, whatever else happens. */
  lemma ClosingObserverFinalizes(moves: seq<Move>, sched: Schedule) returns (m: nat)
    requires NaturalClaims(SysAfter(moves).natural) && KeepsServingObserver(SysAfter(moves), sched)
    ensures var s := RunTo(SysAfter(moves), sched, m);
            s.natural.Finished? && VerdictFacts(s, s.natural.verdict)
  {
    EverySysIsSafe(moves);
    var s := SysAfter(moves);
    assert RunTo(s, sched, 0) == s;
    m := ObserverFinishesFrom(s, sched, 0);
    assert NaturalFacts(RunTo(s, sched, m).core, RunTo(s, sched, m).natural);
  }

  /* ---------- The mutex ---------- */

  /** Statements left in a critical section. */
  function StopHold(pc: StopPc): nat {
    if pc.CheckClaim? || pc.CheckClosed? || pc.CheckReap? then 3
    else if pc.SendTerm? || pc.SendKill? || pc.ReapLeader? then 2
    else if StopHolds(pc) then 1
    else 0
  }

  function NaturalHold(pc: NaturalPc): nat {
    if pc.CheckClose? then 3
    else if pc.CheckClaimed? || pc.ReapNow? then 2
    else if NaturalHolds(pc) then 1
    else 0
  }

  /** The statements its holder still makes under the mutex. */
  function Hold(s: Sys): nat {
    match s.mu
    case Some(Natural) => NaturalHold(s.natural)
    case Some(Stopper(id)) => if id in s.stops then StopHold(s.stops[id]) else 0
    case _ => 0
  }

  predicate IsStatementOf(move: Move, who: Actor) {
    match who
    case Starter => false
    case Natural => move.NaturalStep?
    case Stopper(id) => move.StopStep? && move.id == id
  }

  lemma HoldShrinks(core: Core, mu: Option<Actor>, members: nat, me: Actor, pc: StopPc, c: Choice)
    requires mu == Some(me) && StopHolds(pc) && (StopClaims(pc) ==> StopPhase(core, me, pc))
    ensures var e := StopEffect(core, mu, members, me, pc, c);
            e.mu == None || (e.mu == mu && StopHold(e.pc) < StopHold(pc))
  {
  }

  lemma NaturalHoldShrinks(core: Core, mu: Option<Actor>, members: nat, pc: NaturalPc, c: Choice)
    requires mu == Some(Natural) && NaturalHolds(pc) && NaturalPath(core, pc)
             && (NaturalClaims(pc) ==> NaturalFacts(core, pc))
    ensures var e := NaturalEffect(core, mu, members, pc, c);
            e.mu == None || (e.mu == mu && NaturalHold(e.pc) < NaturalHold(pc))
  {
  }

  /** What the mutex's holder may rely on about itself. */
  ghost predicate HolderFacts(s: Sys) {
    match s.mu
    case Some(Natural) => NaturalHolds(s.natural) && NaturalPath(s.core, s.natural)
        && (NaturalClaims(s.natural) ==> NaturalFacts(s.core, s.natural))
    case Some(Stopper(id)) =>
      id in s.stops && StopHolds(s.stops[id])
          && (StopClaims(s.stops[id]) ==> StopPhase(s.core, Stopper(id), s.stops[id]))
    case _ => s.mu == None
  }

  lemma SafeHolder(s: Sys)
    requires Safe(s)
    ensures HolderFacts(s)
  {
  }

  /** One move while a party holds the mutex: it keeps it, with no more left to
      do, or has given it up; each of its own statements leaves less to do. */
  lemma HolderMoves(s: Sys, who: Actor, move: Move)
    requires HolderFacts(s) && Exclusive(s) && s.mu == Some(who)
    ensures Next(s, move).mu == None || (Next(s, move).mu == s.mu && Hold(Next(s, move)) <= Hold(s))
    ensures IsStatementOf(move, who) ==> Next(s, move).mu == None || Hold(Next(s, move)) < Hold(s)
  {
    if move.StopStep? && move.id in s.stops {
      StopMutex(s.core, s.mu, s.members, Stopper(move.id), s.stops[move.id], move.choice);
      if who == Stopper(move.id) {
        HoldShrinks(s.core, s.mu, s.members, who, s.stops[move.id], move.choice);
      }
    } else if move.NaturalStep? {
      NaturalMutex(s.core, s.mu, s.members, s.natural, move.choice);
      if who == Natural {
        NaturalHoldShrinks(s.core, s.mu, s.members, s.natural, move.choice);
      }
    }
  }

  lemma HolderStep(s: Sys, who: Actor, move: Move)
    requires Holding(s, who) && Permitted(s, move)
    ensures Next(s, move).mu == None || (Holding(Next(s, move), who) && Hold(Next(s, move)) <= Hold(s))
    ensures IsStatementOf(move, who) ==> Next(s, move).mu == None || Hold(Next(s, move)) < Hold(s)
  {
    hide Next, Hold;
    SafeHolder(s);
    HolderMoves(s, who, move);
    MoveKeeps(s, move);
  }

  ghost predicate Holding(s: Sys, who: Actor) {
    Safe(s) && Inv(s) && s.mu == Some(who)
  }

  ghost predicate HolderServedAfter(s: Sys, sched: Schedule, who: Actor, n: nat) {
    RunTo(s, sched, n).mu != Some(who) || exists m: nat :: n <= m && IsStatementOf(sched(m), who)
  }

  /** By the `m`-th move the mutex was free once, or is held by the same party. */
  lemma {:induction false} HeldUntil(s: Sys, sched: Schedule, who: Actor, n: nat, m: nat) returns (free: Option<nat>)
    requires n <= m && Holding(RunTo(s, sched, n), who)
    ensures free.Some? ==> RunTo(s, sched, free.value).mu == None
    ensures free.None? ==> Holding(RunTo(s, sched, m), who) && Hold(RunTo(s, sched, m)) <= Hold(RunTo(s, sched, n))
    decreases m - n
  {
    hide Next, Permitted, Safe, Inv, Hold, IsStatementOf;
    free := None;
    if n < m {
      free := HeldUntil(s, sched, who, n, m - 1);
      if free.None? {
        var before := RunTo(s, sched, m - 1);
        if Permitted(before, sched(m - 1)) {
          HolderStep(before, who, sched(m - 1));
        }
        if RunTo(s, sched, m).mu == None {
          free := Some(m);
        }
      }
    }
  }

  lemma HolderServedOnce(s: Sys, sched: Schedule, who: Actor, n: nat) returns (m: nat)
    requires Holding(RunTo(s, sched, n), who) && HolderServedAfter(s, sched, who, n)
    ensures RunTo(s, sched, m).mu == None
            || (Holding(RunTo(s, sched, m), who) && Hold(RunTo(s, sched, m)) < Hold(RunTo(s, sched, n)))
  {
    hide Next, RunTo, Safe, Inv;
    var k: nat :| n <= k && IsStatementOf(sched(k), who);
    var free := HeldUntil(s, sched, who, n, k);
    if free.Some? {
      return free.value;
    }
    HolderStep(RunTo(s, sched, k), who, sched(k));
    Advance(s, sched, k);
    m := k + 1;
  }

  lemma {:induction false} ReleasesFrom(s: Sys, sched: Schedule, who: Actor, n: nat) returns (m: nat)
    requires Holding(RunTo(s, sched, n), who)
    requires forall k: nat :: HolderServedAfter(s, sched, who, k)
    ensures RunTo(s, sched, m).mu == None
    decreases Hold(RunTo(s, sched, n))
  {
    hide Next, RunTo, Safe, Inv;
    assert HolderServedAfter(s, sched, who, n);
    m := HolderServedOnce(s, sched, who, n);
    if RunTo(s, sched, m).mu.Some? {
      m := ReleasesFrom(s, sched, who, m);
    }
  }

  /** Whoever holds the mutex, any schedule that serves it until then sees the
      mutex free again, so a claimer that locks is not held up for ever. */
  lemma HeldMutexIsReleased(moves: seq<Move>, who: Actor, sched: Schedule) returns (m: nat)
    requires SysAfter(moves).mu == Some(who)
    requires forall n: nat :: HolderServedAfter(SysAfter(moves), sched, who, n)
    ensures RunTo(SysAfter(moves), sched, m).mu == None
  {
    EverySysIsSafe(moves);
    assert RunTo(SysAfter(moves), sched, 0) == SysAfter(moves);
    m := ReleasesFrom(SysAfter(moves), sched, who, 0);
  }
}
