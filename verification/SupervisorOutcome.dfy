/** What a finished termination means, exactly: which signals were sent and why,
    which verdict was recorded, and whether the run is still known. */
module SupervisorOutcome {
  import opened Results
  import opened Supervisor
  import opened SupervisorSafety

  /* ---------- The script of a claiming call ---------- */

  /** One SIGTERM, and whether the call that sent it failed. */
  predicate OneTerm(core: Core, failed: bool) {
    |core.sent| == 1 && core.sent[0].signal == Term && core.sent[0].failed == failed
  }

  /** A SIGTERM that was accepted, then a SIGKILL. */
  predicate Killed(core: Core, failed: bool) {
    && |core.sent| == 2 && core.sent[0].signal == Term && !core.sent[0].failed
    && core.sent[1].signal == Kill && core.sent[1].failed == failed
  }

  /** SIGKILL followed exactly if the grace wait saw no exit. */
  predicate Escalated(core: Core) {
    match core.exitInGrace
    case None => false
    case Some(true) => OneTerm(core, false)
    case Some(false) => Killed(core, false)
  }

  /** The leader reaped without error, and afterwards no group. */
  predicate CleanEnd(core: Core) {
    |core.reaps| == 1 && core.reaps[0].ok && core.groupSeenEmpty
  }

  /** The only verdicts, each with its one reason. */
  predicate Verdicts(core: Core, verdict: Verdict) {
    && (verdict == Success || verdict == Failure(SpawnFailed) || verdict == Failure(RecoveryRequired))
    && (verdict == Success <==> CleanEnd(core))
    && (verdict == Failure(SpawnFailed) <==> core.sent != [] && core.sent[0].failed)
  }

  /** How the signals stand once a verdict is chosen. */
  predicate Settled(core: Core) {
    || (OneTerm(core, true) && core.exitInGrace == None)
    || (Killed(core, true) && core.exitInGrace == Some(false))
    || Escalated(core)
  }

  predicate Scripted(core: Core, pc: StopPc) {
    match pc
    case SendTerm => core.sent == [] && core.exitInGrace == None
    case UnlockTerm => OneTerm(core, false) && core.exitInGrace == None
    case UnlockTermFailed => OneTerm(core, true) && core.exitInGrace == None
    case GraceWait(_) => OneTerm(core, false) && core.exitInGrace == None
    case LockNote(inGrace) => if inGrace then OneTerm(core, false) && core.exitInGrace == Some(true)
        else Escalated(core)
    case UnlockNote(inGrace) => if inGrace then OneTerm(core, false) && core.exitInGrace == Some(true)
        else Escalated(core)
    case LockSecond(exited) => OneTerm(core, false) && core.exitInGrace == Some(exited)
    case CheckClosed(exited) => OneTerm(core, false) && core.exitInGrace == Some(exited)
    case SendKill => OneTerm(core, false) && core.exitInGrace == Some(false)
    case UnlockKillFailed => Killed(core, true) && core.exitInGrace == Some(false)
    case WriteResult(verdict) => Settled(core) && Verdicts(core, verdict)
    case CloseDone(verdict) => Settled(core) && Verdicts(core, verdict)
    case Returned(verdict, _) => Settled(core) && Verdicts(core, verdict)
    case _ => Escalated(core) && !core.groupSeenEmpty
  }

  lemma ScriptToSecond(core: Core, mu: Option<Actor>, members: nat, me: Actor, pc: StopPc, c: Choice)
    requires (pc.SendTerm? || BeforeKill(pc)) && !pc.SendKill? && StopPhase(core, me, pc) && Scripted(core, pc)
    ensures var e := StopEffect(core, mu, members, me, pc, c); Scripted(e.core, e.pc)
  {
  }

  lemma ScriptToExit(core: Core, mu: Option<Actor>, members: nat, me: Actor, pc: StopPc, c: Choice)
    requires pc.SendKill? || pc.UnlockKillFailed? || pc.UnlockSecond? || pc.ExitWait?
    requires StopPhase(core, me, pc) && Scripted(core, pc)
    ensures var e := StopEffect(core, mu, members, me, pc, c); Scripted(e.core, e.pc)
  {
  }

  lemma ScriptToReap(core: Core, mu: Option<Actor>, members: nat, me: Actor, pc: StopPc, c: Choice)
    requires ((pc.LockNote? || pc.UnlockNote?) && !pc.inGrace) || pc.LockReap? || pc.CheckReap? || pc.ReapLeader?
    requires StopPhase(core, me, pc) && Scripted(core, pc)
    ensures var e := StopEffect(core, mu, members, me, pc, c); Scripted(e.core, e.pc)
  {
  }

  lemma ScriptToGroup(core: Core, mu: Option<Actor>, members: nat, me: Actor, pc: StopPc, c: Choice)
    requires (pc.UnlockReap? || pc.Forget? || pc.GroupWait?) && StopPhase(core, me, pc) && Scripted(core, pc)
    ensures var e := StopEffect(core, mu, members, me, pc, c); Scripted(e.core, e.pc)
  {
  }

  lemma ScriptToReturn(core: Core, mu: Option<Actor>, members: nat, me: Actor, pc: StopPc, c: Choice)
    requires Writing(pc) && StopPhase(core, me, pc) && Scripted(core, pc)
    ensures var e := StopEffect(core, mu, members, me, pc, c); Scripted(e.core, e.pc)
  {
  }

  /** Each statement of the claiming call follows the script. */
  lemma ClaimerFollows(core: Core, mu: Option<Actor>, members: nat, me: Actor, pc: StopPc, c: Choice)
    requires StopClaims(pc) && StopPhase(core, me, pc) && Scripted(core, pc)
    ensures var e := StopEffect(core, mu, members, me, pc, c); Scripted(e.core, e.pc)
  {
    if Writing(pc) {
      ScriptToReturn(core, mu, members, me, pc, c);
    } else if Finalizing(pc) {
      ScriptToGroup(core, mu, members, me, pc, c);
    } else if pc.SendTerm? || (BeforeKill(pc) && !pc.SendKill?) {
      ScriptToSecond(core, mu, members, me, pc, c);
    } else if pc.SendKill? || pc.UnlockKillFailed? || pc.UnlockSecond? || pc.ExitWait? {
      ScriptToExit(core, mu, members, me, pc, c);
    } else {
      assert StopPhase(core, me, pc);
      ScriptToReap(core, mu, members, me, pc, c);
    }
  }

  /* ---------- The script of the observer ---------- */

  predicate Observed(core: Core, pc: NaturalPc) {
    && core.sent == []
    && match pc
       case SetResult(verdict) => Verdicts(core, verdict)
       case FinishDone(verdict) => Verdicts(core, verdict)
       case Finished(verdict) => Verdicts(core, verdict)
       case _ => !core.groupSeenEmpty
  }

  lemma ObserverFollows(core: Core, mu: Option<Actor>, members: nat, pc: NaturalPc, c: Choice)
    requires NaturalClaims(pc) && NaturalFacts(core, pc) && Observed(core, pc)
    ensures var e := NaturalEffect(core, mu, members, pc, c); Observed(e.core, e.pc)
  {
  }

  /* ---------- Whether the run is still known ---------- */

  /** The claimer has reaped and not yet forgotten the run. */
  predicate AboutToForget(s: Sys) {
    match s.claimer
    case Some(Natural) => s.natural.UnlockReaped? || s.natural.ForgetRun?
    case Some(Stopper(id)) => id in s.stops && (s.stops[id].UnlockReap? || s.stops[id].Forget?)
    case _ => false
  }

  predicate KnownExactly(s: Sys) {
    s.registered <==> s.core.reaps == [] || AboutToForget(s)
  }

  /* ---------- The invariant ---------- */

  /** Every party is where its script says. */
  predicate OnScript(s: Sys) {
    match s.claimer
    case None => s.core.sent == [] && s.core.exitInGrace == None && !s.core.groupSeenEmpty
    case Some(Natural) => Observed(s.core, s.natural)
    case Some(Stopper(id)) => id in s.stops && Scripted(s.core, s.stops[id])
    case Some(Starter) => false
  }

  ghost predicate Tracked(s: Sys) {
    Watched(s.natural) ==> OnScript(s) && KnownExactly(s)
  }

  lemma ScriptIgnoresOthers(core: Core, core': Core, pc: StopPc)
    requires Scripted(core, pc) && core' == core.(epoch := core'.epoch, scans := core'.scans, leader := core'.leader)
    ensures Scripted(core', pc)
  {
  }

  lemma ObservedIgnoresOthers(core: Core, core': Core, pc: NaturalPc)
    requires Observed(core, pc) && core' == core.(epoch := core'.epoch, scans := core'.scans, leader := core'.leader)
    ensures Observed(core', pc)
  {
  }

  /** A call without the claim. */
  lemma BystanderTracked(s: Sys, id: nat, c: Choice)
    requires Safe(s) && Watched(s.natural) && Tracked(s) && id in s.stops && !StopClaims(s.stops[id])
    ensures Tracked(StepStop(s, id, c))
  {
    var s' := StepStop(s, id, c);
    BystanderStatement(s.core, s.mu, s.members, Stopper(id), s.stops[id], c);
    hide StopEffect, StopPhase, CleanSignals, Exclusive, NaturalFacts;
    if s.stops[id].CheckClaim? && s'.stops[id].SendTerm? {
      assert s.claimer == None;
    } else if s.claimer.Some? && s.claimer.value.Stopper? {
      ScriptIgnoresOthers(s.core, s'.core, s.stops[s.claimer.value.id]);
    } else if s.claimer.Some? {
      ObservedIgnoresOthers(s.core, s'.core, s.natural);
    }
  }

  /** The reap and the forget, as the claiming call makes them. */
  lemma ClaimerForgets(core: Core, mu: Option<Actor>, members: nat, me: Actor, pc: StopPc, c: Choice)
    requires StopClaims(pc) && StopPhase(core, me, pc)
    ensures var e := StopEffect(core, mu, members, me, pc, c);
            && (pc.Forget? ==> e.core.reaps == core.reaps && core.reaps != [] && !e.pc.Forget? && !e.pc.UnlockReap?)
            && (!pc.Forget? && (pc.UnlockReap? || e.pc.UnlockReap?) ==> e.pc.UnlockReap? || e.pc.Forget?)
            && (!pc.Forget? && !pc.UnlockReap? && !e.pc.UnlockReap? ==> e.core.reaps == core.reaps && !e.pc.Forget?)
            && (e.pc.UnlockReap? || e.pc.Forget? ==> e.core.reaps != [])
  {
  }

  lemma ClaimerTracked(s: Sys, id: nat, c: Choice)
    requires Safe(s) && Watched(s.natural) && Tracked(s) && id in s.stops && StopClaims(s.stops[id])
    ensures Tracked(StepStop(s, id, c))
  {
    assert s.claimer == Some(Stopper(id)) && StopPhase(s.core, Stopper(id), s.stops[id]);
    ClaimerFollows(s.core, s.mu, s.members, Stopper(id), s.stops[id], c);
    ClaimerForgets(s.core, s.mu, s.members, Stopper(id), s.stops[id], c);
    hide StopEffect, StopPhase, CleanSignals, Exclusive, NaturalFacts, Scripted, Safe;
  }

  lemma ObserverForgets(core: Core, mu: Option<Actor>, members: nat, pc: NaturalPc, c: Choice)
    requires NaturalClaims(pc) && NaturalFacts(core, pc)
    ensures var e := NaturalEffect(core, mu, members, pc, c);
            && (pc.ForgetRun? ==>
                  e.core.reaps == core.reaps && core.reaps != [] && !e.pc.ForgetRun? && !e.pc.UnlockReaped?)
            && (pc.UnlockReaped? || e.pc.UnlockReaped? ==> e.pc.UnlockReaped? || e.pc.ForgetRun?)
            && (!pc.ForgetRun? && !pc.UnlockReaped? && !e.pc.UnlockReaped? ==>
                  e.core.reaps == core.reaps && !e.pc.ForgetRun?)
            && (e.pc.UnlockReaped? || e.pc.ForgetRun? ==> e.core.reaps != [])
  {
  }

  lemma ObserverTracked(s: Sys, c: Choice)
    requires Safe(s) && Watched(s.natural) && Tracked(s)
    ensures Tracked(StepNatural(s, c))
  {
    var s' := StepNatural(s, c);
    if NaturalClaims(s.natural) {
      assert s.claimer == Some(Natural) && NaturalFacts(s.core, s.natural);
      ObserverFollows(s.core, s.mu, s.members, s.natural, c);
      ObserverForgets(s.core, s.mu, s.members, s.natural, c);
      hide NaturalEffect, StopPhase, CleanSignals, Exclusive, NaturalFacts, Observed, Safe;
    } else {
      ObserverApproach(s.core, s.mu, s.members, s.natural, c);
      hide NaturalEffect, StopPhase, CleanSignals, Exclusive;
      if s.claimer.Some? {
        ScriptIgnoresOthers(s.core, s'.core, s.stops[s.claimer.value.id]);
      }
    }
  }

  lemma SurroundingsTracked(s: Sys, move: Move)
    requires Safe(s) && Watched(s.natural) && Tracked(s) && (move.CallStop? || move.LeaderExits? || move.GroupChanges?)
    ensures Tracked(Next(s, move))
  {
    var s' := Next(s, move);
    hide StopPhase, CleanSignals, Exclusive, NaturalFacts, Scripted, Observed;
    if s.claimer.Some? && s.claimer.value.Stopper? {
      ScriptIgnoresOthers(s.core, s'.core, s.stops[s.claimer.value.id]);
    } else if s.claimer.Some? {
      ObservedIgnoresOthers(s.core, s'.core, s.natural);
    }
  }

  lemma StarterTracked(s: Sys, move: Move)
    requires Starting(s) && Permitted(s, move) && (s.natural.NotStarted? ==> s.registered)
    ensures Tracked(Next(s, move)) && (Next(s, move).natural.NotStarted? ==> Next(s, move).registered)
  {
  }

  lemma MoveTracked(s: Sys, move: Move)
    requires Inv(s) && Permitted(s, move) && Tracked(s) && (s.natural.NotStarted? ==> s.registered)
    ensures Tracked(Next(s, move)) && (Next(s, move).natural.NotStarted? ==> Next(s, move).registered)
  {
    if Starting(s) {
      StarterTracked(s, move);
    } else {
      MoveKeeps(s, move);
      hide Safe, Tracked, StopEffect, NaturalEffect, StepNatural;
      match move {
        case StopStep(id, c) =>
          if id in s.stops {
            if StopClaims(s.stops[id]) { ClaimerTracked(s, id, c); } else { BystanderTracked(s, id, c); }
          }
        case NaturalStep(c) =>
          ObserverTracked(s, c);
          ObserverStaysStarted(s, c);
        case CallStop(_) => SurroundingsTracked(s, move);
        case LeaderExits => SurroundingsTracked(s, move);
        case GroupChanges(_) => SurroundingsTracked(s, move);
        case _ =>
      }
    }
  }

  lemma {:induction false} EverySysIsTracked(moves: seq<Move>)
    ensures Tracked(SysAfter(moves)) && (SysAfter(moves).natural.NotStarted? ==> SysAfter(moves).registered)
  {
    hide Tracked, Inv, Next;
    if moves == [] {
      SpawnedIsTracked();
    } else {
      var before, move := SysAfter(moves[..|moves| - 1]), moves[|moves| - 1];
      EverySysIsTracked(moves[..|moves| - 1]);
      EverySysIsSafe(moves[..|moves| - 1]);
      if Permitted(before, move) {
        MoveTracked(before, move);
      }
    }
  }

  lemma SpawnedIsTracked()
    ensures Tracked(SPAWNED)
  {
  }

  /* ---------- What it means ---------- */

  /** A record is finalized only by its claimer, who is then done with it. */
  lemma FinalizedIsScripted(s: Sys)
    requires Inv(s) && Watched(s.natural) && Tracked(s) && s.core.dones > 0
    ensures s.core.result.Some? && Verdicts(s.core, s.core.result.value)
    ensures s.claimer != Some(Natural) ==> Settled(s.core)
  {
    if s.claimer.Some? && s.claimer.value.Stopper? {
      assert StopPhase(s.core, s.claimer.value, s.stops[s.claimer.value.id]);
    }
  }

  /** THE verdict theorem: in every interleaving a finalized record's result is nil
      if and only if the leader was reaped once, without error, and the group was
      seen empty; it is a failed spawn if and only if SIGTERM could not be sent;
      and otherwise recovery is required. */
  lemma VerdictIsExact(moves: seq<Move>)
    requires SysAfter(moves).core.dones > 0
    ensures var core := SysAfter(moves).core;
            && core.result.Some?
            && (core.result.value == Success <==>
                  |core.reaps| == 1 && core.reaps[0].ok && core.groupSeenEmpty)
            && (core.result.value == Failure(SpawnFailed) <==> core.sent != [] && core.sent[0].failed)
            && (core.result.value != Success && core.result.value != Failure(SpawnFailed) ==>
                  core.result.value == Failure(RecoveryRequired))
  {
    EverySysIsSafe(moves);
    EverySysIsTracked(moves);
    OnlyWatchedIsFinalized(moves);
    FinalizedIsScripted(SysAfter(moves));
  }

  lemma {:induction false} OnlyWatchedIsFinalized(moves: seq<Move>)
    ensures !Watched(SysAfter(moves).natural) ==> SysAfter(moves).core.dones == 0
  {
    hide Inv;
    if moves != [] {
      var before, move := SysAfter(moves[..|moves| - 1]), moves[|moves| - 1];
      OnlyWatchedIsFinalized(moves[..|moves| - 1]);
      EverySysIsSafe(moves[..|moves| - 1]);
      if Permitted(before, move) {
        UnwatchedStep(before, move);
      }
    }
  }

  lemma UnwatchedStep(s: Sys, move: Move)
    requires Inv(s) && Permitted(s, move) && (!Watched(s.natural) ==> s.core.dones == 0)
    ensures !Watched(Next(s, move).natural) ==> Next(s, move).core.dones == 0
  {
    if Watched(s.natural) {
      WatchedForGood(s, move);
    } else {
      assert Starting(s);
      hide StopEffect, Safe;
    }
  }

  lemma WatchedForGood(s: Sys, move: Move)
    requires Watched(s.natural)
    ensures Watched(Next(s, move).natural)
  {
    hide StopEffect;
  }

  /** THE escalation theorem: in every interleaving a finished `Stop` sent SIGKILL
      if and only if its SIGTERM was accepted and its grace wait saw no exit. */
  lemma EscalatesExactly(moves: seq<Move>, id: nat)
    requires id in SysAfter(moves).stops && SysAfter(moves).stops[id].Returned?
    requires SysAfter(moves).stops[id].how == Finalized
    ensures var core := SysAfter(moves).core;
            && 1 <= |core.sent| <= 2
            && (|core.sent| == 2 <==> !core.sent[0].failed && core.exitInGrace == Some(false))
  {
    EverySysIsSafe(moves);
    EverySysIsTracked(moves);
    var s := SysAfter(moves);
    ClaimsIsClaimer(s, id);
    assert OnScript(s) by { WatchedWithStops(s); }
    hide Inv, Tracked;
  }

  lemma ClaimsIsClaimer(s: Sys, id: nat)
    requires Inv(s) && id in s.stops && StopClaims(s.stops[id])
    ensures s.claimer == Some(Stopper(id))
  {
    hide StopPhase, CleanSignals, Exclusive, NaturalFacts;
  }

  lemma WatchedWithStops(s: Sys)
    requires Inv(s) && Tracked(s) && s.stops != map[]
    ensures OnScript(s)
  {
    hide Safe, OnScript, KnownExactly;
  }

  /** THE lookup theorem: once `Start` has returned nil a run is known to `Stop` if
      and only if its leader is unreaped, or reaped by a claimer that has yet to
      forget it; and a call that does not find it is told so. */
  lemma StopFindsRunExactly(moves: seq<Move>, id: nat)
    requires Watched(SysAfter(moves).natural) && id !in SysAfter(moves).stops
    ensures var s := SysAfter(moves);
            && (s.registered <==> s.core.reaps == [] || AboutToForget(s))
            && (s.registered ==> Next(s, CallStop(id)).stops[id] == LockClaim)
            && (!s.registered ==> Next(s, CallStop(id)).stops[id] == Returned(Failure(NotFound), GaveUp))
  {
    EverySysIsTracked(moves);
  }

  /* ---------- Those who only wait, and those nobody hinders ---------- */

  /** A `Stop` that found the record claimed returns the recorded verdict at its
      next statement once `done` is closed, and until then waits, unless its
      context is done or its timer fires. */
  lemma AwaitingStopLearns(moves: seq<Move>, id: nat, c: Choice)
    requires id in SysAfter(moves).stops && SysAfter(moves).stops[id].Await? && !c.cancelled && c.budget > 0
    ensures var s := SysAfter(moves);
            && (s.core.dones > 0 ==> s.core.result.Some?)
            && Next(s, StopStep(id, c)).stops[id] ==
               if s.core.dones > 0 then Returned(s.core.result.value, ByDone) else Await
  {
    EverySysIsSafe(moves);
    hide Next;
    AwaitStep(SysAfter(moves), id, c);
  }

  lemma AwaitStep(s: Sys, id: nat, c: Choice)
    requires id in s.stops && s.stops[id].Await? && !c.cancelled && c.budget > 0
    requires s.core.dones > 0 ==> s.core.result.Some?
    ensures Next(s, StopStep(id, c)).stops[id] ==
            if s.core.dones > 0 then Returned(s.core.result.value, ByDone) else Await
  {
  }

  /* ---------- Undisturbed runs succeed ---------- */

  /** Nothing fails, no context is done, no poll is left over, no member is seen. */
  const SMOOTH := Choice(false, false, 0, Absent)

  function ObserveOn(s: Sys, n: nat): Sys {
    if n == 0 then s else StepNatural(ObserveOn(s, n - 1), SMOOTH)
  }

  function StopOn(s: Sys, id: nat, n: nat): (s': Sys)
    requires id in s.stops
    ensures id in s'.stops
  {
    if n == 0 then s else StepStop(StopOn(s, id, n - 1), id, SMOOTH)
  }

  /** A record nobody has claimed, whose leader has exited and left no member. */
  predicate Ended(s: Sys) {
    && !s.core.closed && !s.core.stopClaimed && s.mu == None && s.core.reaps == [] && s.core.sent == []
    && s.core.result == None && s.core.dones == 0 && s.core.leader == Zombie && s.members == 0
  }

  lemma WatchesWhileAlive(s: Sys, c: Choice)
    requires s.natural.Peek? && s.core.leader == Alive && !c.fails
    ensures StepNatural(s, c) == s
  {
  }

  /** After `n` smooth statements the observer stands there. */
  predicate ObserverAt(s: Sys, n: nat, core: Core, mu: Option<Actor>, registered: bool, pc: NaturalPc) {
    ObserveOn(s, n) == s.(core := core, mu := mu, registered := registered, natural := pc,
                          claimer := ObserveOn(s, n).claimer)
  }

  predicate StopAt(s: Sys, id: nat, n: nat, core: Core, mu: Option<Actor>, registered: bool, pc: StopPc)
    requires id in s.stops
  {
    StopOn(s, id, n) == s.(core := core, mu := mu, registered := registered, stops := s.stops[id := pc],
                           claimer := StopOn(s, id, n).claimer)
  }

  lemma ObserveMore(s: Sys, n: nat, core: Core, mu: Option<Actor>, r: bool, pc: NaturalPc)
    requires ObserverAt(s, n, core, mu, r, pc) && s.members == 0
    ensures var e := NaturalEffect(core, mu, 0, pc, SMOOTH);
            ObserverAt(s, n + 1, e.core, e.mu, r && !pc.ForgetRun?, e.pc)
  {
    hide NaturalEffect;
  }

  lemma StopMore(s: Sys, id: nat, n: nat, core: Core, mu: Option<Actor>, r: bool, pc: StopPc)
    requires id in s.stops && StopAt(s, id, n, core, mu, r, pc) && s.members == 0
    ensures var e := StopEffect(core, mu, 0, Stopper(id), pc, SMOOTH);
            StopAt(s, id, n + 1, e.core, e.mu, r && !pc.Forget?, e.pc)
  {
    hide StopEffect;
  }

  lemma ObserverSeesExit(s: Sys, n: nat, core: Core, r: bool)
    requires ObserverAt(s, n, core, None, r, Peek) && core.leader == Zombie && s.members == 0
    ensures ObserverAt(s, n + 4, NextEpoch(NextEpoch(core)), Some(Natural), r, CheckClaimed)
  {
    hide ObserverAt;
    var c1 := NextEpoch(core);
    ObserveMore(s, n, core, None, r, Peek);
    ObserveMore(s, n + 1, core, None, r, LockNoteExit);
    ObserveMore(s, n + 2, c1, Some(Natural), r, UnlockNoteExit);
    ObserveMore(s, n + 3, c1, None, r, LockCheck);
  }

  lemma ObserverFindsNobody(s: Sys, n: nat, core: Core, r: bool)
    requires ObserverAt(s, n, core, Some(Natural), r, CheckClaimed) && s.members == 0
    requires !core.closed && !core.stopClaimed
    ensures ObserverAt(s, n + 4, core.(scans := core.scans + [Absent] + [Absent]), None, r, LockClose)
  {
    hide ObserverAt;
    ObserveMore(s, n, core, Some(Natural), r, CheckClaimed);
    ObserveMore(s, n + 1, core, Some(Natural), r, UnlockScan);
    ObserveMore(s, n + 2, core, None, r, ScanFirst);
    ObserveMore(s, n + 3, core.(scans := core.scans + [Absent]), None, r, ScanSecond);
  }

  lemma ObserverReapsNow(s: Sys, n: nat, core: Core, r: bool)
    requires ObserverAt(s, n, core, None, r, LockClose) && s.members == 0
    requires !core.closed && !core.stopClaimed && core.leader == Zombie
    ensures ObserverAt(s, n + 4, Reaping(Closing(NextEpoch(core)), Natural, false), None, r, ForgetRun(false))
  {
    hide ObserverAt;
    var c1 := NextEpoch(core);
    ObserveMore(s, n, core, None, r, LockClose);
    ObserveMore(s, n + 1, c1, Some(Natural), r, CheckClose);
    ObserveMore(s, n + 2, Closing(c1), Some(Natural), r, ReapNow);
    ObserveMore(s, n + 3, Reaping(Closing(c1), Natural, false), Some(Natural), r, UnlockReaped(false));
  }

  lemma ObserverReports(s: Sys, n: nat, core: Core, r: bool)
    requires ObserverAt(s, n, core, None, r, ForgetRun(false)) && core.leader == Reaped && s.members == 0
    ensures ObserverAt(s, n + 4, core.(groupSeenEmpty := true, result := Some(Success), dones := core.dones + 1),
                       None, false, Finished(Success))
  {
    hide ObserverAt;
    var seen := core.(groupSeenEmpty := true);
    ObserveMore(s, n, core, None, r, ForgetRun(false));
    ObserveMore(s, n + 1, core, None, false, WaitGroup(0, false));
    ObserveMore(s, n + 2, seen, None, false, SetResult(Success));
    ObserveMore(s, n + 3, seen.(result := Some(Success)), None, false, FinishDone(Success));
  }

  lemma ObserverScans(s: Sys, n: nat, core: Core, r: bool)
    requires ObserverAt(s, n, core, None, r, Peek) && core.leader == Zombie && s.members == 0
    requires !core.closed && !core.stopClaimed
    ensures ObserverAt(s, n + 8, NextEpoch(NextEpoch(core)).(scans := core.scans + [Absent] + [Absent]), None, r,
                       LockClose)
  {
    hide ObserverAt;
    ObserverSeesExit(s, n, core, r);
    ObserverFindsNobody(s, n + 4, NextEpoch(NextEpoch(core)), r);
  }

  lemma ObserverSettles(s: Sys, n: nat, core: Core, r: bool)
    requires ObserverAt(s, n, core, None, r, LockClose) && s.members == 0
    requires !core.closed && !core.stopClaimed && core.leader == Zombie
    ensures var reaped := Reaping(Closing(NextEpoch(core)), Natural, false);
            ObserverAt(s, n + 8,
                reaped.(groupSeenEmpty := true, result := Some(Success), dones := core.dones + 1), None,
                       false, Finished(Success))
  {
    hide ObserverAt;
    ObserverReapsNow(s, n, core, r);
    ObserverReports(s, n + 4, Reaping(Closing(NextEpoch(core)), Natural, false), r);
  }

  /** A run that ends by itself, with nobody else about, is scanned twice, reaped
      without a signal and reported as a success. */
  lemma NaturalEndSucceeds(s: Sys)
    requires s.natural.Peek? && Ended(s)
    ensures var p := ObserveOn(s, 16);
            && p.natural == Finished(Success) && p.core.result == Some(Success) && p.core.dones == 1
            && p.core.sent == [] && |p.core.reaps| == 1 && p.core.reaps[0].ok && p.core.leader == Reaped
            && p.core.scans == s.core.scans + [Absent, Absent] && !p.registered && p.mu == None
  {
    assert ObserverAt(s, 0, s.core, None, s.registered, Peek);
    hide ObserveOn, StepNatural;
    ObserverScans(s, 0, s.core, s.registered);
    var c2 := NextEpoch(NextEpoch(s.core)).(scans := s.core.scans + [Absent] + [Absent]);
    ObserverSettles(s, 8, c2, s.registered);
  }

  lemma StopTakesClaim(s: Sys, id: nat, n: nat, core: Core, r: bool)
    requires id in s.stops && StopAt(s, id, n, core, None, r, LockClaim) && s.members == 0
    requires !core.closed && !core.stopClaimed
    ensures StopAt(s, id, n + 4, Signalled(NextEpoch(core).(stopClaimed := true), Term, Stopper(id), false), None, r,
                   GraceWait(0))
  {
    hide StopAt;
    var c1 := NextEpoch(core);
    var c2 := c1.(stopClaimed := true);
    StopMore(s, id, n, core, None, r, LockClaim);
    StopMore(s, id, n + 1, c1, Some(Stopper(id)), r, CheckClaim);
    StopMore(s, id, n + 2, c2, Some(Stopper(id)), r, SendTerm);
    StopMore(s, id, n + 3, Signalled(c2, Term, Stopper(id), false), Some(Stopper(id)), r, UnlockTerm);
  }

  lemma StopSeesExit(s: Sys, id: nat, n: nat, core: Core, r: bool)
    requires id in s.stops && StopAt(s, id, n, core, None, r, GraceWait(0)) && s.members == 0
    requires core.leader == Zombie && !core.closed
    ensures StopAt(s, id, n + 3, NextEpoch(core.(exitInGrace := Some(true))), None, r, LockSecond(true))
  {
    hide StopAt;
    var c0 := core.(exitInGrace := Some(true));
    StopMore(s, id, n, core, None, r, GraceWait(0));
    StopMore(s, id, n + 1, c0, None, r, LockNote(true));
    StopMore(s, id, n + 2, NextEpoch(c0), Some(Stopper(id)), r, UnlockNote(true));
  }

  lemma StopSkipsKill(s: Sys, id: nat, n: nat, core: Core, r: bool)
    requires id in s.stops && StopAt(s, id, n, core, None, r, LockSecond(true)) && s.members == 0
    requires core.leader == Zombie && !core.closed
    ensures StopAt(s, id, n + 3, NextEpoch(core), None, r, ExitWait(0))
  {
    hide StopAt;
    var c1 := NextEpoch(core);
    StopMore(s, id, n, core, None, r, LockSecond(true));
    StopMore(s, id, n + 1, c1, Some(Stopper(id)), r, CheckClosed(true));
    StopMore(s, id, n + 2, c1, Some(Stopper(id)), r, UnlockSecond);
  }

  lemma StopConfirmsExit(s: Sys, id: nat, n: nat, core: Core, r: bool)
    requires id in s.stops && StopAt(s, id, n, core, None, r, ExitWait(0)) && s.members == 0
    requires core.leader == Zombie
    ensures StopAt(s, id, n + 3, NextEpoch(core), None, r, LockReap)
  {
    hide StopAt;
    StopMore(s, id, n, core, None, r, ExitWait(0));
    StopMore(s, id, n + 1, core, None, r, LockNote(false));
    StopMore(s, id, n + 2, NextEpoch(core), Some(Stopper(id)), r, UnlockNote(false));
  }

  lemma StopReapsNow(s: Sys, id: nat, n: nat, core: Core, r: bool)
    requires id in s.stops && StopAt(s, id, n, core, None, r, LockReap) && s.members == 0
    requires core.leader == Zombie && !core.closed
    ensures StopAt(s, id, n + 4, Reaping(Closing(NextEpoch(core)), Stopper(id), false), None, r, Forget(false))
  {
    hide StopAt;
    var c1 := NextEpoch(core);
    StopMore(s, id, n, core, None, r, LockReap);
    StopMore(s, id, n + 1, c1, Some(Stopper(id)), r, CheckReap);
    StopMore(s, id, n + 2, Closing(c1), Some(Stopper(id)), r, ReapLeader);
    StopMore(s, id, n + 3, Reaping(Closing(c1), Stopper(id), false), Some(Stopper(id)), r, UnlockReap(false));
  }

  lemma StopReports(s: Sys, id: nat, n: nat, core: Core, r: bool)
    requires id in s.stops && StopAt(s, id, n, core, None, r, Forget(false)) && s.members == 0
    requires core.leader == Reaped
    ensures StopAt(s, id, n + 4, core.(groupSeenEmpty := true, result := Some(Success), dones := core.dones + 1), None,
                   false, Returned(Success, Finalized))
  {
    hide StopAt;
    var seen := core.(groupSeenEmpty := true);
    StopMore(s, id, n, core, None, r, Forget(false));
    StopMore(s, id, n + 1, core, None, false, GroupWait(0, false));
    StopMore(s, id, n + 2, seen, None, false, WriteResult(Success));
    StopMore(s, id, n + 3, seen.(result := Some(Success)), None, false, CloseDone(Success));
  }

  lemma StopSignals(s: Sys, id: nat, n: nat, core: Core, r: bool)
    requires id in s.stops && StopAt(s, id, n, core, None, r, LockClaim) && s.members == 0
    requires core.leader == Zombie && !core.closed && !core.stopClaimed
    ensures var sent := Signalled(NextEpoch(core).(stopClaimed := true), Term, Stopper(id), false);
            var seen := NextEpoch(NextEpoch(sent.(exitInGrace := Some(true))));
            StopAt(s, id, n + 13, NextEpoch(seen), None, r, LockReap)
  {
    hide StopAt;
    var c1 := Signalled(NextEpoch(core).(stopClaimed := true), Term, Stopper(id), false);
    StopTakesClaim(s, id, n, core, r);
    StopSeesExit(s, id, n + 4, c1, r);
    var c2 := NextEpoch(c1.(exitInGrace := Some(true)));
    StopSkipsKill(s, id, n + 7, c2, r);
    StopConfirmsExit(s, id, n + 10, NextEpoch(c2), r);
  }

  lemma StopSettles(s: Sys, id: nat, n: nat, core: Core, r: bool)
    requires id in s.stops && StopAt(s, id, n, core, None, r, LockReap) && s.members == 0
    requires core.leader == Zombie && !core.closed
    ensures var reaped := Reaping(Closing(NextEpoch(core)), Stopper(id), false);
            StopAt(s, id, n + 8,
                   reaped.(groupSeenEmpty := true, result := Some(Success), dones := core.dones + 1), None, false,
                   Returned(Success, Finalized))
  {
    hide StopAt;
    StopReapsNow(s, id, n, core, r);
    StopReports(s, id, n + 4, Reaping(Closing(NextEpoch(core)), Stopper(id), false), r);
  }

  /** A lone `Stop` of a leader that exits within grace sends SIGTERM once, never
      SIGKILL, reaps once and reports success. */
  lemma GracefulStopSucceeds(s: Sys, id: nat)
    requires id in s.stops && s.stops[id].LockClaim? && Ended(s)
    ensures var p := StopOn(s, id, 21);
            && p.stops[id] == Returned(Success, Finalized) && p.core.result == Some(Success) && p.core.dones == 1
            && p.core.sent == [Sent(Term, Stopper(id), false, Zombie, false)]
            && |p.core.reaps| == 1 && p.core.reaps[0].ok && !p.registered && p.mu == None
  {
    StopStarts(s, id);
    hide StopOn, StepStop;
    StopSignals(s, id, 0, s.core, s.registered);
    var sent := Signalled(NextEpoch(s.core).(stopClaimed := true), Term, Stopper(id), false);
    StopSettles(s, id, 13, NextEpoch(NextEpoch(NextEpoch(sent.(exitInGrace := Some(true))))), s.registered);
  }

  lemma StopStarts(s: Sys, id: nat)
    requires id in s.stops && s.stops[id].LockClaim? && s.mu == None
    ensures StopAt(s, id, 0, s.core, None, s.registered, LockClaim)
  {
    assert s.stops[id := LockClaim] == s.stops;
  }
}
