/** What every interleaving of stops, the natural observer and the environment
    keeps. */
module SupervisorSafety {
  import opened Results
  import opened Supervisor

  /* ---------- Who holds the mutex ---------- */

  predicate StopHolds(pc: StopPc) {
    pc.CheckClaim? || pc.UnlockAwait? || pc.SendTerm? || pc.UnlockTerm? || pc.UnlockTermFailed? || pc.CheckClosed?
    || pc.UnlockNote? || pc.SendKill? || pc.UnlockKillFailed? || pc.UnlockSecond? || pc.CheckReap? || pc.ReapLeader?
       || pc.UnlockReap?
    || pc.FallbackAfterGrace? || pc.FallbackAfterReap?
  }

  predicate NaturalHolds(pc: NaturalPc) {
    pc.UnlockNoteExit? || pc.CheckClaimed? || pc.UnlockScan? || pc.UnlockLeave? || pc.CheckClose? || pc.ReapNow?
        || pc.UnlockReaped?
  }

  ghost predicate Exclusive(s: Sys) {
    && s.mu != Some(Starter)
    && (s.mu == Some(Natural) <==> NaturalHolds(s.natural))
    && (forall id :: id in s.stops ==> (s.mu == Some(Stopper(id)) <==> StopHolds(s.stops[id])))
    && (s.mu.Some? && s.mu.value.Stopper? ==> s.mu.value.id in s.stops)
  }

  /* ---------- Who has claimed the record ---------- */

  /** From the claim to the finalized return. */
  predicate StopClaims(pc: StopPc) {
    !(pc.LockClaim? || pc.CheckClaim? || pc.UnlockAwait? || pc.Await? || (pc.Returned? && pc.how != Finalized))
  }

  predicate NaturalClaims(pc: NaturalPc) {
    pc.ReapNow? || pc.UnlockReaped? || pc.ForgetRun? || pc.WaitGroup? || pc.SetResult? || pc.FinishDone? || pc.Finished?
  }

  /* ---------- What the claimer's position says ---------- */

  /** Each signal sent by the claimer, while the record was open and the leader
      not yet reaped: nothing, a SIGTERM, or a SIGTERM and then a SIGKILL. */
  ghost predicate CleanSignals(core: Core, who: Actor, least: nat, most: nat) {
    && least <= |core.sent| <= most <= 2
    && (forall i :: 0 <= i < |core.sent| ==> CleanSignal(core.sent[i], who, i))
  }

  predicate CleanSignal(sent: Sent, who: Actor, i: nat) {
    sent.from == who && !sent.closed && sent.leader != Reaped && sent.signal == if i == 0 then Term else Kill
  }

  /** Not closed, not reaped, not finalized. */
  predicate Open(core: Core) {
    !core.closed && core.reaps == [] && core.result == None && core.dones == 0 && !core.groupSeenEmpty
    && core.leader != Reaped
  }

  /** Authority closed in the critical section that is about to reap. */
  predicate Closed(core: Core) {
    core.closed && core.closedIn == Some(core.epoch) && core.reaps == [] && core.result == None && core.dones == 0
    && !core.groupSeenEmpty && core.leader == Zombie
  }

  /** Closed and reaped once, by the same party in the same critical section. */
  predicate ReapedOnce(core: Core, who: Actor, failed: bool) {
    && core.closed && |core.reaps| == 1
    && core.reaps[0].reaper == who && core.reaps[0].closedIn == Some(core.reaps[0].epoch)
    && core.closedIn == core.reaps[0].closedIn
    && (core.reaps[0].ok <==> !failed)
  }

  predicate Unfinalized(core: Core) {
    core.result == None && core.dones == 0
  }

  /** What a verdict claims: success means closed, reaped without error, and the
      group seen empty afterwards. */
  predicate Earned(core: Core, who: Actor, verdict: Verdict) {
    && (core.closed ==> |core.reaps| == 1 && ReapedOnce(core, who, !core.reaps[0].ok))
    && (!core.closed ==> core.reaps == [])
    && (verdict == Success ==> core.closed && |core.reaps| == 1 && core.reaps[0].ok && core.groupSeenEmpty)
    && verdict != Cancelled
  }

  /** How many signals a claiming call may have sent by each position. */
  function LeastSent(pc: StopPc): nat {
    if pc.SendTerm? then 0 else 1
  }

  function MostSent(pc: StopPc): nat {
    if pc.SendTerm? then 0
    else if BeforeKill(pc) then 1
    else 2
  }

  predicate BeforeKill(pc: StopPc) {
    || pc.UnlockTerm? || pc.UnlockTermFailed? || pc.GraceWait? || pc.LockSecond? || pc.CheckClosed? || pc.SendKill?
    || ((pc.LockNote? || pc.UnlockNote?) && pc.inGrace)
  }

  predicate StopPhase(core: Core, me: Actor, pc: StopPc) {
    match pc
    case SendTerm => Open(core)
    case UnlockTerm => Open(core)
    case UnlockTermFailed => Open(core)
    case GraceWait(_) => Open(core)
    case LockNote(inGrace) => Open(core) && (inGrace || core.leader == Zombie)
    case UnlockNote(inGrace) => Open(core) && (inGrace || core.leader == Zombie)
    case LockSecond(_) => Open(core)
    case CheckClosed(_) => Open(core)
    case SendKill => Open(core)
    case UnlockKillFailed => Open(core)
    case UnlockSecond => Open(core)
    case ExitWait(_) => Open(core)
    case LockReap => Open(core) && core.leader == Zombie
    case CheckReap => Open(core) && core.leader == Zombie
    case ReapLeader => Closed(core)
    case UnlockReap(failed) => ReapedOnce(core, me, failed) && Unfinalized(core)
    case Forget(failed) => ReapedOnce(core, me, failed) && Unfinalized(core)
    case GroupWait(_, failed) => ReapedOnce(core, me, failed) && Unfinalized(core)
    case WriteResult(verdict) => Earned(core, me, verdict) && Unfinalized(core)
    case CloseDone(verdict) => Earned(core, me, verdict) && core.result == Some(verdict) && core.dones == 0
    case Returned(verdict, how) =>
      how == Finalized && Earned(core, me, verdict) && core.result == Some(verdict) && core.dones == 1
    case _ => false
  }

  ghost predicate StopFacts(core: Core, me: Actor, pc: StopPc) {
    StopPhase(core, me, pc) && CleanSignals(core, me, LeastSent(pc), MostSent(pc))
  }

  predicate ScannedTwice(core: Core) {
    |core.scans| >= 2 && core.scans[|core.scans| - 1] == Absent && core.scans[|core.scans| - 2] == Absent
  }

  predicate NaturalFacts(core: Core, pc: NaturalPc) {
    ScannedTwice(core) &&
    match pc
    case ReapNow => Closed(core)
    case UnlockReaped(failed) => ReapedOnce(core, Natural, failed) && Unfinalized(core)
    case ForgetRun(failed) => ReapedOnce(core, Natural, failed) && Unfinalized(core)
    case WaitGroup(_, failed) => ReapedOnce(core, Natural, failed) && Unfinalized(core)
    case SetResult(verdict) => Earned(core, Natural, verdict) && core.closed && Unfinalized(core)
    case FinishDone(verdict) =>
      Earned(core, Natural, verdict) && core.closed && core.result == Some(verdict) && core.dones == 0
    case Finished(verdict) =>
      Earned(core, Natural, verdict) && core.closed && core.result == Some(verdict) && core.dones == 1
    case _ => false
  }

  /** The observer before it claims: past its first look the leader has exited,
      and it asks to close only after two clean scans in a row. */
  predicate NaturalPath(core: Core, pc: NaturalPc) {
    && (!(pc.NotStarted? || pc.StartFailed? || pc.Peek? || pc.Left?) ==> core.leader != Alive)
    && (pc.ScanSecond? ==> |core.scans| >= 1 && core.scans[|core.scans| - 1] == Absent)
    && (pc.LockClose? || pc.CheckClose? ==> ScannedTwice(core))
  }

  ghost predicate NoStopClaims(s: Sys, but: Option<nat>) {
    forall id :: id in s.stops && but != Some(id) ==> !StopClaims(s.stops[id])
  }

  ghost predicate ClaimIsUnique(s: Sys) {
    match s.claimer
    case None =>
      Open(s.core) && !s.core.stopClaimed && s.core.sent == [] && !NaturalClaims(s.natural) && NoStopClaims(s, None)
    case Some(Starter) => false
    case Some(Natural) =>
      s.core.closed && !s.core.stopClaimed && s.core.sent == [] && NaturalClaims(s.natural)
      && NaturalFacts(s.core, s.natural) && NoStopClaims(s, None)
    case Some(Stopper(owner)) =>
      s.core.stopClaimed && !NaturalClaims(s.natural) && owner in s.stops && StopClaims(s.stops[owner])
      && StopFacts(s.core, Stopper(owner), s.stops[owner]) && NoStopClaims(s, Some(owner))
  }

  /** Whoever learned the verdict through `done` learned the recorded one. */
  predicate AgreesWithResult(core: Core, pc: StopPc) {
    pc.Returned? && pc.how == ByDone ==> core.dones == 1 && core.result == Some(pc.verdict)
  }

  ghost predicate WaitersAgree(s: Sys) {
    && s.core.dones <= 1 && (s.core.dones > 0 ==> s.core.result.Some?)
    && forall id :: id in s.stops ==> AgreesWithResult(s.core, s.stops[id])
  }

  ghost predicate Safe(s: Sys) {
    Exclusive(s) && ClaimIsUnique(s) && NaturalPath(s.core, s.natural) && WaitersAgree(s)
  }

  /** `Start` is still watching, or it failed: no `Stop` has been called. */
  predicate Starting(s: Sys) {
    && s.stops == map[] && !Watched(s.natural)
    && s.mu == None && s.claimer == None && s.core.sent == []
    && (s.natural.NotStarted? || s.natural.SawExit? ==>
          s.core == NEW_CORE.(leader := s.core.leader) && s.core.leader != Reaped)
  }

  ghost predicate Inv(s: Sys) {
    Starting(s) || (Safe(s) && Watched(s.natural))
  }

  /* ---------- One party's statement, seen on its own ---------- */

  predicate Finalizing(pc: StopPc) {
    pc.UnlockReap? || pc.Forget? || pc.GroupWait? || pc.WriteResult? || pc.CloseDone? || pc.Returned?
  }

  lemma ClaimerPhaseBeforeReap(core: Core, mu: Option<Actor>, members: nat, me: Actor, pc: StopPc, c: Choice)
    requires StopClaims(pc) && !Finalizing(pc) && StopPhase(core, me, pc)
    ensures var e := StopEffect(core, mu, members, me, pc, c);
            StopClaims(e.pc) && StopPhase(e.core, me, e.pc)
  {
  }

  predicate Writing(pc: StopPc) {
    pc.WriteResult? || pc.CloseDone? || pc.Returned?
  }

  lemma ClaimerPhaseWaiting(core: Core, mu: Option<Actor>, members: nat, me: Actor, pc: StopPc, c: Choice)
    requires pc.GroupWait? && StopPhase(core, me, pc)
    ensures var e := StopEffect(core, mu, members, me, pc, c);
            StopClaims(e.pc) && StopPhase(e.core, me, e.pc)
  {
  }

  lemma ClaimerPhaseReaped(core: Core, mu: Option<Actor>, members: nat, me: Actor, pc: StopPc, c: Choice)
    requires (pc.UnlockReap? || pc.Forget?) && StopPhase(core, me, pc)
    ensures var e := StopEffect(core, mu, members, me, pc, c);
            StopClaims(e.pc) && StopPhase(e.core, me, e.pc)
  {
  }

  lemma ClaimerPhaseWriting(core: Core, mu: Option<Actor>, members: nat, me: Actor, pc: StopPc, c: Choice)
    requires StopClaims(pc) && Writing(pc) && StopPhase(core, me, pc)
    ensures var e := StopEffect(core, mu, members, me, pc, c);
            StopClaims(e.pc) && StopPhase(e.core, me, e.pc)
  {
  }

  lemma ClaimerPhase(core: Core, mu: Option<Actor>, members: nat, me: Actor, pc: StopPc, c: Choice, e: Effect<StopPc>)
    requires StopClaims(pc) && StopPhase(core, me, pc) && e == StopEffect(core, mu, members, me, pc, c)
    ensures StopClaims(e.pc) && StopPhase(e.core, me, e.pc)
  {
    if Writing(pc) {
      ClaimerPhaseWriting(core, mu, members, me, pc, c);
    } else if pc.GroupWait? {
      ClaimerPhaseWaiting(core, mu, members, me, pc, c);
    } else if Finalizing(pc) {
      ClaimerPhaseReaped(core, mu, members, me, pc, c);
    } else {
      ClaimerPhaseBeforeReap(core, mu, members, me, pc, c);
    }
  }

  lemma ClaimerSignals(core: Core, mu: Option<Actor>, members: nat, me: Actor, pc: StopPc, c: Choice)
    requires StopClaims(pc) && StopPhase(core, me, pc) && CleanSignals(core, me, LeastSent(pc), MostSent(pc))
    ensures var e := StopEffect(core, mu, members, me, pc, c);
            CleanSignals(e.core, me, LeastSent(e.pc), MostSent(e.pc))
  {
    var e := StopEffect(core, mu, members, me, pc, c);
    if pc.SendTerm? || pc.SendKill? {
      assert CleanSignal(e.core.sent[|core.sent|], me, |core.sent|);
    }
  }

  lemma ClaimerFrame(core: Core, mu: Option<Actor>, members: nat, me: Actor, pc: StopPc, c: Choice)
    requires StopClaims(pc)
    ensures var e := StopEffect(core, mu, members, me, pc, c);
            && e.core.scans == core.scans && e.core.stopClaimed == core.stopClaimed
            && (core.leader != Alive ==> e.core.leader != Alive)
  {
  }

  /** Once `done` is closed the claimer does nothing more. */
  lemma ClaimerStopsAtDone(core: Core, mu: Option<Actor>, members: nat, me: Actor, pc: StopPc, c: Choice)
    requires StopClaims(pc) && StopFacts(core, me, pc) && core.dones > 0
    ensures StopEffect(core, mu, members, me, pc, c) == Effect(core, mu, pc)
  {
  }

  /** How a statement may use the mutex. */
  predicate MutexStep(mu: Option<Actor>, mu': Option<Actor>, me: Actor) {
    mu' == mu || (mu == None && mu' == Some(me)) || (mu == Some(me) && mu' == None)
  }

  lemma StopMutex(core: Core, mu: Option<Actor>, members: nat, me: Actor, pc: StopPc, c: Choice)
    requires mu == Some(me) <==> StopHolds(pc)
    ensures var e := StopEffect(core, mu, members, me, pc, c);
            && MutexStep(mu, e.mu, me) && (e.mu == Some(me) <==> StopHolds(e.pc))
            && (e.core.epoch != core.epoch ==> mu == None)
  {
  }

  lemma NaturalMutex(core: Core, mu: Option<Actor>, members: nat, pc: NaturalPc, c: Choice)
    requires mu == Some(Natural) <==> NaturalHolds(pc)
    ensures var e := NaturalEffect(core, mu, members, pc, c);
            && MutexStep(mu, e.mu, Natural) && (e.mu == Some(Natural) <==> NaturalHolds(e.pc))
            && (e.core.epoch != core.epoch ==> mu == None)
  {
  }

  /** A stop call that has not claimed: it only counts a critical section, or
      claims an open record. */
  lemma BystanderStatement(core: Core, mu: Option<Actor>, members: nat, me: Actor, pc: StopPc, c: Choice)
    requires !StopClaims(pc)
    ensures var e := StopEffect(core, mu, members, me, pc, c);
            if pc.CheckClaim? && e.pc.SendTerm? then !core.closed && !core.stopClaimed
                && e.core == core.(stopClaimed := true)
            else e.core == core.(epoch := e.core.epoch) && !StopClaims(e.pc)
    ensures var e := StopEffect(core, mu, members, me, pc, c);
            AgreesWithResult(core, pc) && core.dones <= 1 ==> AgreesWithResult(core, e.pc)
  {
  }

  lemma ObserverReaping(core: Core, mu: Option<Actor>, members: nat, pc: NaturalPc, c: Choice)
    requires (pc.ReapNow? || pc.UnlockReaped? || pc.ForgetRun?) && NaturalFacts(core, pc)
    ensures var e := NaturalEffect(core, mu, members, pc, c);
            && NaturalClaims(e.pc) && NaturalFacts(e.core, e.pc) && e.core.closed
            && e.core.stopClaimed == core.stopClaimed && e.core.sent == core.sent
            && (core.leader != Alive ==> e.core.leader != Alive)
            && (core.dones > 0 ==> e == Effect(core, mu, pc))
  {
  }

  lemma ObserverWaiting(core: Core, mu: Option<Actor>, members: nat, pc: NaturalPc, c: Choice)
    requires pc.WaitGroup? && NaturalFacts(core, pc)
    ensures var e := NaturalEffect(core, mu, members, pc, c);
            && NaturalClaims(e.pc) && NaturalFacts(e.core, e.pc) && e.core.closed
            && e.core.stopClaimed == core.stopClaimed && e.core.sent == core.sent
            && (core.leader != Alive ==> e.core.leader != Alive)
            && (core.dones > 0 ==> e == Effect(core, mu, pc))
  {
  }

  lemma ObserverWriting(core: Core, mu: Option<Actor>, members: nat, pc: NaturalPc, c: Choice)
    requires (pc.SetResult? || pc.FinishDone? || pc.Finished?) && NaturalFacts(core, pc)
    ensures var e := NaturalEffect(core, mu, members, pc, c);
            && NaturalClaims(e.pc) && NaturalFacts(e.core, e.pc) && e.core.closed
            && e.core.stopClaimed == core.stopClaimed && e.core.sent == core.sent
            && (core.leader != Alive ==> e.core.leader != Alive)
            && (core.dones > 0 ==> e == Effect(core, mu, pc))
  {
  }

  lemma ObserverStatement(core: Core, mu: Option<Actor>, members: nat, pc: NaturalPc, c: Choice)
    requires NaturalClaims(pc) && NaturalFacts(core, pc)
    ensures var e := NaturalEffect(core, mu, members, pc, c);
            && NaturalClaims(e.pc) && NaturalFacts(e.core, e.pc) && e.core.closed
            && e.core.stopClaimed == core.stopClaimed && e.core.sent == core.sent
            && (core.leader != Alive ==> e.core.leader != Alive)
            && (core.dones > 0 ==> e == Effect(core, mu, pc))
  {
    if pc.ReapNow? || pc.UnlockReaped? || pc.ForgetRun? {
      ObserverReaping(core, mu, members, pc, c);
    } else if pc.WaitGroup? {
      ObserverWaiting(core, mu, members, pc, c);
    } else {
      ObserverWriting(core, mu, members, pc, c);
    }
  }

  /** The observer before it claims: it only counts sections and scans, or closes
      an open record. */
  lemma ObserverApproach(core: Core, mu: Option<Actor>, members: nat, pc: NaturalPc, c: Choice)
    requires !NaturalClaims(pc) && NaturalPath(core, pc)
    ensures var e := NaturalEffect(core, mu, members, pc, c);
            && NaturalPath(e.core, e.pc)
            && if pc.CheckClose? && e.pc.ReapNow? then
                 !core.closed && !core.stopClaimed && ScannedTwice(core) && core.leader != Alive
                     && e.core == Closing(core)
               else !NaturalClaims(e.pc) && e.core == core.(epoch := e.core.epoch, scans := e.core.scans)
  {
  }

  /** A claimer's facts do not mind others counting sections or scanning. */
  lemma FactsAreStable(core: Core, core': Core, me: Actor, pc: StopPc)
    requires StopFacts(core, me, pc)
    requires core' == core.(epoch := core'.epoch, scans := core'.scans)
    requires pc.ReapLeader? ==> core'.epoch == core.epoch
    ensures StopFacts(core', me, pc)
  {
  }

  /* ---------- The whole system ---------- */

  /** One stop call's statement changed only its own position and the mutex. */
  lemma StillExclusive(s: Sys, s': Sys, id: nat)
    requires Exclusive(s) && id in s.stops && id in s'.stops
    requires s'.stops == s.stops[id := s'.stops[id]] && s'.natural == s.natural
    requires MutexStep(s.mu, s'.mu, Stopper(id)) && (s'.mu == Some(Stopper(id)) <==> StopHolds(s'.stops[id]))
    ensures Exclusive(s')
  {
  }

  /** A call without the claim that took no claim. */
  lemma ClaimUntouched(s: Sys, s': Sys, id: nat)
    requires Safe(s) && id in s.stops && id in s'.stops && !StopClaims(s.stops[id]) && !StopClaims(s'.stops[id])
    requires s'.stops == s.stops[id := s'.stops[id]] && s'.natural == s.natural && s'.claimer == s.claimer
    requires s'.core == s.core.(epoch := s'.core.epoch) && (s'.core.epoch != s.core.epoch ==> s.mu == None)
    ensures ClaimIsUnique(s')
  {
    if s.claimer.Some? && s.claimer.value.Stopper? {
      var owner := s.claimer.value;
      FactsAreStable(s.core, s'.core, owner, s.stops[owner.id]);
    }
  }

  /** A call that claims an open record. */
  lemma ClaimTaken(s: Sys, s': Sys, id: nat)
    requires Safe(s) && id in s.stops && id in s'.stops && !StopClaims(s.stops[id]) && s'.stops[id].SendTerm?
    requires s'.stops == s.stops[id := s'.stops[id]] && s'.natural == s.natural && s'.claimer == Some(Stopper(id))
    requires !s.core.closed && !s.core.stopClaimed && s'.core == s.core.(stopClaimed := true)
    ensures ClaimIsUnique(s')
  {
  }

  lemma BystanderKeeps(s: Sys, id: nat, c: Choice)
    requires Safe(s) && id in s.stops && !StopClaims(s.stops[id])
    ensures Safe(StepStop(s, id, c))
  {
    hide StopEffect, StopPhase, CleanSignals, NaturalFacts;
    var s' := StepStop(s, id, c);
    StopMutex(s.core, s.mu, s.members, Stopper(id), s.stops[id], c);
    BystanderStatement(s.core, s.mu, s.members, Stopper(id), s.stops[id], c);
    StillExclusive(s, s', id);
    if s.stops[id].CheckClaim? && s'.stops[id].SendTerm? {
      ClaimTaken(s, s', id);
    } else {
      ClaimUntouched(s, s', id);
    }
  }

  lemma ClaimerKeeps(s: Sys, id: nat, c: Choice)
    requires Safe(s) && id in s.stops && StopClaims(s.stops[id])
    ensures Safe(StepStop(s, id, c))
  {
    hide StopEffect, CleanSignals, NaturalFacts;
    StopMutex(s.core, s.mu, s.members, Stopper(id), s.stops[id], c);
    StillExclusive(s, StepStop(s, id, c), id);
    ClaimerPhase(s.core, s.mu, s.members, Stopper(id), s.stops[id], c,
                 StopEffect(s.core, s.mu, s.members, Stopper(id), s.stops[id], c));
    ClaimerSignals(s.core, s.mu, s.members, Stopper(id), s.stops[id], c);
    ClaimerFrame(s.core, s.mu, s.members, Stopper(id), s.stops[id], c);
    if s.core.dones > 0 {
      ClaimerStopsAtDone(s.core, s.mu, s.members, Stopper(id), s.stops[id], c);
    }
  }

  lemma NaturalKeeps(s: Sys, c: Choice)
    requires Safe(s)
    ensures Safe(StepNatural(s, c))
  {
    hide NaturalEffect, StopPhase, CleanSignals;
    var s' := StepNatural(s, c);
    NaturalMutex(s.core, s.mu, s.members, s.natural, c);
    if NaturalClaims(s.natural) {
      ObserverStatement(s.core, s.mu, s.members, s.natural, c);
    } else {
      ObserverApproach(s.core, s.mu, s.members, s.natural, c);
      if s.claimer.Some? && s.claimer.value.Stopper? {
        var owner := s.claimer.value;
        FactsAreStable(s.core, s'.core, owner, s.stops[owner.id]);
      }
    }
  }

  lemma LeaderExitKeeps(s: Sys)
    requires Safe(s)
    ensures Safe(Next(s, LeaderExits))
  {
  }

  lemma GroupChangeKeeps(s: Sys, members: nat)
    requires Safe(s)
    ensures Safe(Next(s, GroupChanges(members)))
  {
  }

  lemma CallStopKeeps(s: Sys, id: nat)
    requires Safe(s) && id !in s.stops
    ensures Safe(Next(s, CallStop(id)))
  {
  }

  lemma StartKeeps(s: Sys, move: Move)
    requires Starting(s) && Permitted(s, move)
    ensures Inv(Next(s, move))
  {
  }

  lemma ObserverStaysStarted(s: Sys, c: Choice)
    requires Watched(s.natural)
    ensures Watched(StepNatural(s, c).natural)
  {
  }

  lemma StopStepKeeps(s: Sys, id: nat, c: Choice)
    requires Safe(s) && id in s.stops
    ensures Safe(StepStop(s, id, c))
  {
    hide Safe, StepStop;
    if StopClaims(s.stops[id]) {
      ClaimerKeeps(s, id, c);
    } else {
      BystanderKeeps(s, id, c);
    }
  }

  lemma MoveKeeps(s: Sys, move: Move)
    requires Inv(s) && Permitted(s, move)
    ensures Inv(Next(s, move))
  {
    if Starting(s) {
      StartKeeps(s, move);
    } else {
      hide Safe, Starting, StopEffect, NaturalEffect, StepNatural;
      match move {
        case CallStop(id) => if id !in s.stops { CallStopKeeps(s, id); }
        case StopStep(id, c) => if id in s.stops { StopStepKeeps(s, id, c); }
        case NaturalStep(c) =>
          NaturalKeeps(s, c);
          ObserverStaysStarted(s, c);
        case StartReturnsNil =>
        case FastExitSeen =>
        case FastExitReap(_) =>
        case FastExitForget =>
        case StartCannotWatch =>
        case LeaderExits => LeaderExitKeeps(s);
        case GroupChanges(members) => GroupChangeKeeps(s, members);
      }
    }
  }

  /* ---------- Whole runs ---------- */

  /** Any interleaving from the moment the record is registered; a `Stop` called
      before `Start` has returned nil is not made. */
  function SysAfter(moves: seq<Move>): Sys {
    if moves == [] then SPAWNED
    else
      var before, move := SysAfter(moves[..|moves| - 1]), moves[|moves| - 1];
      if Permitted(before, move) then Next(before, move) else before
  }

  lemma {:induction false} EverySysIsSafe(moves: seq<Move>)
    ensures Inv(SysAfter(moves)) && LeaderAccounted(SysAfter(moves).core)
  {
    if moves != [] {
      var before, move := SysAfter(moves[..|moves| - 1]), moves[|moves| - 1];
      EverySysIsSafe(moves[..|moves| - 1]);
      if Permitted(before, move) {
        MoveKeeps(before, move);
        AccountingStep(before, move);
      }
    }
  }

  /** THE signalling theorem: every signal was sent while the record was open and
      the leader unreaped, one SIGTERM and at most one SIGKILL, by one party. */
  lemma SignalsAreSafe(moves: seq<Move>)
    ensures var core := SysAfter(moves).core;
            && |core.sent| <= 2
            && (forall i :: 0 <= i < |core.sent| ==>
                  !core.sent[i].closed && core.sent[i].leader != Reaped && core.sent[i].from == core.sent[0].from
                  && core.sent[i].signal == if i == 0 then Term else Kill)
  {
    var s := SysAfter(moves);
    EverySysIsSafe(moves);
    if Safe(s) && s.claimer.Some? && s.claimer.value.Stopper? {
      var who := s.claimer.value;
      assert StopFacts(s.core, who, s.stops[who.id]);
      assert forall i :: 0 <= i < |s.core.sent| ==> CleanSignal(s.core.sent[i], who, i);
    }
  }

  /** One claim, one reap, in the critical section that closed authority; a reap
      by the observer follows two clean scans in a row. */
  predicate ReapFacts(s: Sys) {
    && |s.core.reaps| <= 1 && s.core.dones <= 1
    && (s.core.reaps != [] ==>
          s.core.closed && s.core.reaps[0].closedIn == Some(s.core.reaps[0].epoch)
          && s.claimer == Some(s.core.reaps[0].reaper)
          && (s.core.reaps[0].reaper == Natural ==> ScannedTwice(s.core)))
    && (s.core.leader == Reaped ==> s.core.reaps != [])
  }

  /** No two parties are past the claim, and no claiming call falls back to
      waiting for someone else. */
  ghost predicate ClaimFacts(s: Sys) {
    && (forall a, b :: a in s.stops && b in s.stops && StopClaims(s.stops[a]) && StopClaims(s.stops[b]) ==> a == b)
    && (forall a :: a in s.stops && StopClaims(s.stops[a]) ==> !NaturalClaims(s.natural))
    && (forall a :: a in s.stops ==> !s.stops[a].FallbackAfterGrace? && !s.stops[a].FallbackAfterReap?)
  }

  /** What a verdict reported through the record is worth. */
  predicate VerdictFacts(s: Sys, verdict: Verdict) {
    && s.core.dones == 1 && s.core.result == Some(verdict)
    && (verdict == Success ==> s.core.closed && |s.core.reaps| == 1 && s.core.reaps[0].ok && s.core.groupSeenEmpty)
  }

  lemma EarnedIsReaped(core: Core, me: Actor, pc: StopPc)
    requires StopClaims(pc) && StopPhase(core, me, pc)
    ensures |core.reaps| <= 1
    ensures core.reaps != [] ==>
              core.closed && core.reaps[0].closedIn == Some(core.reaps[0].epoch) && core.reaps[0].reaper == me
  {
  }

  /** The leader is gone only if someone reaped it. */
  predicate LeaderAccounted(core: Core) {
    core.leader == Reaped ==> core.reaps != []
  }

  lemma SafeReap(s: Sys)
    requires Safe(s) && LeaderAccounted(s.core)
    ensures ReapFacts(s)
  {
    if s.claimer.Some? && s.claimer.value.Stopper? {
      EarnedIsReaped(s.core, s.claimer.value, s.stops[s.claimer.value.id]);
    }
  }

  lemma SafeClaim(s: Sys)
    requires Safe(s)
    ensures ClaimFacts(s)
  {
    forall a | a in s.stops && StopClaims(s.stops[a])
      ensures s.claimer == Some(Stopper(a)) && StopPhase(s.core, Stopper(a), s.stops[a])
    {
    }
  }

  lemma SafeVerdict(s: Sys, id: nat)
    requires Safe(s) && id in s.stops && s.stops[id].Returned? && s.stops[id].how != GaveUp
    ensures VerdictFacts(s, s.stops[id].verdict)
  {
    if s.stops[id].how == Finalized {
      assert s.claimer == Some(Stopper(id)) && StopPhase(s.core, Stopper(id), s.stops[id]);
    } else {
      assert AgreesWithResult(s.core, s.stops[id]);
      if s.claimer.Some? && s.claimer.value.Stopper? {
        assert StopPhase(s.core, s.claimer.value, s.stops[s.claimer.value.id]);
      }
    }
  }

  lemma AccountingStep(s: Sys, move: Move)
    requires LeaderAccounted(s.core)
    ensures LeaderAccounted(Next(s, move).core)
  {
    match move {
      case StopStep(id, c) => if id in s.stops { StopAccounts(s.core, s.mu, s.members, Stopper(id), s.stops[id], c); }
      case NaturalStep(c) => NaturalAccounts(s.core, s.mu, s.members, s.natural, c);
      case _ =>
    }
  }

  lemma StopAccounts(core: Core, mu: Option<Actor>, members: nat, me: Actor, pc: StopPc, c: Choice)
    requires LeaderAccounted(core)
    ensures LeaderAccounted(StopEffect(core, mu, members, me, pc, c).core)
  {
  }

  lemma NaturalAccounts(core: Core, mu: Option<Actor>, members: nat, pc: NaturalPc, c: Choice)
    requires LeaderAccounted(core)
    ensures LeaderAccounted(NaturalEffect(core, mu, members, pc, c).core)
  {
  }

  /** THE race theorem: in every interleaving one party claims, the two fallbacks
      inside a claiming Stop are unreachable, and closing and reaping are one
      critical section. */
  lemma RaceHasOneWinner(moves: seq<Move>)
    requires Watched(SysAfter(moves).natural)
    ensures ClaimFacts(SysAfter(moves)) && ReapFacts(SysAfter(moves))
  {
    EverySysIsSafe(moves);
    SafeClaim(SysAfter(moves));
    SafeReap(SysAfter(moves));
  }

  /** Everyone who learns the verdict through `done` learns the same one, and a
      nil verdict was earned: closed, reaped without error, group seen empty. */
  lemma VerdictsAgree(moves: seq<Move>, id: nat)
    requires Watched(SysAfter(moves).natural)
    requires id in SysAfter(moves).stops && SysAfter(moves).stops[id].Returned?
             && SysAfter(moves).stops[id].how != GaveUp
    ensures VerdictFacts(SysAfter(moves), SysAfter(moves).stops[id].verdict)
  {
    EverySysIsSafe(moves);
    SafeVerdict(SysAfter(moves), id);
  }
}
