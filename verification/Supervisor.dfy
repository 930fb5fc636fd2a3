/** One run record: any number of `Stop` calls race one natural-exit observer,
    statement by statement, under the record's mutex, while the leader exits and
    group members come and go. */
module Supervisor {
  import opened Results

  /* ---------- The record and its surroundings ---------- */

  datatype Leader = Alive | Zombie | Reaped

  datatype Actor = Starter | Natural | Stopper(id: nat)

  datatype Signal = Term | Kill

  /** A kill call, what held of the record and the leader as it was made, and
      whether it failed. */
  datatype Sent = Sent(signal: Signal, from: Actor, closed: bool, leader: Leader, failed: bool)

  /** A wait4 call: by whom, in which critical section, and the section in which
      signalling authority was closed. */
  datatype Reap = Reap(reaper: Actor, epoch: nat, closedIn: Option<nat>, ok: bool)

  datatype Scan = Absent | Present | Unreadable

  datatype Verdict = Success | Failure(code: ErrorCode) | Cancelled

  /** How a `Stop` call learned its verdict: by finalizing the record itself, by
      seeing `done` closed, or without either. */
  datatype How = Finalized | ByDone | GaveUp

  datatype StopPc =
    | LockClaim
    | CheckClaim
    | UnlockAwait
    | SendTerm
    | UnlockTerm
    | UnlockTermFailed
    | GraceWait(polls: nat)
    | LockNote(inGrace: bool)
    | UnlockNote(inGrace: bool)
    | LockSecond(exited: bool)
    | CheckClosed(exited: bool)
    | SendKill
    | UnlockKillFailed
    | UnlockSecond
    | ExitWait(polls: nat)
    | LockReap
    | CheckReap
    | ReapLeader
    | UnlockReap(failed: bool)
    | Forget(failed: bool)
    | GroupWait(polls: nat, failed: bool)
    | FallbackAfterGrace
    | FallbackAfterReap
    | WriteResult(verdict: Verdict)
    | CloseDone(verdict: Verdict)
    | Await
    | Returned(verdict: Verdict, how: How)

  datatype NaturalPc =
    | NotStarted
    | SawExit
    | StartReaped
    | StartFailed
    | Peek
    | LockNoteExit
    | UnlockNoteExit
    | LockCheck
    | CheckClaimed
    | UnlockScan
    | UnlockLeave
    | ScanFirst
    | ScanSecond
    | LockClose
    | CheckClose
    | ReapNow
    | UnlockReaped(failed: bool)
    | ForgetRun(failed: bool)
    | WaitGroup(polls: nat, failed: bool)
    | SetResult(verdict: Verdict)
    | FinishDone(verdict: Verdict)
    | Left
    | Finished(verdict: Verdict)

  /** The record's fields, the leader, and what has happened so far. `epoch`
      counts critical sections; `closedIn` is the one that closed authority;
      `exitInGrace` is what the claiming call's grace wait answered. */
  datatype Core = Core(
    epoch: nat, stopClaimed: bool, closed: bool, closedIn: Option<nat>, result: Option<Verdict>, dones: nat,
    leader: Leader, sent: seq<Sent>, reaps: seq<Reap>, scans: seq<Scan>, groupSeenEmpty: bool,
    exitInGrace: Option<bool>)

  /** The whole system: the record's core, its mutex, the party that claimed it,
      the supervisor's map entry, the group's other members, and where every
      party stands. */
  datatype Sys = Sys(
    core: Core, mu: Option<Actor>, claimer: Option<Actor>, registered: bool, members: nat,
    natural: NaturalPc, stops: map<nat, StopPc>)

  const NEW_CORE := Core(0, false, false, None, None, 0, Alive, [], [], [], false, None)

  /** `Start` has registered the record and is still watching for a fast exit. */
  const SPAWNED := Sys(NEW_CORE, None, None, true, 0, NotStarted, map[])

  /** What one step draws from outside: whether its system call fails, whether
      the caller's context is done, how many polls a bounded wait allows, and
      what a membership scan reports. */
  datatype Choice = Choice(fails: bool, cancelled: bool, budget: nat, scan: Scan)

  /** `Start` ends in one of three ways: it sees a fast exit, reaps it and only
      then forgets the run; it cannot observe the leader at all; or it hands the
      record to the natural observer. */
  datatype Move =
    | CallStop(id: nat)
    | StopStep(id: nat, choice: Choice)
    | NaturalStep(choice: Choice)
    | StartReturnsNil
    | FastExitSeen
    | FastExitReap(fails: bool)
    | FastExitForget
    | StartCannotWatch
    | LeaderExits
    | GroupChanges(members: nat)

  /* ---------- Observations ---------- */

  datatype PeekResult = Running | Exited | NoChild | PeekFailed

  function WaitidPeek(leader: Leader, fails: bool): PeekResult {
    if fails then PeekFailed
    else match leader case Alive => Running case Zombie => Exited case Reaped => NoChild
  }

  /** A retained zombie leader keeps its own group probe positive. */
  predicate GroupExists(core: Core, members: nat) {
    core.leader != Reaped || members > 0
  }

  function ReapVerdict(failed: bool): Verdict {
    if failed then Failure(RecoveryRequired) else Success
  }

  /* ---------- Steps ---------- */

  /** What one statement of one party does: to the record, to the mutex, and to
      its own position. */
  datatype Effect<Pc> = Effect(core: Core, mu: Option<Actor>, pc: Pc)

  function Signalled(core: Core, signal: Signal, who: Actor, failed: bool): Core {
    core.(sent := core.sent + [Sent(signal, who, core.closed, core.leader, failed)])
  }

  /** `wait4` on a leader that has exited; on a live one it would block. */
  function Reaping(core: Core, who: Actor, fails: bool): Core {
    var ok := !fails && core.leader == Zombie;
    core.(reaps := core.reaps + [Reap(who, core.epoch, core.closedIn, ok)],
          leader := if ok then Reaped else core.leader)
  }

  function Closing(core: Core): Core {
    core.(closed := true, closedIn := Some(core.epoch))
  }

  function NextEpoch(core: Core): Core {
    core.(epoch := core.epoch + 1)
  }

  function StopEffect(core: Core, mu: Option<Actor>, members: nat, me: Actor, pc: StopPc, c: Choice): Effect<StopPc> {
    match pc
    case LockClaim => if mu.Some? then Effect(core, mu, pc) else Effect(NextEpoch(core), Some(me), CheckClaim)
    case CheckClaim =>
      if core.closed || core.stopClaimed then Effect(core, mu, UnlockAwait)
      else Effect(core.(stopClaimed := true), mu, SendTerm)
    case UnlockAwait => Effect(core, None, Await)
    case SendTerm => Effect(Signalled(core, Term, me, c.fails), mu, if c.fails then UnlockTermFailed else UnlockTerm)
    case UnlockTerm => Effect(core, None, GraceWait(c.budget))
    case UnlockTermFailed => Effect(core, None, WriteResult(Failure(SpawnFailed)))
    case GraceWait(polls) =>
      if WaitidPeek(core.leader, c.fails) == PeekResult.Exited then
        Effect(core.(exitInGrace := Some(true)), mu, LockNote(true))
      else if polls == 0 || c.cancelled then Effect(core.(exitInGrace := Some(false)), mu, LockSecond(false))
      else Effect(core, mu, GraceWait(polls - 1))
    case LockNote(inGrace) =>
      if mu.Some? then Effect(core, mu, pc) else Effect(NextEpoch(core), Some(me), UnlockNote(inGrace))
    case UnlockNote(inGrace) => Effect(core, None, if inGrace then LockSecond(true) else LockReap)
    case LockSecond(exited) =>
      if mu.Some? then Effect(core, mu, pc) else Effect(NextEpoch(core), Some(me), CheckClosed(exited))
    case CheckClosed(exited) =>
      Effect(core, mu, if core.closed then FallbackAfterGrace else if exited then UnlockSecond else SendKill)
    case SendKill => Effect(Signalled(core, Kill, me, c.fails), mu, if c.fails then UnlockKillFailed else UnlockSecond)
    case UnlockKillFailed => Effect(core, None, WriteResult(Failure(RecoveryRequired)))
    case UnlockSecond => Effect(core, None, ExitWait(c.budget))
    case ExitWait(polls) =>
      (match WaitidPeek(core.leader, c.fails)
       case NoChild => Effect(core, mu, LockNote(false))
       case PeekFailed => Effect(core, mu, WriteResult(Failure(RecoveryRequired)))
       case Exited => Effect(core, mu, LockNote(false))
       case Running => Effect(core, mu, if polls == 0 then WriteResult(Failure(RecoveryRequired))
           else ExitWait(polls - 1)))
    case LockReap => if mu.Some? then Effect(core, mu, pc) else Effect(NextEpoch(core), Some(me), CheckReap)
    case CheckReap =>
      if core.closed then Effect(core, mu, FallbackAfterReap) else Effect(Closing(core), mu, ReapLeader)
    case ReapLeader =>
      if core.leader == Alive then Effect(core, mu, pc)
      else Effect(Reaping(core, me, c.fails), mu, UnlockReap(c.fails || core.leader != Zombie))
    case UnlockReap(failed) => Effect(core, None, Forget(failed))
    case Forget(failed) => Effect(core, mu, GroupWait(c.budget, failed))
    case GroupWait(polls, failed) =>
      if !GroupExists(core, members) then Effect(core.(groupSeenEmpty := true), mu, WriteResult(ReapVerdict(failed)))
      else Effect(core, mu, if polls == 0 then WriteResult(Failure(RecoveryRequired)) else GroupWait(polls - 1, failed))
    case FallbackAfterGrace => Effect(core, None, Await)
    case FallbackAfterReap => Effect(core, None, Await)
    case WriteResult(verdict) => Effect(core.(result := Some(verdict)), mu, CloseDone(verdict))
    case CloseDone(verdict) => Effect(core.(dones := core.dones + 1), mu, Returned(verdict, Finalized))
    case Await =>
      if c.cancelled then Effect(core, mu, Returned(Cancelled, GaveUp))
      else if c.budget == 0 then Effect(core, mu, Returned(Failure(RecoveryRequired), GaveUp))
      else if core.dones > 0 && core.result.Some? then Effect(core, mu, Returned(core.result.value, ByDone))
      else Effect(core, mu, pc)
    case Returned(_, _) => Effect(core, mu, pc)
  }

  function NaturalEffect(core: Core, mu: Option<Actor>, members: nat, pc: NaturalPc, c: Choice): Effect<NaturalPc> {
    match pc
    case Peek =>
      (match WaitidPeek(core.leader, c.fails)
       case Running => Effect(core, mu, pc)
       case Exited => Effect(core, mu, LockNoteExit)
       case _ => Effect(core, mu, Left))
    case LockNoteExit =>
      if mu.Some? then Effect(core, mu, pc) else Effect(NextEpoch(core), Some(Natural), UnlockNoteExit)
    case UnlockNoteExit => Effect(core, None, LockCheck)
    case LockCheck => if mu.Some? then Effect(core, mu, pc) else Effect(NextEpoch(core), Some(Natural), CheckClaimed)
    case CheckClaimed => Effect(core, mu, if core.closed || core.stopClaimed then UnlockLeave else UnlockScan)
    case UnlockScan => Effect(core, None, ScanFirst)
    case UnlockLeave => Effect(core, None, Left)
    case ScanFirst =>
      Effect(core.(scans := core.scans + [c.scan]), mu,
             match c.scan case Absent => ScanSecond case Present => LockCheck case Unreadable => Left)
    case ScanSecond =>
      Effect(core.(scans := core.scans + [c.scan]), mu,
             match c.scan case Absent => LockClose case Present => LockCheck case Unreadable => Left)
    case LockClose => if mu.Some? then Effect(core, mu, pc) else Effect(NextEpoch(core), Some(Natural), CheckClose)
    case CheckClose =>
      if core.closed || core.stopClaimed then Effect(core, mu, UnlockLeave) else Effect(Closing(core), mu, ReapNow)
    case ReapNow =>
      if core.leader == Alive then Effect(core, mu, pc)
      else Effect(Reaping(core, Natural, c.fails), mu, UnlockReaped(c.fails || core.leader != Zombie))
    case UnlockReaped(failed) => Effect(core, None, ForgetRun(failed))
    case ForgetRun(failed) => Effect(core, mu, WaitGroup(c.budget, failed))
    case WaitGroup(polls, failed) =>
      if !GroupExists(core, members) then Effect(core.(groupSeenEmpty := true), mu, SetResult(ReapVerdict(failed)))
      else Effect(core, mu, if polls == 0 then SetResult(Failure(RecoveryRequired)) else WaitGroup(polls - 1, failed))
    case SetResult(verdict) => Effect(core.(result := Some(verdict)), mu, FinishDone(verdict))
    case FinishDone(verdict) => Effect(core.(dones := core.dones + 1), mu, Finished(verdict))
    case _ => Effect(core, mu, pc)
  }

  function StepStop(s: Sys, id: nat, c: Choice): Sys
    requires id in s.stops
  {
    var pc := s.stops[id];
    var e := StopEffect(s.core, s.mu, s.members, Stopper(id), pc, c);
    Sys(e.core, e.mu, if pc.CheckClaim? && e.pc.SendTerm? then Some(Stopper(id)) else s.claimer,
        s.registered && !pc.Forget?, s.members, s.natural, s.stops[id := e.pc])
  }

  function StepNatural(s: Sys, c: Choice): Sys {
    var e := NaturalEffect(s.core, s.mu, s.members, s.natural, c);
    Sys(e.core, e.mu, if s.natural.CheckClose? && e.pc.ReapNow? then Some(Natural) else s.claimer,
        s.registered && !s.natural.ForgetRun?, s.members, e.pc, s.stops)
  }

  function Next(s: Sys, move: Move): Sys {
    match move
    case CallStop(id) =>
      if id in s.stops then s
      else s.(stops := s.stops[id := if s.registered then LockClaim else Returned(Failure(NotFound), GaveUp)])
    case StopStep(id, c) => if id in s.stops then StepStop(s, id, c) else s
    case NaturalStep(c) => StepNatural(s, c)
    case StartReturnsNil => if s.natural.NotStarted? then s.(natural := Peek) else s
    case FastExitSeen => if s.natural.NotStarted? && s.core.leader == Zombie then s.(natural := SawExit) else s
    case FastExitReap(fails) =>
      if s.natural.SawExit? then s.(core := Reaping(s.core, Starter, fails), natural := StartReaped) else s
    case FastExitForget => if s.natural.StartReaped? then s.(registered := false, natural := StartFailed) else s
    case StartCannotWatch => if s.natural.NotStarted? then s.(registered := false, natural := StartFailed) else s
    case LeaderExits => if s.core.leader == Alive then s.(core := s.core.(leader := Zombie)) else s
    case GroupChanges(members) => s.(members := members)
  }

  /** `Start` has returned nil, and the observer has the record. */
  predicate Watched(pc: NaturalPc) {
    !(pc.NotStarted? || pc.SawExit? || pc.StartReaped? || pc.StartFailed?)
  }

  /** `Stop` is called only after `Start` returned nil. */
  predicate Permitted(s: Sys, move: Move) {
    move.CallStop? ==> Watched(s.natural)
  }
}
