/** The engine's commands: what each checks before committing, and the mutation
    it then runs on the records. */
module Commands {
  import opened Results
  import opened Domain
  import opened StateStore

  /** Host-established authority for one call. */
  datatype Caller = Caller(agentID: string, isHumanReviewer: bool)

  /** The scope of the commits a host makes on its own behalf. */
  const HOST := Caller("", false)

  const WORKSPACE := "workspace"

  /** The clock reading and the event ID one mutation draws. */
  datatype Draw = Draw(now: int, eventID: Option<string>)

  datatype Command =
    | CreateTask(taskID: string, title: string, assignee: string)
    | TransitionTask(taskID: string, from: TaskStatus, to: TaskStatus, reason: string)
    | ReportResult(taskID: string, resultID: string, expected: nat, summary: string, artifacts: seq<string>)
    | AcceptResult(taskID: string, resultID: string, expected: nat, note: string)
    | RejectResult(taskID: string, resultID: string, expected: nat, reason: string)
    | RegisterAgent(agentID: string, displayName: string, profileID: string)
    | UpdateAgent(agentID: string, newName: Option<string>, newProfile: Option<string>)
    | ApproveProfile(profileID: string, args: seq<string>)
    | SendMessage(messageID: string, sender: string, recipient: string, kind: MessageKind, body: string,
                  aboutTask: Option<string>, replyTo: Option<string>)
    | Acknowledge(messageID: string)
    | RecordPublished(messageID: string)
    | RecordProcessed(messageID: string)
    | StartIntent(runID: string, agentID: string, profileID: string, toolExecutable: string, toolArgv: seq<string>)
    | StartMarker(runID: string)
    | StartObserved(runID: string, failure: Option<string>)
    | StopIntent(runID: string, reason: string)
    | StopObserved(runID: string, failed: bool)
    | ReconcileRun(runID: string)

  /* ---------- Lookup ---------- */

  function TaskID(t: Task): string { t.id }
  function ResultID(r: TaskResult): string { r.id }
  function MessageID(m: Message): string { m.id }
  function AgentID(a: Agent): string { a.id }
  function ProfileID(p: Profile): string { p.id }
  function RunID(r: Run): string { r.id }
  function OperationID(o: Operation): string { o.id }

  /** The first record with this ID, as every `find` loop returns it. */
  function Find<T>(s: seq<T>, id: T -> string, wanted: string): (r: Option<nat>)
    ensures r.None? <==> forall i :: 0 <= i < |s| ==> id(s[i]) != wanted
    ensures r.Some? ==> r.value < |s| && id(s[r.value]) == wanted
                        && forall i :: 0 <= i < r.value ==> id(s[i]) != wanted
  {
    if s == [] then None
    else if id(s[0]) == wanted then Some(0)
    else
      match Find(s[1..], id, wanted)
      case None => None
      case Some(i) => Some(i + 1)
  }

  /** Growing a collection without changing any ID keeps what `Find` finds. */
  lemma FindIsStable<T>(s: seq<T>, s': seq<T>, id: T -> string, wanted: string)
    requires |s| <= |s'| && (forall i :: 0 <= i < |s| ==> id(s'[i]) == id(s[i]))
    ensures Find(s, id, wanted).Some? ==> Find(s', id, wanted) == Find(s, id, wanted)
  {
    var found := Find(s, id, wanted);
    if found.Some? {
      assert id(s'[found.value]) == wanted;
      assert forall i :: 0 <= i < found.value ==> id(s'[i]) != wanted;
    }
  }

  /** The states that keep an agent from starting another run. */
  predicate IsActive(state: RunState) {
    state != Exited
  }

  predicate HasActiveRun(runs: seq<Run>, agentID: string) {
    exists i :: 0 <= i < |runs| && runs[i].agentID == agentID && IsActive(runs[i].state)
  }

  /** `findActiveRunForAgent`: the first of the agent's runs in an active state. */
  method FindActiveRun(runs: seq<Run>, agentID: string) returns (r: Option<string>)
    ensures r.Some? <==> HasActiveRun(runs, agentID)
    ensures r.Some? ==> exists i :: 0 <= i < |runs| && runs[i].id == r.value && runs[i].agentID == agentID
                                    && IsActive(runs[i].state) && !HasActiveRun(runs[..i], agentID)
  {
    for i := 0 to |runs|
      invariant !HasActiveRun(runs[..i], agentID)
    {
      assert runs[..i + 1] == runs[..i] + [runs[i]];
      if runs[i].agentID != agentID {
        continue;
      }
      match runs[i].state {
        case Starting | Running | Stopping | RecoveryNeeded => return Some(runs[i].id);
        case Exited =>
      }
    }
    assert runs[..|runs|] == runs;
    return None;
  }

  /* ---------- Checks before any commit ---------- */

  predicate GenericTransition(from: TaskStatus, to: TaskStatus) {
    || (from == Todo && to == Doing)
    || (from == Doing && to == Blocked)
    || (from == Blocked && to == Doing)
    || (from == Done && to == Todo)
  }

  /** The first check that fails, if any. */
  function Refusal(cmd: Command, caller: Caller): Option<ErrorCode> {
    match cmd
    case CreateTask(taskID, title, _) =>
      if title == "" || taskID == "" then Some(InvalidArgument) else None
    case TransitionTask(_, from, to, reason) =>
      if !GenericTransition(from, to) then Some(InvalidArgument)
      else if to == Blocked && reason == "" then Some(InvalidArgument)
      else if from == Done && reason == "" then Some(InvalidArgument)
      else if from == Done && !caller.isHumanReviewer then Some(Denied)
      else None
    case ReportResult(_, resultID, _, summary, artifacts) =>
      if resultID == "" || summary == "" || artifacts == [] then Some(InvalidArgument) else None
    case AcceptResult(_, _, _, _) =>
      if !caller.isHumanReviewer then Some(Denied) else None
    case RejectResult(_, _, _, reason) =>
      if !caller.isHumanReviewer then Some(Denied) else if reason == "" then Some(InvalidArgument) else None
    case RegisterAgent(agentID, displayName, _) =>
      if agentID == "" || displayName == "" then Some(InvalidArgument)
      else if !(caller.isHumanReviewer || caller.agentID == agentID) then Some(Denied)
      else None
    case UpdateAgent(agentID, newName, newProfile) =>
      if agentID == "" || (newName.None? && newProfile.None?) || newName == Some("") then Some(InvalidArgument)
      else if !(caller.isHumanReviewer || caller.agentID == agentID) then Some(Denied)
      else None
    case ApproveProfile(profileID, args) =>
      if !caller.isHumanReviewer then Some(Denied)
      else if profileID == "" || args == [] then Some(InvalidArgument)
      else None
    case SendMessage(messageID, sender, recipient, kind, _, _, _) =>
      if messageID == "" || sender == "" || recipient == "" || kind.UnknownKind? then Some(InvalidArgument) else None
    case StartIntent(runID, agentID, profileID, toolExecutable, toolArgv) =>
      if runID == "" || agentID == "" || profileID == "" then Some(InvalidArgument)
      else if caller.agentID != agentID then Some(Denied)
      else if toolExecutable != "" && toolArgv == [] then Some(InvalidArgument)
      else None
    case StopIntent(runID, _) => if runID == "" then Some(InvalidArgument) else None
    case _ => None
  }

  /* ---------- Mutations ---------- */

  type Mutated = Result<(Records, seq<Event>), ErrorCode>

  function Claim(caller: Caller, draw: Draw): Provenance {
    Provenance(caller.agentID, draw.now)
  }

  /** Every mutation that changes something ends by drawing its one event. */
  function Emit(r: Records, draw: Draw, kind: string, subjects: seq<string>): Mutated {
    match draw.eventID
    case None => Err(IDSourceFailed)
    case Some(id) => Ok((r, [Event(id, kind, subjects, 0)]))
  }

  /** A task moved to `to`: one more revision, and the record of the change. */
  function Moved(t: Task, to: TaskStatus, current: Option<string>, caller: Caller, draw: Draw): Task {
    t.(status := to, revision := t.revision + 1, currentResult := current,
       lastStatusChange := Some(StatusChange(t.revision + 1, Some(t.status), to, Claim(caller, draw))))
  }

  function ApplyCreateTask(cmd: Command, caller: Caller, draw: Draw, r: Records): Mutated
    requires cmd.CreateTask?
  {
    if Find(r.tasks, TaskID, cmd.taskID).Some? then Err(Conflict)
    else if cmd.assignee != "" && Find(r.agents, AgentID, cmd.assignee).None? then Err(NotFound)
    else
      var task := Task(cmd.taskID, cmd.title, cmd.assignee, Todo, 1, None, Claim(caller, draw),
                       Some(StatusChange(1, None, Todo, Claim(caller, draw))));
      Emit(r.(tasks := r.tasks + [task]), draw, "TaskCreated", [cmd.taskID])
  }

  function ApplyTransition(cmd: Command, caller: Caller, draw: Draw, r: Records): Mutated
    requires cmd.TransitionTask?
  {
    match Find(r.tasks, TaskID, cmd.taskID)
    case None => Err(NotFound)
    case Some(i) =>
      var task := r.tasks[i];
      if task.status != cmd.from then Err(Conflict)
      else
        var current := if cmd.from == Done && cmd.to == Todo then None else task.currentResult;
        Emit(r.(tasks := r.tasks[i := Moved(task, cmd.to, current, caller, draw)]), draw,
             "TaskTransitioned", [cmd.taskID])
  }

  function ApplyReport(cmd: Command, caller: Caller, draw: Draw, r: Records): Mutated
    requires cmd.ReportResult?
  {
    match Find(r.tasks, TaskID, cmd.taskID)
    case None => Err(NotFound)
    case Some(i) =>
      var task := r.tasks[i];
      if task.assignee != caller.agentID then Err(Denied)
      else if task.revision != cmd.expected then Err(Conflict)
      else if task.status != Doing then Err(InvalidArgument)
      else if Find(r.results, ResultID, cmd.resultID).Some? then Err(Conflict)
      else
        var result := TaskResult(cmd.resultID, cmd.taskID, cmd.summary, cmd.artifacts, Claim(caller, draw),
            Pending, "", None);
        Emit(r.(results := r.results + [result],
                tasks := r.tasks[i := Moved(task, AwaitingReview, Some(cmd.resultID), caller, draw)]),
             draw, "TaskResultReported", [cmd.taskID, cmd.resultID])
  }

  /** `loadPendingDecision`: the task and the pending result it now shows. */
  function LoadPendingDecision(
    r: Records, taskID: string, resultID: string, expected: nat): Result<(nat, nat), ErrorCode> {
    match Find(r.tasks, TaskID, taskID)
    case None => Err(NotFound)
    case Some(i) =>
      var task := r.tasks[i];
      if task.revision != expected then Err(Conflict)
      else if task.currentResult != Some(resultID) then Err(Conflict)
      else if task.status != AwaitingReview then Err(InvalidArgument)
      else
        match Find(r.results, ResultID, resultID)
        case None => Err(NotFound)
        case Some(j) => if r.results[j].decision != Pending then Err(Conflict) else Ok((i, j))
  }

  function ApplyDecision(
    taskID: string, resultID: string, expected: nat, decision: Decision, reason: string, to: TaskStatus, kind: string,
    caller: Caller, draw: Draw, r: Records): Mutated
  {
    match LoadPendingDecision(r, taskID, resultID, expected)
    case Err(e) => Err(e)
    case Ok((i, j)) =>
      var result := r.results[j].(decision := decision, decisionReason := reason,
                                  decisionProvenance := Some(Claim(caller, draw)));
      Emit(r.(results := r.results[j := result],
              tasks := r.tasks[i := Moved(r.tasks[i], to, r.tasks[i].currentResult, caller, draw)]),
           draw, kind, [taskID, resultID])
  }

  function ApplyAgents(cmd: Command, caller: Caller, draw: Draw, r: Records): Mutated
    requires cmd.RegisterAgent? || cmd.UpdateAgent? || cmd.ApproveProfile?
  {
    match cmd
    case RegisterAgent(agentID, displayName, profileID) =>
      if Find(r.agents, AgentID, agentID).Some? then Err(Conflict)
      else Emit(r.(agents := r.agents + [Agent(agentID, displayName, profileID, Claim(caller, draw), None)]),
                draw, "AgentRegistered", [agentID])
    case UpdateAgent(agentID, newName, newProfile) =>
      (match Find(r.agents, AgentID, agentID)
       case None => Err(NotFound)
       case Some(i) =>
         var agent := r.agents[i].(
           displayName := if newName.Some? then newName.value else r.agents[i].displayName,
           profileID := if newProfile.Some? then newProfile.value else r.agents[i].profileID,
           lastUpdated := Some(Claim(caller, draw)));
         Emit(r.(agents := r.agents[i := agent]), draw, "AgentUpdated", [agentID]))
    case ApproveProfile(profileID, args) =>
      if Find(r.profiles, ProfileID, profileID).Some? then Err(Conflict)
      else Emit(r.(profiles := r.profiles + [Profile(profileID, args, Claim(caller, draw))]),
                draw, "ProfileApproved", [profileID])
  }

  function ApplySend(cmd: Command, caller: Caller, draw: Draw, r: Records): Mutated
    requires cmd.SendMessage?
  {
    if Find(r.messages, MessageID, cmd.messageID).Some? then Err(Conflict)
    else if Find(r.agents, AgentID, cmd.sender).None? || Find(r.agents, AgentID, cmd.recipient).None? then Err(NotFound)
    else if cmd.aboutTask.Some? && Find(r.tasks, TaskID, cmd.aboutTask.value).None? then Err(NotFound)
    else if cmd.replyTo.Some? && Find(r.messages, MessageID, cmd.replyTo.value).None? then Err(NotFound)
    else
      var message := Message(cmd.messageID, cmd.sender, cmd.recipient, cmd.kind, cmd.body, draw.now,
                             cmd.aboutTask, cmd.replyTo, Claim(caller, draw), Some(draw.now), None, None, "", None);
      Emit(r.(messages := r.messages + [message]), draw, "MessageQueued", [cmd.messageID])
  }

  function ApplyAcknowledge(messageID: string, caller: Caller, draw: Draw, r: Records): Mutated {
    match Find(r.messages, MessageID, messageID)
    case None => Err(NotFound)
    case Some(i) =>
      var message := r.messages[i];
      if message.recipient != caller.agentID then Err(Denied)
      else if message.acknowledgedAt.Some? then Ok((r, []))
      else
        Emit(r.(messages :=
            r.messages[i := message.(acknowledgedBy := caller.agentID, acknowledgedAt := Some(draw.now))]),
             draw, "MessageAcknowledged", [messageID])
  }

  /** `recordDeliveryFact`: a fact already recorded is a successful no-op. */
  function ApplyDeliveryFact(messageID: string, processed: bool, draw: Draw, r: Records): Mutated {
    match Find(r.messages, MessageID, messageID)
    case None => Err(NotFound)
    case Some(i) =>
      var message := r.messages[i];
      if (if processed then message.processedAt else message.publishedAt).Some? then Ok((r, []))
      else
        var updated := if processed then message.(processedAt := Some(draw.now))
            else message.(publishedAt := Some(draw.now));
        Emit(r.(messages := r.messages[i := updated]), draw,
             if processed then "MessageProcessed" else "MessagePublished", [messageID])
  }

  function StartOperation(runID: string): string { runID + "-start" }

  function StopOperation(runID: string): string { runID + "-stop" }

  /** Updates the first operation with this ID, if there is one. */
  function SetOperation(
    ops: seq<Operation>, id: string, state: OperationState, completedAt: Option<int>, outcome: string): seq<Operation> {
    match Find(ops, OperationID, id)
    case None => ops
    case Some(i) => ops[i := ops[i].(state := state, completedAt := completedAt, outcome := outcome)]
  }

  function ApplyStartIntent(cmd: Command, caller: Caller, draw: Draw, r: Records): Mutated
    requires cmd.StartIntent?
  {
    if Find(r.runs, RunID, cmd.runID).Some? then Err(Conflict)
    else if HasActiveRun(r.runs, cmd.agentID) then Err(Conflict)
    else
      match Find(r.profiles, ProfileID, cmd.profileID)
      case None => Err(Denied)
      case Some(p) =>
        if cmd.toolExecutable != ""
            && (r.profiles[p].args == [] || cmd.toolExecutable != r.profiles[p].args[0]) then Err(Denied)
        else if Find(r.agents, AgentID, cmd.agentID).None? then Err(NotFound)
        else
          var run := Run(cmd.runID, cmd.agentID, cmd.profileID, Starting, Claim(caller, draw), None, None, None, "");
          var op := Operation(StartOperation(cmd.runID), cmd.runID, "StartRun", OpPending, draw.now, None, "");
          Emit(r.(runs := r.runs + [run], operations := r.operations + [op]), draw, "RunStarting", [cmd.runID])
  }

  function ApplyStartMarker(runID: string, draw: Draw, r: Records): Mutated {
    match Find(r.runs, RunID, runID)
    case None => Err(Conflict)
    case Some(i) =>
      var run := r.runs[i];
      if run.dispatchAttemptedAt.Some? then Err(Conflict)
      else if run.state != Starting then Err(Conflict)
      else if Find(r.profiles, ProfileID, run.profileID).None? then Err(Denied)
      else
        var ops := match Find(r.operations, OperationID, StartOperation(runID))
                   case None => r.operations
                   case Some(o) => r.operations[o := r.operations[o].(state := OpRunning)];
        Emit(r.(runs := r.runs[i := run.(dispatchAttemptedAt := Some(draw.now))], operations := ops), draw,
             "RunDispatchAttempted", [runID])
  }

  /** The observation overwrites the run's state without looking at it. */
  function ApplyStartObserved(runID: string, failure: Option<string>, draw: Draw, r: Records): Mutated {
    match Find(r.runs, RunID, runID)
    case None => Err(Conflict)
    case Some(i) =>
      var op := StartOperation(runID);
      match failure
      case Some(code) =>
        Emit(r.(runs := r.runs[i := r.runs[i].(state := Exited, exitedAt := Some(draw.now), exitReason := code)],
                operations := SetOperation(r.operations, op, OpFailed, Some(draw.now), code)),
                    draw, "RunExited", [runID])
      case None =>
        Emit(r.(runs := r.runs[i := r.runs[i].(state := Running, startedAt := Some(draw.now))],
                operations := SetOperation(r.operations, op, OpSucceeded, Some(draw.now), "Started")),
                    draw, "RunStarted", [runID])
  }

  function ApplyStopIntent(runID: string, caller: Caller, draw: Draw, r: Records): Mutated {
    match Find(r.runs, RunID, runID)
    case None => Err(NotFound)
    case Some(i) =>
      var run := r.runs[i];
      if run.state == Exited then Err(Conflict)
      else if run.state == RecoveryNeeded then Err(RecoveryRequired)
      else if run.agentID != caller.agentID then Err(Denied)
      else
        var op := Operation(StopOperation(runID), runID, "StopRun", OpRunning, draw.now, None, "");
        Emit(r.(runs := r.runs[i := run.(state := Stopping)], operations := r.operations + [op]),
            draw, "RunStopping", [runID])
  }

  /** So does the stop outcome. */
  function ApplyStopObserved(runID: string, failed: bool, draw: Draw, r: Records): Mutated {
    match Find(r.runs, RunID, runID)
    case None => Err(Conflict)
    case Some(i) =>
      var op := StopOperation(runID);
      if failed then
        Emit(r.(runs := r.runs[i := r.runs[i].(state := RecoveryNeeded)],
                operations := SetOperation(r.operations, op, OpRecoveryNeeded, Some(draw.now), "RecoveryRequired")),
             draw, "RunRecoveryRequired", [runID])
      else
        Emit(r.(runs := r.runs[i := r.runs[i].(state := Exited, exitedAt := Some(draw.now), exitReason := "stopped")],
                operations := SetOperation(r.operations, op, OpSucceeded, Some(draw.now), "Stopped")),
             draw, "RunExited", [runID])
  }

  predicate IsStuck(state: RunState) {
    state == Starting || state == Running
  }

  predicate IsOpen(state: OperationState) {
    state == OpPending || state == OpRunning
  }

  function ApplyReconcile(runID: string, draw: Draw, r: Records): Mutated {
    match Find(r.runs, RunID, runID)
    case None => Ok((r, []))
    case Some(i) =>
      if !IsStuck(r.runs[i].state) then Ok((r, []))
      else
        var ops := match Find(r.operations, OperationID, StartOperation(runID))
                   case None => r.operations
                   case Some(o) =>
                     if IsOpen(r.operations[o].state) then
                       r.operations[o := r.operations[o].(
                         state := OpRecoveryNeeded, completedAt := Some(draw.now), outcome := "RecoveryRequired")]
                     else r.operations;
        Emit(r.(runs := r.runs[i := r.runs[i].(state := RecoveryNeeded)], operations := ops), draw,
             "RunRecoveryRequired", [runID])
  }

  function Apply(cmd: Command, caller: Caller, draw: Draw, r: Records): Mutated {
    match cmd
    case CreateTask(_, _, _) => ApplyCreateTask(cmd, caller, draw, r)
    case TransitionTask(_, _, _, _) => ApplyTransition(cmd, caller, draw, r)
    case ReportResult(_, _, _, _, _) => ApplyReport(cmd, caller, draw, r)
    case AcceptResult(taskID, resultID, expected, _) =>
      ApplyDecision(taskID, resultID, expected, Accepted, "", Done, "TaskResultAccepted", caller, draw, r)
    case RejectResult(taskID, resultID, expected, reason) =>
      ApplyDecision(taskID, resultID, expected, Rejected, reason, Doing, "TaskResultRejected", caller, draw, r)
    case RegisterAgent(_, _, _) => ApplyAgents(cmd, caller, draw, r)
    case UpdateAgent(_, _, _) => ApplyAgents(cmd, caller, draw, r)
    case ApproveProfile(_, _) => ApplyAgents(cmd, caller, draw, r)
    case SendMessage(_, _, _, _, _, _, _) => ApplySend(cmd, caller, draw, r)
    case Acknowledge(messageID) => ApplyAcknowledge(messageID, caller, draw, r)
    case RecordPublished(messageID) => ApplyDeliveryFact(messageID, false, draw, r)
    case RecordProcessed(messageID) => ApplyDeliveryFact(messageID, true, draw, r)
    case StartIntent(_, _, _, _, _) => ApplyStartIntent(cmd, caller, draw, r)
    case StartMarker(runID) => ApplyStartMarker(runID, draw, r)
    case StartObserved(runID, failure) => ApplyStartObserved(runID, failure, draw, r)
    case StopIntent(runID, _) => ApplyStopIntent(runID, caller, draw, r)
    case StopObserved(runID, failed) => ApplyStopObserved(runID, failed, draw, r)
    case ReconcileRun(runID) => ApplyReconcile(runID, draw, r)
  }

  predicate ChangesReview(cmd: Command) {
    cmd.CreateTask? || cmd.TransitionTask? || cmd.ReportResult? || cmd.AcceptResult? || cmd.RejectResult?
  }

  predicate ChangesMessages(cmd: Command) {
    cmd.SendMessage? || cmd.Acknowledge? || cmd.RecordPublished? || cmd.RecordProcessed?
  }

  predicate ChangesRuns(cmd: Command) {
    cmd.StartIntent? || cmd.StartMarker? || cmd.StartObserved? || cmd.StopIntent? || cmd.StopObserved?
        || cmd.ReconcileRun?
  }

  /** Each command leaves the collections of the other groups alone. */
  lemma Footprint(cmd: Command, caller: Caller, draw: Draw, r: Records)
    requires Apply(cmd, caller, draw, r).Ok?
    ensures var r' := Apply(cmd, caller, draw, r).value.0;
            && (!ChangesReview(cmd) ==> r'.tasks == r.tasks && r'.results == r.results)
            && (!ChangesMessages(cmd) ==> r'.messages == r.messages)
            && (!ChangesRuns(cmd) ==> r'.runs == r.runs && r'.operations == r.operations)
  {
    if ChangesReview(cmd) {
      ReviewFootprint(cmd, caller, draw, r);
    } else if ChangesMessages(cmd) {
      MessageFootprint(cmd, caller, draw, r);
    } else if cmd.StartIntent? || cmd.StartMarker? || cmd.StartObserved? {
      StartFootprint(cmd, caller, draw, r);
    } else if ChangesRuns(cmd) {
      StopFootprint(cmd, caller, draw, r);
    } else {
      assert Apply(cmd, caller, draw, r) == ApplyAgents(cmd, caller, draw, r);
    }
  }

  lemma ReviewFootprint(cmd: Command, caller: Caller, draw: Draw, r: Records)
    requires ChangesReview(cmd) && Apply(cmd, caller, draw, r).Ok?
    ensures var r' := Apply(cmd, caller, draw, r).value.0;
            r'.messages == r.messages && r'.runs == r.runs && r'.operations == r.operations
  {
  }

  lemma MessageFootprint(cmd: Command, caller: Caller, draw: Draw, r: Records)
    requires ChangesMessages(cmd) && Apply(cmd, caller, draw, r).Ok?
    ensures var r' := Apply(cmd, caller, draw, r).value.0;
            r'.tasks == r.tasks && r'.results == r.results && r'.runs == r.runs && r'.operations == r.operations
  {
  }

  lemma StartFootprint(cmd: Command, caller: Caller, draw: Draw, r: Records)
    requires (cmd.StartIntent? || cmd.StartMarker? || cmd.StartObserved?) && Apply(cmd, caller, draw, r).Ok?
    ensures var r' := Apply(cmd, caller, draw, r).value.0;
            r'.tasks == r.tasks && r'.results == r.results && r'.messages == r.messages
  {
  }

  lemma StopFootprint(cmd: Command, caller: Caller, draw: Draw, r: Records)
    requires (cmd.StopIntent? || cmd.StopObserved? || cmd.ReconcileRun?) && Apply(cmd, caller, draw, r).Ok?
    ensures var r' := Apply(cmd, caller, draw, r).value.0;
            r'.tasks == r.tasks && r'.results == r.results && r'.messages == r.messages
  {
  }

  /** The commit an admitted command submits. The fingerprint is opaque. */
  function Submit(
    cmd: Command, caller: Caller, draw: Draw, workspaceID: string, requestID: string,
    fingerprint: string): CommitRequest {
    CommitRequest(workspaceID, caller.agentID, requestID, fingerprint, r => Apply(cmd, caller, draw, r))
  }

  /** The commit runs this command's mutation. */
  ghost predicate MutatesAs(req: CommitRequest, cmd: Command, caller: Caller, draw: Draw) {
    forall r :: req.mutate(r) == Apply(cmd, caller, draw, r)
  }
}
