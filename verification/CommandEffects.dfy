/** What stands in the way of each command, and what each one changes and
    announces when nothing does: said of the records before and after. */
module CommandEffects {
  import opened Results
  import opened Domain
  import opened StateStore
  import opened Commands

  /* ---------- What stands in the way ---------- */

  function Lookup<T>(s: seq<T>, id: T -> string, wanted: string): Option<T> {
    match Find(s, id, wanted)
    case None => None
    case Some(i) => Some(s[i])
  }

  function TaskOf(r: Records, id: string): Option<Task> { Lookup(r.tasks, TaskID, id) }
  function ResultOf(r: Records, id: string): Option<TaskResult> { Lookup(r.results, ResultID, id) }
  function MessageOf(r: Records, id: string): Option<Message> { Lookup(r.messages, MessageID, id) }
  function AgentOf(r: Records, id: string): Option<Agent> { Lookup(r.agents, AgentID, id) }
  function ProfileOf(r: Records, id: string): Option<Profile> { Lookup(r.profiles, ProfileID, id) }
  function RunOf(r: Records, id: string): Option<Run> { Lookup(r.runs, RunID, id) }

  /** The edges anyone may ask for directly. */
  const EDGES := {(Todo, Doing), (Doing, Blocked), (Blocked, Doing), (Done, Todo)}

  predicate TaskObstacle(cmd: Command, caller: Caller, r: Records, code: ErrorCode)
    requires cmd.CreateTask? || cmd.TransitionTask? || cmd.ReportResult?
  {
    match cmd
    case CreateTask(id, title, assignee) =>
      || (code == InvalidArgument && (id == "" || title == ""))
      || (code == Conflict && TaskOf(r, id).Some?)
      || (code == NotFound && assignee != "" && AgentOf(r, assignee).None?)
    case TransitionTask(id, from, to, reason) =>
      || (code == InvalidArgument && ((from, to) !in EDGES || (reason == "" && (to == Blocked || from == Done))))
      || (code == Denied && from == Done && !caller.isHumanReviewer)
      || (code == NotFound && TaskOf(r, id).None?)
      || (code == Conflict && TaskOf(r, id).Some? && TaskOf(r, id).value.status != from)
    case ReportResult(id, resultID, expected, summary, artifacts) =>
      || (code == InvalidArgument && (resultID == "" || summary == "" || artifacts == []))
      || (code == InvalidArgument && TaskOf(r, id).Some? && TaskOf(r, id).value.status != Doing)
      || (code == NotFound && TaskOf(r, id).None?)
      || (code == Denied && TaskOf(r, id).Some? && TaskOf(r, id).value.assignee != caller.agentID)
      || (code == Conflict && TaskOf(r, id).Some? && TaskOf(r, id).value.revision != expected)
      || (code == Conflict && ResultOf(r, resultID).Some?)
  }

  /** What keeps a decision from being made of this result now. */
  predicate DecisionObstacle(id: string, resultID: string, expected: nat, caller: Caller, r: Records, code: ErrorCode) {
    || (code == Denied && !caller.isHumanReviewer)
    || (code == NotFound && TaskOf(r, id).None?)
    || (code == NotFound && ResultOf(r, resultID).None?)
    || (code == Conflict && TaskOf(r, id).Some? && TaskOf(r, id).value.revision != expected)
    || (code == Conflict && TaskOf(r, id).Some? && TaskOf(r, id).value.currentResult != Some(resultID))
    || (code == InvalidArgument && TaskOf(r, id).Some? && TaskOf(r, id).value.status != AwaitingReview)
    || (code == Conflict && ResultOf(r, resultID).Some? && ResultOf(r, resultID).value.decision != Pending)
  }

  predicate WorkspaceObstacle(cmd: Command, caller: Caller, r: Records, code: ErrorCode)
    requires cmd.RegisterAgent? || cmd.UpdateAgent? || cmd.ApproveProfile? || cmd.SendMessage? || cmd.Acknowledge?
  {
    match cmd
    case RegisterAgent(id, name, _) =>
      || (code == InvalidArgument && (id == "" || name == ""))
      || (code == Denied && !caller.isHumanReviewer && caller.agentID != id)
      || (code == Conflict && AgentOf(r, id).Some?)
    case UpdateAgent(id, name, profile) =>
      || (code == InvalidArgument && (id == "" || name == Some("") || (name.None? && profile.None?)))
      || (code == Denied && !caller.isHumanReviewer && caller.agentID != id)
      || (code == NotFound && AgentOf(r, id).None?)
    case ApproveProfile(id, args) =>
      || (code == Denied && !caller.isHumanReviewer)
      || (code == InvalidArgument && (id == "" || args == []))
      || (code == Conflict && ProfileOf(r, id).Some?)
    case SendMessage(id, sender, recipient, kind, _, about, replyTo) =>
      || (code == InvalidArgument && (id == "" || sender == "" || recipient == "" || kind.UnknownKind?))
      || (code == Conflict && MessageOf(r, id).Some?)
      || (code == NotFound && (AgentOf(r, sender).None? || AgentOf(r, recipient).None?))
      || (code == NotFound && about.Some? && TaskOf(r, about.value).None?)
      || (code == NotFound && replyTo.Some? && MessageOf(r, replyTo.value).None?)
    case Acknowledge(id) =>
      || (code == NotFound && MessageOf(r, id).None?)
      || (code == Denied && MessageOf(r, id).Some? && MessageOf(r, id).value.recipient != caller.agentID)
  }

  /** An agent is occupied while any run of its own is not Exited. */
  predicate Occupied(r: Records, agentID: string) {
    exists k :: 0 <= k < |r.runs| && r.runs[k].agentID == agentID && r.runs[k].state != Exited
  }

  predicate RunObstacle(cmd: Command, caller: Caller, r: Records, code: ErrorCode)
    requires cmd.StartIntent? || cmd.StartMarker? || cmd.StartObserved? || cmd.StopIntent? || cmd.StopObserved?
  {
    match cmd
    case StartIntent(id, agentID, profileID, executable, argv) =>
      || (code == InvalidArgument && (id == "" || agentID == "" || profileID == "" || (executable != "" && argv == [])))
      || (code == Denied && caller.agentID != agentID)
      || (code == Conflict && (RunOf(r, id).Some? || Occupied(r, agentID)))
      || (code == Denied && ProfileOf(r, profileID).None?)
      || (code == Denied && executable != "" && ProfileOf(r, profileID).Some?
          && (ProfileOf(r, profileID).value.args == [] || ProfileOf(r, profileID).value.args[0] != executable))
      || (code == NotFound && AgentOf(r, agentID).None?)
    case StartMarker(id) =>
      || (code == Conflict && RunOf(r, id).None?)
      || (code == Conflict && RunOf(r, id).Some? && (RunOf(r, id).value.dispatchAttemptedAt.Some?
                                                     || RunOf(r, id).value.state != Starting))
      || (code == Denied && RunOf(r, id).Some? && ProfileOf(r, RunOf(r, id).value.profileID).None?)
    case StartObserved(id, _) => code == Conflict && RunOf(r, id).None?
    case StopIntent(id, _) =>
      || (code == InvalidArgument && id == "")
      || (code == NotFound && RunOf(r, id).None?)
      || (code == Conflict && RunOf(r, id).Some? && RunOf(r, id).value.state == Exited)
      || (code == RecoveryRequired && RunOf(r, id).Some? && RunOf(r, id).value.state == RecoveryNeeded)
      || (code == Denied && RunOf(r, id).Some? && RunOf(r, id).value.agentID != caller.agentID)
    case StopObserved(id, _) => code == Conflict && RunOf(r, id).None?
  }

  /** Everything that can stand in the way of a command, by the error it gives. */
  predicate Obstacle(cmd: Command, caller: Caller, r: Records, code: ErrorCode) {
    match cmd
    case CreateTask(_, _, _) => TaskObstacle(cmd, caller, r, code)
    case TransitionTask(_, _, _, _) => TaskObstacle(cmd, caller, r, code)
    case ReportResult(_, _, _, _, _) => TaskObstacle(cmd, caller, r, code)
    case AcceptResult(id, resultID, expected, _) => DecisionObstacle(id, resultID, expected, caller, r, code)
    case RejectResult(id, resultID, expected, reason) =>
      (code == InvalidArgument && reason == "") || DecisionObstacle(id, resultID, expected, caller, r, code)
    case RecordPublished(id) => code == NotFound && MessageOf(r, id).None?
    case RecordProcessed(id) => code == NotFound && MessageOf(r, id).None?
    case ReconcileRun(_) => false
    case RegisterAgent(_, _, _) => WorkspaceObstacle(cmd, caller, r, code)
    case UpdateAgent(_, _, _) => WorkspaceObstacle(cmd, caller, r, code)
    case ApproveProfile(_, _) => WorkspaceObstacle(cmd, caller, r, code)
    case SendMessage(_, _, _, _, _, _, _) => WorkspaceObstacle(cmd, caller, r, code)
    case Acknowledge(_) => WorkspaceObstacle(cmd, caller, r, code)
    case _ => RunObstacle(cmd, caller, r, code)
  }

  ghost predicate Clear(cmd: Command, caller: Caller, r: Records) {
    forall code :: !Obstacle(cmd, caller, r, code)
  }

  /** The fact the command would record is there already. */
  predicate Quiet(cmd: Command, r: Records) {
    match cmd
    case Acknowledge(id) => MessageOf(r, id).Some? && MessageOf(r, id).value.acknowledgedAt.Some?
    case RecordPublished(id) => MessageOf(r, id).Some? && MessageOf(r, id).value.publishedAt.Some?
    case RecordProcessed(id) => MessageOf(r, id).Some? && MessageOf(r, id).value.processedAt.Some?
    case ReconcileRun(id) =>
      RunOf(r, id).None? || (RunOf(r, id).value.state != Starting && RunOf(r, id).value.state != Running)
    case _ => false
  }

  /** One command, from its first check to its mutation. */
  function Perform(cmd: Command, caller: Caller, draw: Draw, r: Records): Mutated {
    var refused := Refusal(cmd, caller);
    if refused.Some? then Err(refused.value) else Apply(cmd, caller, draw, r)
  }

  /** How a command's answer follows from its obstacles. */
  ghost predicate Answers(cmd: Command, caller: Caller, draw: Draw, r: Records, m: Mutated) {
    && (m.Err? ==> Obstacle(cmd, caller, r, m.error)
                   || (Clear(cmd, caller, r) && !Quiet(cmd, r) && draw.eventID.None? && m.error == IDSourceFailed))
    && (m.Ok? ==> Clear(cmd, caller, r) && (Quiet(cmd, r) || draw.eventID.Some?))
  }

  lemma CreateAnswers(cmd: Command, caller: Caller, draw: Draw, r: Records)
    requires cmd.CreateTask?
    ensures Answers(cmd, caller, draw, r, Perform(cmd, caller, draw, r))
  {
  }

  lemma TransitionAnswers(cmd: Command, caller: Caller, draw: Draw, r: Records)
    requires cmd.TransitionTask?
    ensures Answers(cmd, caller, draw, r, Perform(cmd, caller, draw, r))
  {
    assert GenericTransition(cmd.from, cmd.to) <==> (cmd.from, cmd.to) in EDGES;
    hide GenericTransition;
  }

  lemma ReportAnswers(cmd: Command, caller: Caller, draw: Draw, r: Records)
    requires cmd.ReportResult?
    ensures Answers(cmd, caller, draw, r, Perform(cmd, caller, draw, r))
  {
  }

  lemma DecisionAnswers(cmd: Command, caller: Caller, draw: Draw, r: Records)
    requires cmd.AcceptResult? || cmd.RejectResult?
    ensures Answers(cmd, caller, draw, r, Perform(cmd, caller, draw, r))
  {
    LoadAnswers(r, cmd.taskID, cmd.resultID, cmd.expected);
    hide LoadPendingDecision;
  }

  lemma LoadAnswers(r: Records, id: string, resultID: string, expected: nat)
    ensures var loaded := LoadPendingDecision(r, id, resultID, expected);
            var reviewer := Caller("", true);
            && (loaded.Ok? ==> loaded.value.0 < |r.tasks| && loaded.value.1 < |r.results|)
            && (loaded.Err? ==> DecisionObstacle(id, resultID, expected, reviewer, r, loaded.error))
            && (loaded.Ok? ==> forall code :: !DecisionObstacle(id, resultID, expected, reviewer, r, code))
  {
  }

  lemma AgentAnswers(cmd: Command, caller: Caller, draw: Draw, r: Records)
    requires cmd.RegisterAgent? || cmd.UpdateAgent? || cmd.ApproveProfile?
    ensures Answers(cmd, caller, draw, r, Perform(cmd, caller, draw, r))
  {
  }

  lemma SendAnswers(cmd: Command, caller: Caller, draw: Draw, r: Records)
    requires cmd.SendMessage?
    ensures Answers(cmd, caller, draw, r, Perform(cmd, caller, draw, r))
  {
  }

  lemma FactAnswers(cmd: Command, caller: Caller, draw: Draw, r: Records)
    requires cmd.Acknowledge? || cmd.RecordPublished? || cmd.RecordProcessed?
    ensures Answers(cmd, caller, draw, r, Perform(cmd, caller, draw, r))
  {
  }

  lemma StartAnswers(cmd: Command, caller: Caller, draw: Draw, r: Records)
    requires cmd.StartIntent?
    ensures Answers(cmd, caller, draw, r, Perform(cmd, caller, draw, r))
  {
    assert Occupied(r, cmd.agentID) <==> HasActiveRun(r.runs, cmd.agentID);
    hide HasActiveRun, Occupied;
  }

  lemma DispatchAnswers(cmd: Command, caller: Caller, draw: Draw, r: Records)
    requires cmd.StartMarker? || cmd.StartObserved?
    ensures Answers(cmd, caller, draw, r, Perform(cmd, caller, draw, r))
  {
  }

  lemma StopAnswers(cmd: Command, caller: Caller, draw: Draw, r: Records)
    requires cmd.StopIntent? || cmd.StopObserved? || cmd.ReconcileRun?
    ensures Answers(cmd, caller, draw, r, Perform(cmd, caller, draw, r))
  {
  }

  /** THE acceptance theorem: a command succeeds if and only if nothing stands in
      its way; when it fails, its error names something that does. Only a failing
      ID source is an error of its own. */
  lemma SucceedsExactly(cmd: Command, caller: Caller, draw: Draw, r: Records)
    ensures draw.eventID.Some? ==> (Perform(cmd, caller, draw, r).Ok? <==> Clear(cmd, caller, r))
    ensures draw.eventID.None? ==> (Perform(cmd, caller, draw, r).Ok? <==> Clear(cmd, caller, r) && Quiet(cmd, r))
    ensures Perform(cmd, caller, draw, r).Err? ==>
              var code := Perform(cmd, caller, draw, r).error;
              Obstacle(cmd, caller, r, code) || (Clear(cmd, caller, r) && code == IDSourceFailed)
  {
    CommandAnswers(cmd, caller, draw, r);
    hide Perform, Quiet;
    assert Clear(cmd, caller, r) ==> forall code :: !Obstacle(cmd, caller, r, code);
    hide Obstacle;
  }

  lemma CommandAnswers(cmd: Command, caller: Caller, draw: Draw, r: Records)
    ensures Answers(cmd, caller, draw, r, Perform(cmd, caller, draw, r))
  {
    hide Answers, Perform;
    match cmd {
      case CreateTask(_, _, _) => CreateAnswers(cmd, caller, draw, r);
      case TransitionTask(_, _, _, _) => TransitionAnswers(cmd, caller, draw, r);
      case ReportResult(_, _, _, _, _) => ReportAnswers(cmd, caller, draw, r);
      case AcceptResult(_, _, _, _) => DecisionAnswers(cmd, caller, draw, r);
      case RejectResult(_, _, _, _) => DecisionAnswers(cmd, caller, draw, r);
      case RegisterAgent(_, _, _) => AgentAnswers(cmd, caller, draw, r);
      case UpdateAgent(_, _, _) => AgentAnswers(cmd, caller, draw, r);
      case ApproveProfile(_, _) => AgentAnswers(cmd, caller, draw, r);
      case SendMessage(_, _, _, _, _, _, _) => SendAnswers(cmd, caller, draw, r);
      case Acknowledge(_) => FactAnswers(cmd, caller, draw, r);
      case RecordPublished(_) => FactAnswers(cmd, caller, draw, r);
      case RecordProcessed(_) => FactAnswers(cmd, caller, draw, r);
      case StartIntent(_, _, _, _, _) => StartAnswers(cmd, caller, draw, r);
      case StartMarker(_) => DispatchAnswers(cmd, caller, draw, r);
      case StartObserved(_, _) => DispatchAnswers(cmd, caller, draw, r);
      case StopIntent(_, _) => StopAnswers(cmd, caller, draw, r);
      case StopObserved(_, _) => StopAnswers(cmd, caller, draw, r);
      case ReconcileRun(_) => StopAnswers(cmd, caller, draw, r);
    }
  }
}
