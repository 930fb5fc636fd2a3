/** The one event a command announces, and the one change to the records it tells
    of: a reader of events knows what became of the workspace. */
module CommandEvents {
  import opened Results
  import opened Domain
  import opened StateStore
  import opened Commands
  import opened CommandEffects
  import Accountability

  /* ---------- Changes ---------- */

  /** The event drawn for this change: its kind and whom it is about. */
  predicate Says(e: Event, draw: Draw, kind: string, subjects: seq<string>) {
    draw.eventID == Some(e.id) && e.kind == kind && e.subjects == subjects
  }

  /** Only the first record with this ID differs. */
  ghost predicate OnlyThis<T(!new)>(s: seq<T>, s': seq<T>, i: Option<nat>) {
    i.Some? && i.value < |s| == |s'| && forall k :: 0 <= k < |s| && k != i.value ==> s'[k] == s[k]
  }

  /** One record more, at the end. */
  ghost predicate Joined<T(!new)>(s: seq<T>, s': seq<T>) {
    |s'| == |s| + 1 && s <= s'
  }

  /** The task took this edge: one revision on, its author on record. */
  ghost predicate TaskMoved(r: Records, r': Records, id: string, to: TaskStatus, caller: Caller, draw: Draw) {
    var i := Find(r.tasks, TaskID, id);
    && OnlyThis(r.tasks, r'.tasks, i)
    && var t, t' := r.tasks[i.value], r'.tasks[i.value];
       && t' == t.(status := to, revision := t.revision + 1, currentResult := t'.currentResult,
                   lastStatusChange := t'.lastStatusChange)
       && t'.lastStatusChange == Some(StatusChange(t.revision + 1, Some(t.status), to,
                                                   Provenance(caller.agentID, draw.now)))
  }

  function ShownBy(r: Records, id: string): Option<string> {
    match TaskOf(r, id) case None => None case Some(t) => t.currentResult
  }

  ghost predicate TaskChange(cmd: Command, caller: Caller, draw: Draw, r: Records, r': Records, e: Event)
    requires cmd.CreateTask? || cmd.TransitionTask? || cmd.ReportResult?
  {
    match cmd
    case CreateTask(id, title, assignee) =>
      && Says(e, draw, "TaskCreated", [id]) && r' == r.(tasks := r'.tasks) && Joined(r.tasks, r'.tasks)
      && r'.tasks[|r.tasks|] == Task(id, title, assignee, Todo, 1, None, Provenance(caller.agentID, draw.now),
                                     Some(StatusChange(1, None, Todo, Provenance(caller.agentID, draw.now))))
    case TransitionTask(id, from, to, _) =>
      && Says(e, draw, "TaskTransitioned", [id]) && r' == r.(tasks := r'.tasks)
      && TaskMoved(r, r', id, to, caller, draw)
      && ShownBy(r', id) == (if from == Done && to == Todo then None else ShownBy(r, id))
    case ReportResult(id, resultID, _, summary, artifacts) =>
      && Says(e, draw, "TaskResultReported", [id, resultID]) && r' == r.(tasks := r'.tasks, results := r'.results)
      && TaskMoved(r, r', id, AwaitingReview, caller, draw) && ShownBy(r', id) == Some(resultID)
      && Joined(r.results, r'.results)
      && r'.results[|r.results|] == TaskResult(resultID, id, summary, artifacts, Provenance(caller.agentID, draw.now),
                                               Pending, "", None)
  }

  /** A decision: the task's edge, and the verdict on that one result. */
  ghost predicate DecisionChange(
    id: string, resultID: string, verdict: Decision, reason: string, to: TaskStatus, caller: Caller, draw: Draw,
    r: Records, r': Records)
  {
    var j := Find(r.results, ResultID, resultID);
    && r' == r.(tasks := r'.tasks, results := r'.results)
    && TaskMoved(r, r', id, to, caller, draw) && ShownBy(r', id) == ShownBy(r, id)
    && OnlyThis(r.results, r'.results, j)
    && r'.results[j.value] == r.results[j.value].(decision := verdict, decisionReason := reason,
                                                  decisionProvenance := Some(Provenance(caller.agentID, draw.now)))
  }

  ghost predicate WorkspaceChange(cmd: Command, caller: Caller, draw: Draw, r: Records, r': Records, e: Event)
    requires cmd.RegisterAgent? || cmd.UpdateAgent? || cmd.ApproveProfile? || cmd.SendMessage?
  {
    match cmd
    case RegisterAgent(id, name, profile) =>
      && Says(e, draw, "AgentRegistered", [id]) && r' == r.(agents := r'.agents) && Joined(r.agents, r'.agents)
      && r'.agents[|r.agents|] == Agent(id, name, profile, Provenance(caller.agentID, draw.now), None)
    case UpdateAgent(id, name, profile) =>
      var i := Find(r.agents, AgentID, id);
      && Says(e, draw, "AgentUpdated", [id]) && r' == r.(agents := r'.agents) && OnlyThis(r.agents, r'.agents, i)
      && var a, a' := r.agents[i.value], r'.agents[i.value];
         && a'.id == a.id && a'.provenance == a.provenance
         && a'.displayName == (if name.Some? then name.value else a.displayName)
         && a'.profileID == (if profile.Some? then profile.value else a.profileID)
         && a'.lastUpdated == Some(Provenance(caller.agentID, draw.now))
    case ApproveProfile(id, args) =>
      && Says(e, draw, "ProfileApproved", [id]) && r' == r.(profiles := r'.profiles) && Joined(r.profiles, r'.profiles)
      && r'.profiles[|r.profiles|] == Profile(id, args, Provenance(caller.agentID, draw.now))
    case SendMessage(id, sender, recipient, kind, body, about, replyTo) =>
      && Says(e, draw, "MessageQueued", [id]) && r' == r.(messages := r'.messages) && Joined(r.messages, r'.messages)
      && r'.messages[|r.messages|] == Message(id, sender, recipient, kind, body, draw.now, about, replyTo,
                                              Provenance(caller.agentID, draw.now), Some(draw.now), None,
                                                  None, "", None)
  }

  /** One fact of one message is there, dated now; the rest of it is as it was. */
  ghost predicate FactChange(cmd: Command, caller: Caller, draw: Draw, r: Records, r': Records, e: Event)
    requires cmd.Acknowledge? || cmd.RecordPublished? || cmd.RecordProcessed?
  {
    var i := Find(r.messages, MessageID, cmd.messageID);
    && r' == r.(messages := r'.messages) && OnlyThis(r.messages, r'.messages, i)
    && var m, m' := r.messages[i.value], r'.messages[i.value];
       match cmd
       case Acknowledge(id) =>
         Says(e, draw, "MessageAcknowledged", [id]) && m.acknowledgedAt.None?
         && m' == m.(acknowledgedBy := caller.agentID, acknowledgedAt := Some(draw.now))
       case RecordPublished(id) =>
         Says(e, draw, "MessagePublished", [id]) && m.publishedAt.None? && m' == m.(publishedAt := Some(draw.now))
       case RecordProcessed(id) =>
         Says(e, draw, "MessageProcessed", [id]) && m.processedAt.None? && m' == m.(processedAt := Some(draw.now))
  }

  /** The first operation of this ID, if there is one, and no other, is as said. */
  ghost predicate OperationSet(
    r: Records, r': Records, id: string, state: OperationState, completedAt: Option<int>, outcome: string)
  {
    var o := Find(r.operations, OperationID, id);
    if o.None? then r'.operations == r.operations
    else
      && OnlyThis(r.operations, r'.operations, o)
      && r'.operations[o.value] ==
         r.operations[o.value].(state := state, completedAt := completedAt, outcome := outcome)
  }

  ghost predicate RunChange(cmd: Command, caller: Caller, draw: Draw, r: Records, r': Records, e: Event)
    requires cmd.StartMarker? || cmd.StartObserved? || cmd.StopIntent? || cmd.StopObserved? || cmd.ReconcileRun?
  {
    var i := Find(r.runs, RunID, cmd.runID);
    && r' == r.(runs := r'.runs, operations := r'.operations) && OnlyThis(r.runs, r'.runs, i)
    && var run, run', start := r.runs[i.value], r'.runs[i.value], OperationOf(r, cmd.runID + "-start");
       match cmd
       case StartMarker(id) =>
         && Says(e, draw, "RunDispatchAttempted", [id])
         && run.dispatchAttemptedAt.None? && run.state == Starting
            && run' == run.(dispatchAttemptedAt := Some(draw.now))
         && (start.Some? ==>
            OperationSet(r, r', id + "-start", OpRunning, start.value.completedAt, start.value.outcome))
         && (start.None? ==> r'.operations == r.operations)
       case StartObserved(id, None) =>
         && Says(e, draw, "RunStarted", [id]) && run' == run.(state := Running, startedAt := Some(draw.now))
         && OperationSet(r, r', id + "-start", OpSucceeded, Some(draw.now), "Started")
       case StartObserved(id, Some(reason)) =>
         && Says(e, draw, "RunExited", [id])
         && run' == run.(state := Exited, exitedAt := Some(draw.now), exitReason := reason)
         && OperationSet(r, r', id + "-start", OpFailed, Some(draw.now), reason)
       case StopIntent(id, _) =>
         && Says(e, draw, "RunStopping", [id]) && run' == run.(state := Stopping)
         && Joined(r.operations, r'.operations)
         && r'.operations[|r.operations|] == Operation(id + "-stop", id, "StopRun", OpRunning, draw.now, None, "")
       case StopObserved(id, true) =>
         && Says(e, draw, "RunRecoveryRequired", [id]) && run' == run.(state := RecoveryNeeded)
         && OperationSet(r, r', id + "-stop", OpRecoveryNeeded, Some(draw.now), "RecoveryRequired")
       case StopObserved(id, false) =>
         && Says(e, draw, "RunExited", [id])
         && run' == run.(state := Exited, exitedAt := Some(draw.now), exitReason := "stopped")
         && OperationSet(r, r', id + "-stop", OpSucceeded, Some(draw.now), "Stopped")
       case ReconcileRun(id) =>
         && Says(e, draw, "RunRecoveryRequired", [id]) && run' == run.(state := RecoveryNeeded)
         && (start.Some? && (start.value.state == OpPending || start.value.state == OpRunning) ==>
               OperationSet(r, r', id + "-start", OpRecoveryNeeded, Some(draw.now), "RecoveryRequired"))
         && (start.None? || (start.value.state != OpPending && start.value.state != OpRunning) ==>
               r'.operations == r.operations)
  }

  function OperationOf(r: Records, id: string): Option<Operation> { Lookup(r.operations, OperationID, id) }

  ghost predicate StartChange(cmd: Command, caller: Caller, draw: Draw, r: Records, r': Records, e: Event)
    requires cmd.StartIntent?
  {
    && Says(e, draw, "RunStarting", [cmd.runID])
    && r' == r.(runs := r'.runs, operations := r'.operations)
    && Joined(r.runs, r'.runs) && Joined(r.operations, r'.operations)
    && r'.runs[|r.runs|] == Run(cmd.runID, cmd.agentID, cmd.profileID, Starting,
                                Provenance(caller.agentID, draw.now), None, None, None, "")
    && r'.operations[|r.operations|] ==
       Operation(cmd.runID + "-start", cmd.runID, "StartRun", OpPending, draw.now, None, "")
  }

  /** The change this command makes, and the event that tells of it. */
  ghost predicate Announces(cmd: Command, caller: Caller, draw: Draw, r: Records, r': Records, e: Event) {
    match cmd
    case AcceptResult(id, resultID, _, _) =>
      Says(e, draw, "TaskResultAccepted", [id, resultID])
      && DecisionChange(id, resultID, Accepted, "", Done, caller, draw, r, r')
    case RejectResult(id, resultID, _, reason) =>
      Says(e, draw, "TaskResultRejected", [id, resultID])
      && DecisionChange(id, resultID, Rejected, reason, Doing, caller, draw, r, r')
    case CreateTask(_, _, _) => TaskChange(cmd, caller, draw, r, r', e)
    case TransitionTask(_, _, _, _) => TaskChange(cmd, caller, draw, r, r', e)
    case ReportResult(_, _, _, _, _) => TaskChange(cmd, caller, draw, r, r', e)
    case RegisterAgent(_, _, _) => WorkspaceChange(cmd, caller, draw, r, r', e)
    case UpdateAgent(_, _, _) => WorkspaceChange(cmd, caller, draw, r, r', e)
    case ApproveProfile(_, _) => WorkspaceChange(cmd, caller, draw, r, r', e)
    case SendMessage(_, _, _, _, _, _, _) => WorkspaceChange(cmd, caller, draw, r, r', e)
    case Acknowledge(_) => FactChange(cmd, caller, draw, r, r', e)
    case RecordPublished(_) => FactChange(cmd, caller, draw, r, r', e)
    case RecordProcessed(_) => FactChange(cmd, caller, draw, r, r', e)
    case StartIntent(_, _, _, _, _) => StartChange(cmd, caller, draw, r, r', e)
    case _ => RunChange(cmd, caller, draw, r, r', e)
  }

  /* ---------- What a successful command leaves ---------- */

  /** Nothing, silently, if its fact was there; else its change and one event. */
  ghost predicate Carries(cmd: Command, caller: Caller, draw: Draw, r: Records, r': Records, events: seq<Event>) {
    if Quiet(cmd, r) then r' == r && events == []
    else |events| == 1 && events[0].revision == 0 && Announces(cmd, caller, draw, r, r', events[0])
  }

  lemma CreateCarries(cmd: Command, caller: Caller, draw: Draw, r: Records)
    requires cmd.CreateTask? && Apply(cmd, caller, draw, r).Ok?
    ensures var (r', events) := Apply(cmd, caller, draw, r).value; Carries(cmd, caller, draw, r, r', events)
  {
  }

  lemma TransitionCarries(cmd: Command, caller: Caller, draw: Draw, r: Records)
    requires cmd.TransitionTask? && Apply(cmd, caller, draw, r).Ok?
    ensures var (r', events) := Apply(cmd, caller, draw, r).value; Carries(cmd, caller, draw, r, r', events)
  {
    var i := Find(r.tasks, TaskID, cmd.taskID).value;
    var r' := Apply(cmd, caller, draw, r).value.0;
    assert r'.tasks == r.tasks[i := r'.tasks[i]];
    FoundStill(r.tasks, r'.tasks, TaskID, cmd.taskID);
    hide Find;
  }

  lemma ReportCarries(cmd: Command, caller: Caller, draw: Draw, r: Records)
    requires cmd.ReportResult? && Apply(cmd, caller, draw, r).Ok?
    ensures var (r', events) := Apply(cmd, caller, draw, r).value; Carries(cmd, caller, draw, r, r', events)
  {
    var i := Find(r.tasks, TaskID, cmd.taskID).value;
    var r' := Apply(cmd, caller, draw, r).value.0;
    assert r'.tasks == r.tasks[i := r'.tasks[i]];
    FoundStill(r.tasks, r'.tasks, TaskID, cmd.taskID);
    hide Find;
  }

  /** What a decision's mutation sets, by position. */
  lemma DecisionSets(
    id: string, resultID: string, expected: nat, verdict: Decision, reason: string, to: TaskStatus, kind: string,
    caller: Caller, draw: Draw, r: Records)
    requires ApplyDecision(id, resultID, expected, verdict, reason, to, kind, caller, draw, r).Ok?
    ensures var (r', events) := ApplyDecision(id, resultID, expected, verdict, reason, to, kind, caller, draw, r).value;
            var i, j := Find(r.tasks, TaskID, id), Find(r.results, ResultID, resultID);
            && i.Some? && j.Some? && |events| == 1 && events[0].revision == 0
            && Says(events[0], draw, kind, [id, resultID])
            && r' == r.(tasks :=
               r.tasks[i.value := Moved(r.tasks[i.value], to, r.tasks[i.value].currentResult, caller, draw)],
                        results := r.results[j.value := r.results[j.value].(
                          decision := verdict, decisionReason := reason,
                          decisionProvenance := Some(Provenance(caller.agentID, draw.now)))])
  {
    hide Find;
  }

  lemma DecisionChanges(
    id: string, resultID: string, verdict: Decision, reason: string, to: TaskStatus, caller: Caller, draw: Draw,
    r: Records, r': Records, i: nat, j: nat)
    requires Find(r.tasks, TaskID, id) == Some(i) && Find(r.results, ResultID, resultID) == Some(j)
    requires r' == r.(tasks := r.tasks[i := Moved(r.tasks[i], to, r.tasks[i].currentResult, caller, draw)],
                      results := r.results[j := r.results[j].(
                        decision := verdict, decisionReason := reason,
                        decisionProvenance := Some(Provenance(caller.agentID, draw.now)))])
    ensures DecisionChange(id, resultID, verdict, reason, to, caller, draw, r, r')
  {
    FoundStill(r.tasks, r'.tasks, TaskID, id);
    hide Find;
  }

  lemma DecisionCarries(cmd: Command, caller: Caller, draw: Draw, r: Records)
    requires (cmd.AcceptResult? || cmd.RejectResult?) && Apply(cmd, caller, draw, r).Ok?
    ensures var (r', events) := Apply(cmd, caller, draw, r).value; Carries(cmd, caller, draw, r, r', events)
  {
    var r' := Apply(cmd, caller, draw, r).value.0;
    hide Find, ApplyDecision, DecisionChange, Says;
    var (verdict, reason, to, kind) :=
      if cmd.AcceptResult? then (Accepted, "", Done, "TaskResultAccepted")
      else (Rejected, cmd.reason, Doing, "TaskResultRejected");
    DecisionSets(cmd.taskID, cmd.resultID, cmd.expected, verdict, reason, to, kind, caller, draw, r);
    DecisionChanges(cmd.taskID, cmd.resultID, verdict, reason, to, caller, draw, r, r',
                    Find(r.tasks, TaskID, cmd.taskID).value, Find(r.results, ResultID, cmd.resultID).value);
  }

  lemma AgentCarries(cmd: Command, caller: Caller, draw: Draw, r: Records)
    requires (cmd.RegisterAgent? || cmd.UpdateAgent? || cmd.ApproveProfile?) && Apply(cmd, caller, draw, r).Ok?
    ensures var (r', events) := Apply(cmd, caller, draw, r).value; Carries(cmd, caller, draw, r, r', events)
  {
  }

  lemma SendCarries(cmd: Command, caller: Caller, draw: Draw, r: Records)
    requires cmd.SendMessage? && Apply(cmd, caller, draw, r).Ok?
    ensures var (r', events) := Apply(cmd, caller, draw, r).value; Carries(cmd, caller, draw, r, r', events)
  {
  }

  lemma FactCarries(cmd: Command, caller: Caller, draw: Draw, r: Records)
    requires (cmd.Acknowledge? || cmd.RecordPublished? || cmd.RecordProcessed?) && Apply(cmd, caller, draw, r).Ok?
    ensures var (r', events) := Apply(cmd, caller, draw, r).value; Carries(cmd, caller, draw, r, r', events)
  {
  }

  lemma StartCarries(cmd: Command, caller: Caller, draw: Draw, r: Records)
    requires cmd.StartIntent? && Apply(cmd, caller, draw, r).Ok?
    ensures var (r', events) := Apply(cmd, caller, draw, r).value; Carries(cmd, caller, draw, r, r', events)
  {
  }

  lemma MarkerCarries(cmd: Command, caller: Caller, draw: Draw, r: Records)
    requires cmd.StartMarker? && Apply(cmd, caller, draw, r).Ok?
    ensures var (r', events) := Apply(cmd, caller, draw, r).value; Carries(cmd, caller, draw, r, r', events)
  {
    hide Find;
  }

  lemma ObservedCarries(cmd: Command, caller: Caller, draw: Draw, r: Records)
    requires cmd.StartObserved? && Apply(cmd, caller, draw, r).Ok?
    ensures var (r', events) := Apply(cmd, caller, draw, r).value; Carries(cmd, caller, draw, r, r', events)
  {
    hide Find;
  }

  lemma StopIntentCarries(cmd: Command, caller: Caller, draw: Draw, r: Records)
    requires cmd.StopIntent? && Apply(cmd, caller, draw, r).Ok?
    ensures var (r', events) := Apply(cmd, caller, draw, r).value; Carries(cmd, caller, draw, r, r', events)
  {
    hide Find;
  }

  lemma StopObservedCarries(cmd: Command, caller: Caller, draw: Draw, r: Records)
    requires cmd.StopObserved? && Apply(cmd, caller, draw, r).Ok?
    ensures var (r', events) := Apply(cmd, caller, draw, r).value; Carries(cmd, caller, draw, r, r', events)
  {
    hide Find;
  }

  lemma ReconcileCarries(cmd: Command, caller: Caller, draw: Draw, r: Records)
    requires cmd.ReconcileRun? && Apply(cmd, caller, draw, r).Ok?
    ensures var (r', events) := Apply(cmd, caller, draw, r).value; Carries(cmd, caller, draw, r, r', events)
  {
    hide Find;
  }

  /** Replacing a record by one with its ID leaves every lookup where it was. */
  lemma FoundStill<T>(s: seq<T>, s': seq<T>, id: T -> string, wanted: string)
    requires |s'| == |s| && forall k :: 0 <= k < |s| ==> id(s'[k]) == id(s[k])
    ensures Find(s', id, wanted) == Find(s, id, wanted)
  {
    FindIsStable(s, s', id, wanted);
    FindIsStable(s', s, id, wanted);
  }

  /** THE effect theorem: a successful command whose fact was there already changes
      nothing and is silent; any other makes exactly its own change and carries
      exactly one event, which bears the drawn ID and tells of it. */
  lemma CommandCarriesItsEvent(cmd: Command, caller: Caller, draw: Draw, r: Records)
    requires Apply(cmd, caller, draw, r).Ok?
    ensures var (r', events) := Apply(cmd, caller, draw, r).value; Carries(cmd, caller, draw, r, r', events)
  {
    hide Carries, Apply;
    match cmd {
      case CreateTask(_, _, _) => CreateCarries(cmd, caller, draw, r);
      case TransitionTask(_, _, _, _) => TransitionCarries(cmd, caller, draw, r);
      case ReportResult(_, _, _, _, _) => ReportCarries(cmd, caller, draw, r);
      case AcceptResult(_, _, _, _) => DecisionCarries(cmd, caller, draw, r);
      case RejectResult(_, _, _, _) => DecisionCarries(cmd, caller, draw, r);
      case RegisterAgent(_, _, _) => AgentCarries(cmd, caller, draw, r);
      case UpdateAgent(_, _, _) => AgentCarries(cmd, caller, draw, r);
      case ApproveProfile(_, _) => AgentCarries(cmd, caller, draw, r);
      case SendMessage(_, _, _, _, _, _, _) => SendCarries(cmd, caller, draw, r);
      case Acknowledge(_) => FactCarries(cmd, caller, draw, r);
      case RecordPublished(_) => FactCarries(cmd, caller, draw, r);
      case RecordProcessed(_) => FactCarries(cmd, caller, draw, r);
      case StartIntent(_, _, _, _, _) => StartCarries(cmd, caller, draw, r);
      case StartMarker(_) => MarkerCarries(cmd, caller, draw, r);
      case StartObserved(_, _) => ObservedCarries(cmd, caller, draw, r);
      case StopIntent(_, _) => StopIntentCarries(cmd, caller, draw, r);
      case StopObserved(_, _) => StopObservedCarries(cmd, caller, draw, r);
      case ReconcileRun(_) => ReconcileCarries(cmd, caller, draw, r);
    }
  }

  /* ---------- Events and changes ---------- */

  /** The commands that record what they are told over what is there. */
  predicate Overwrites(cmd: Command) {
    cmd.UpdateAgent? || cmd.StartObserved? || cmd.StopObserved?
  }

  /** A change is never silent, silence is never a change, and an event without one
      comes only from a command that wrote again what was there. */
  lemma ChangesAreAnnounced(cmd: Command, caller: Caller, draw: Draw, r: Records)
    requires Apply(cmd, caller, draw, r).Ok?
    ensures var (r', events) := Apply(cmd, caller, draw, r).value;
            && |events| <= 1 && (events == [] <==> Quiet(cmd, r))
            && (r' != r ==> |events| == 1 && Announces(cmd, caller, draw, r, r', events[0]))
            && (events == [] ==> r' == r)
            && (|events| == 1 && r' == r ==> Overwrites(cmd))
  {
    CommandCarriesItsEvent(cmd, caller, draw, r);
    var (r', events) := Apply(cmd, caller, draw, r).value;
    hide Apply;
    if !Quiet(cmd, r) && !Overwrites(cmd) {
      AnnouncedChangeIsReal(cmd, caller, draw, r, r', events[0]);
    }
    hide Announces;
  }

  lemma AnnouncedChangeIsReal(cmd: Command, caller: Caller, draw: Draw, r: Records, r': Records, e: Event)
    requires Announces(cmd, caller, draw, r, r', e) && !Quiet(cmd, r) && !Overwrites(cmd)
    ensures r' != r
  {
    if cmd.ReconcileRun? {
      assert RunOf(r, cmd.runID).Some?;
    }
    hide Find;
  }

  /** Such an event: an agent renamed to its own name, twice at one instant. */
  lemma RenamedToItself(id: string, name: string, claim: Provenance, eventID: string)
    ensures var agent := Agent(id, name, "", claim, Some(claim));
            var r := NO_RECORDS.(agents := [agent]);
            Apply(UpdateAgent(id, Some(name), None), Caller(claim.claimedAgent, true),
                Draw(claim.recordedAt, Some(eventID)), r)
            == Ok((r, [Event(eventID, "AgentUpdated", [id], 0)]))
  {
    var agent := Agent(id, name, "", claim, Some(claim));
    assert AgentID(agent) == id && Find([agent], AgentID, id) == Some(0);
    assert [agent][0 := agent] == [agent];
  }

  /** The kind of event and its subjects, read off the edge a task took. */
  predicate NamesEdge(t: Task, t': Task, e: Event) {
    match (t.status, t'.status)
    case (AwaitingReview, Done) =>
      e.kind == "TaskResultAccepted" && t.currentResult.Some? && e.subjects == [t.id, t.currentResult.value]
    case (AwaitingReview, Doing) =>
      e.kind == "TaskResultRejected" && t.currentResult.Some? && e.subjects == [t.id, t.currentResult.value]
    case (Doing, AwaitingReview) =>
      e.kind == "TaskResultReported" && t'.currentResult.Some? && e.subjects == [t.id, t'.currentResult.value]
    case _ => e.kind == "TaskTransitioned" && e.subjects == [t.id]
  }

  lemma EventNamesEdge(cmd: Command, caller: Caller, draw: Draw, r: Records, i: nat)
    requires Refusal(cmd, caller).None? && Apply(cmd, caller, draw, r).Ok? && i < |r.tasks|
    requires i < |Apply(cmd, caller, draw, r).value.0.tasks| ==>
             Apply(cmd, caller, draw, r).value.0.tasks[i] != r.tasks[i]
    ensures var (r', events) := Apply(cmd, caller, draw, r).value;
            i < |r'.tasks| && |events| == 1 && NamesEdge(r.tasks[i], r'.tasks[i], events[0])
  {
    Accountability.CommandMovesTasks(cmd, caller, draw, r);
    CommandCarriesItsEvent(cmd, caller, draw, r);
    var (r', events) := Apply(cmd, caller, draw, r).value;
    assert r'.tasks[i] != r.tasks[i] && r' != r;
    hide Apply, Refusal, Announces, Accountability.Authorized;
    EdgeOf(cmd, caller, draw, r, r', events[0], r.tasks[i], r'.tasks[i]);
  }

  lemma EdgeOf(cmd: Command, caller: Caller, draw: Draw, r: Records, r': Records, e: Event, t: Task, t': Task)
    requires Announces(cmd, caller, draw, r, r', e) && Accountability.Authorized(cmd, caller, t, t')
    ensures NamesEdge(t, t', e)
  {
    hide Find, TaskMoved, DecisionChange, OnlyThis, FactChange, RunChange, StartChange, WorkspaceChange,
        Joined, ShownBy;
  }
}
