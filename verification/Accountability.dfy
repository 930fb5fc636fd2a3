/** Who is answerable for what a history leaves: every status, verdict, message
    and run is traced back to the one commit that made it and to its caller's
    authority at that moment. */
module Accountability {
  import opened Results
  import opened Domain
  import opened StateStore
  import opened Commands
  import opened TaskLifecycle
  import opened ExactlyOnce
  import RunDispatch

  /** The records after the first `n` effective commits. */
  function At(log: Log, n: nat): Records
    requires n <= |log|
  {
    RecordsOf(log[..n])
  }

  /** Commit `n` of the history ran this command, and this is what it left. */
  ghost predicate Ran(reviewers: set<string>, log: Log, n: nat, cmd: Command, caller: Caller, draw: Draw)
    requires n < |log|
  {
    && Runs(log[n], reviewers, cmd, caller, draw)
    && Apply(cmd, caller, draw, At(log, n)).Ok?
    && At(log, n + 1) == Apply(cmd, caller, draw, At(log, n)).value.0
  }

  /** Whatever changed, one command changed it. */
  lemma Cause(reviewers: set<string>, log: Log, n: nat) returns (cmd: Command, caller: Caller, draw: Draw)
    requires EngineLog(log, reviewers) && n < |log| && At(log, n + 1) != At(log, n)
    ensures Ran(reviewers, log, n, cmd, caller, draw)
  {
    assert log[..n + 1][..n] == log[..n] && FromEngine(log[n], reviewers);
    cmd, caller, draw :| Runs(log[n], reviewers, cmd, caller, draw);
  }

  /* ---------- Task status ---------- */

  /** A transition command for this very edge. */
  predicate Transits(cmd: Command, t: Task, t': Task) {
    cmd.TransitionTask? && cmd.taskID == t.id && cmd.from == t.status && cmd.to == t'.status
  }

  /** The whole diagram: the seven edges a task can take, and for each the command
      it needs, the authority behind it, and what becomes of the shown result. */
  predicate Authorized(cmd: Command, caller: Caller, t: Task, t': Task) {
    match (t.status, t'.status)
    case (Todo, Doing) => Transits(cmd, t, t') && t'.currentResult == t.currentResult
    case (Doing, Blocked) => Transits(cmd, t, t') && cmd.reason != "" && t'.currentResult == t.currentResult
    case (Blocked, Doing) => Transits(cmd, t, t') && t'.currentResult == t.currentResult
    case (Doing, AwaitingReview) =>
      cmd.ReportResult? && cmd.taskID == t.id && caller.agentID == t.assignee
      && cmd.expected == t.revision && cmd.artifacts != [] && t'.currentResult == Some(cmd.resultID)
    case (AwaitingReview, Done) =>
      cmd.AcceptResult? && cmd.taskID == t.id && caller.isHumanReviewer
      && cmd.expected == t.revision && t.currentResult == t'.currentResult == Some(cmd.resultID)
    case (AwaitingReview, Doing) =>
      cmd.RejectResult? && cmd.taskID == t.id && caller.isHumanReviewer && cmd.reason != ""
      && cmd.expected == t.revision && t.currentResult == t'.currentResult == Some(cmd.resultID)
    case (Done, Todo) =>
      Transits(cmd, t, t') && caller.isHumanReviewer && cmd.reason != "" && t'.currentResult == None
    case _ => false
  }

  /** The change is recorded on the task, one revision on, with its author. */
  predicate Recorded(caller: Caller, draw: Draw, t: Task, t': Task) {
    && t'.revision == t.revision + 1
    && t'.lastStatusChange ==
       Some(StatusChange(t.revision + 1, Some(t.status), t'.status, Provenance(caller.agentID, draw.now)))
  }

  /** Earlier tasks stay or move with authority, and a new one starts in Todo. */
  predicate TasksMove(cmd: Command, caller: Caller, draw: Draw, r: Records, r': Records) {
    && |r.tasks| <= |r'.tasks|
    && (forall i :: 0 <= i < |r.tasks| ==>
          r'.tasks[i] == r.tasks[i]
              || (Authorized(cmd, caller, r.tasks[i], r'.tasks[i]) && Recorded(caller, draw, r.tasks[i], r'.tasks[i])))
    && (forall i :: |r.tasks| <= i < |r'.tasks| ==> r'.tasks[i].status == Todo)
  }

  /** One task replaced by an authorized move of itself. */
  lemma OneTaskMoves(cmd: Command, caller: Caller, draw: Draw, r: Records, r': Records, i: nat, t: Task)
    requires i < |r.tasks| && r'.tasks == r.tasks[i := t]
    requires Authorized(cmd, caller, r.tasks[i], t) && Recorded(caller, draw, r.tasks[i], t)
    ensures TasksMove(cmd, caller, draw, r, r')
  {
    hide Authorized, Recorded;
  }

  lemma TransitionMovesTasks(cmd: Command, caller: Caller, draw: Draw, r: Records)
    requires cmd.TransitionTask? && Refusal(cmd, caller).None? && ApplyTransition(cmd, caller, draw, r).Ok?
    ensures TasksMove(cmd, caller, draw, r, ApplyTransition(cmd, caller, draw, r).value.0)
  {
    var i, r' := Find(r.tasks, TaskID, cmd.taskID).value, ApplyTransition(cmd, caller, draw, r).value.0;
    assert TaskID(r.tasks[i]) == cmd.taskID;
    OneTaskMoves(cmd, caller, draw, r, r', i, r'.tasks[i]);
  }

  lemma ReportMovesTasks(cmd: Command, caller: Caller, draw: Draw, r: Records)
    requires cmd.ReportResult? && Refusal(cmd, caller).None? && ApplyReport(cmd, caller, draw, r).Ok?
    ensures TasksMove(cmd, caller, draw, r, ApplyReport(cmd, caller, draw, r).value.0)
  {
    var i, r' := Find(r.tasks, TaskID, cmd.taskID).value, ApplyReport(cmd, caller, draw, r).value.0;
    assert TaskID(r.tasks[i]) == cmd.taskID;
    OneTaskMoves(cmd, caller, draw, r, r', i, r'.tasks[i]);
  }

  lemma DecisionMovesTasks(cmd: Command, caller: Caller, draw: Draw, r: Records)
    requires (cmd.AcceptResult? || cmd.RejectResult?) && Refusal(cmd, caller).None? && Apply(cmd, caller, draw, r).Ok?
    ensures TasksMove(cmd, caller, draw, r, Apply(cmd, caller, draw, r).value.0)
  {
    var (i, j) := LoadPendingDecision(r, cmd.taskID, cmd.resultID, cmd.expected).value;
    var r' := Apply(cmd, caller, draw, r).value.0;
    assert TaskID(r.tasks[i]) == cmd.taskID;
    OneTaskMoves(cmd, caller, draw, r, r', i, r'.tasks[i]);
  }

  lemma CommandMovesTasks(cmd: Command, caller: Caller, draw: Draw, r: Records)
    requires Refusal(cmd, caller).None? && Apply(cmd, caller, draw, r).Ok?
    ensures TasksMove(cmd, caller, draw, r, Apply(cmd, caller, draw, r).value.0)
  {
    hide Authorized, Recorded, Refusal, ApplyTransition, ApplyReport, ApplyDecision;
    if cmd.CreateTask? {
      assert Apply(cmd, caller, draw, r) == ApplyCreateTask(cmd, caller, draw, r);
    } else if cmd.TransitionTask? {
      TransitionMovesTasks(cmd, caller, draw, r);
    } else if cmd.ReportResult? {
      ReportMovesTasks(cmd, caller, draw, r);
    } else if cmd.AcceptResult? || cmd.RejectResult? {
      DecisionMovesTasks(cmd, caller, draw, r);
    } else {
      Footprint(cmd, caller, draw, r);
    }
  }

  /** THE authority theorem: whenever two consecutive versions of any history show
      a task differently, the commit between them ran the command, and had the
      caller, that the two statuses call for. */
  lemma EveryStatusChangeIsAuthorized(reviewers: set<string>, log: Log, n: nat, i: nat)
    returns (cmd: Command, caller: Caller, draw: Draw)
    requires EngineLog(log, reviewers) && n < |log| && i < |At(log, n).tasks|
    requires i < |At(log, n + 1).tasks| ==> At(log, n + 1).tasks[i] != At(log, n).tasks[i]
    ensures Ran(reviewers, log, n, cmd, caller, draw)
    ensures i < |At(log, n + 1).tasks|
    ensures Authorized(cmd, caller, At(log, n).tasks[i], At(log, n + 1).tasks[i])
    ensures Recorded(caller, draw, At(log, n).tasks[i], At(log, n + 1).tasks[i])
  {
    cmd, caller, draw := Cause(reviewers, log, n);
    hide Apply, Authorized, Recorded;
    CommandMovesTasks(cmd, caller, draw, At(log, n));
  }

  /* ---------- Finished work ---------- */

  /** The task reads the same after commit `k` and up to `n`. */
  predicate UnchangedSince(log: Log, i: nat, k: nat, n: nat) {
    && k <= n <= |log| && i < |At(log, n).tasks|
    && forall m :: k <= m <= n ==> i < |At(log, m).tasks| && At(log, m).tasks[i] == At(log, n).tasks[i]
  }

  /** Commit `k` moved task `i` out of `status`, as it has read since. */
  ghost predicate MovedAt(
    reviewers: set<string>, log: Log, i: nat, k: nat, n: nat, cmd: Command, caller: Caller, draw: Draw)
  {
    && k < n <= |log| && UnchangedSince(log, i, k + 1, n)
    && i < |At(log, k).tasks|
    && Ran(reviewers, log, k, cmd, caller, draw)
    && Authorized(cmd, caller, At(log, k).tasks[i], At(log, n).tasks[i])
    && Recorded(caller, draw, At(log, k).tasks[i], At(log, n).tasks[i])
  }

  /** A task not in Todo was brought where it is by its last change. */
  lemma {:induction false} LastMove(reviewers: set<string>, log: Log, n: nat, i: nat)
    returns (k: nat, cmd: Command, caller: Caller, draw: Draw)
    requires EngineLog(log, reviewers) && n <= |log| && i < |At(log, n).tasks| && At(log, n).tasks[i].status != Todo
    ensures MovedAt(reviewers, log, i, k, n, cmd, caller, draw)
  {
    hide Authorized, Recorded, Apply, RecordsOf;
    if n == 0 {
      NothingYet(log);
      assert false;
    } else if i < |At(log, n - 1).tasks| && At(log, n - 1).tasks[i] == At(log, n).tasks[i] {
      k, cmd, caller, draw := LastMove(reviewers, log, n - 1, i);
    } else {
      if |At(log, n - 1).tasks| <= i {
        NewTaskIsTodo(reviewers, log, n - 1, i);
      }
      k := n - 1;
      cmd, caller, draw := EveryStatusChangeIsAuthorized(reviewers, log, k, i);
    }
  }

  lemma NothingYet(log: Log)
    ensures At(log, 0) == NO_RECORDS
  {
  }

  lemma NewTaskIsTodo(reviewers: set<string>, log: Log, n: nat, i: nat)
    requires EngineLog(log, reviewers) && n < |log| && |At(log, n).tasks| <= i < |At(log, n + 1).tasks|
    ensures At(log, n + 1).tasks[i].status == Todo
  {
    var cmd, caller, draw := Cause(reviewers, log, n);
    CommandMovesTasks(cmd, caller, draw, At(log, n));
  }

  /** THE review theorem over history: a Done task's result was reported at `a`
      by its assignee with artifacts, stood unchanged until a human reviewer
      accepted that very result at `b`, and the task has not changed since. */
  lemma DoneWasReportedAndAccepted(reviewers: set<string>, log: Log, n: nat, i: nat)
    returns (a: nat, report: Command, assignee: Caller, b: nat, accept: Command, reviewer: Caller)
    requires EngineLog(log, reviewers) && n <= |log| && i < |At(log, n).tasks| && At(log, n).tasks[i].status == Done
    ensures a < b < n && UnchangedSince(log, i, a + 1, b) && UnchangedSince(log, i, b + 1, n)
    ensures i < |At(log, a).tasks|
    ensures (exists draw :: Ran(reviewers, log, a, report, assignee, draw))
            && (exists draw :: Ran(reviewers, log, b, accept, reviewer, draw))
    ensures var t, before := At(log, n).tasks[i], At(log, a).tasks[i];
            && report.ReportResult? && report.taskID == before.id && assignee.agentID == before.assignee
            && before.status == Doing && report.artifacts != [] && t.currentResult == Some(report.resultID)
            && log[a].caller == before.assignee
            && accept.AcceptResult? && accept.resultID == report.resultID && accept.expected == before.revision + 1
            && reviewer.isHumanReviewer && log[b].caller in reviewers
  {
    var d, d' := Draw(0, None), Draw(0, None);
    b, accept, reviewer, d := LastMove(reviewers, log, n, i);
    a, report, assignee, d' := LastMove(reviewers, log, b, i);
    hide Apply, RecordsOf;
    assert Ran(reviewers, log, a, report, assignee, d') && Ran(reviewers, log, b, accept, reviewer, d);
  }

  /* ---------- Verdicts ---------- */

  /** The verdict a command gives, if it gives one. */
  predicate Gives(cmd: Command, caller: Caller, draw: Draw, result: TaskResult, result': TaskResult) {
    && (cmd.AcceptResult? || cmd.RejectResult?) && caller.isHumanReviewer && cmd.resultID == result.id
    && result.decision == Pending
    && result' == result.(decision := if cmd.AcceptResult? then Accepted else Rejected,
                          decisionReason := if cmd.RejectResult? then cmd.reason else "",
                          decisionProvenance := Some(Provenance(caller.agentID, draw.now)))
    && (cmd.RejectResult? ==> cmd.reason != "")
  }

  predicate VerdictsMove(cmd: Command, caller: Caller, draw: Draw, r: Records, r': Records) {
    && |r.results| <= |r'.results|
    && (forall j :: 0 <= j < |r.results| ==>
          r'.results[j] == r.results[j] || Gives(cmd, caller, draw, r.results[j], r'.results[j]))
    && (forall j :: |r.results| <= j < |r'.results| ==> r'.results[j].decision == Pending)
  }

  lemma CommandMovesVerdicts(cmd: Command, caller: Caller, draw: Draw, r: Records)
    requires Refusal(cmd, caller).None? && Apply(cmd, caller, draw, r).Ok?
    ensures VerdictsMove(cmd, caller, draw, r, Apply(cmd, caller, draw, r).value.0)
  {
    if cmd.AcceptResult? || cmd.RejectResult? {
      var (_, j) := LoadPendingDecision(r, cmd.taskID, cmd.resultID, cmd.expected).value;
      assert ResultID(r.results[j]) == cmd.resultID;
    } else if cmd.ReportResult? {
      assert Apply(cmd, caller, draw, r) == ApplyReport(cmd, caller, draw, r);
    } else if cmd.TransitionTask? || cmd.CreateTask? {
      assert Apply(cmd, caller, draw, r).value.0.results == r.results;
    } else {
      Footprint(cmd, caller, draw, r);
    }
  }

  /** Every decided result was decided once, at `k`, by a human reviewer's own
      command, and reads today as that command left it. */
  lemma {:induction false} EveryVerdictHasItsReviewer(reviewers: set<string>, log: Log, n: nat, j: nat)
    returns (k: nat, cmd: Command, caller: Caller, draw: Draw)
    requires EngineLog(log, reviewers) && n <= |log| && j < |At(log, n).results|
             && At(log, n).results[j].decision != Pending
    ensures k < n && Ran(reviewers, log, k, cmd, caller, draw) && log[k].caller in reviewers
    ensures j < |At(log, k).results| && Gives(cmd, caller, draw, At(log, k).results[j], At(log, n).results[j])
  {
    hide Apply, RecordsOf;
    if n == 0 {
      NothingYet(log);
      assert false;
    } else if j < |At(log, n - 1).results| && At(log, n - 1).results[j] == At(log, n).results[j] {
      k, cmd, caller, draw := EveryVerdictHasItsReviewer(reviewers, log, n - 1, j);
    } else {
      k := n - 1;
      cmd, caller, draw := Cause(reviewers, log, k);
      CommandMovesVerdicts(cmd, caller, draw, At(log, k));
    }
  }

  /* ---------- Messages ---------- */

  /** The message is what this command asked for, but for facts recorded since. */
  predicate SentBy(cmd: Command, caller: Caller, draw: Draw, m: Message) {
    && cmd.SendMessage? && m.id == cmd.messageID && m.sender == cmd.sender && m.recipient == cmd.recipient
    && m.kind == cmd.kind && m.body == cmd.body && m.taskID == cmd.aboutTask && m.replyTo == cmd.replyTo
    && m.provenance == Provenance(caller.agentID, draw.now) && m.createdAt == draw.now && m.queuedAt == Some(draw.now)
  }

  predicate Registered(r: Records, agentID: string) {
    exists k :: 0 <= k < |r.agents| && r.agents[k].id == agentID
  }

  /** What a message names existed when it was sent. */
  predicate Deliverable(cmd: Command, r: Records)
    requires cmd.SendMessage?
  {
    && Registered(r, cmd.sender) && Registered(r, cmd.recipient)
    && (cmd.aboutTask.Some? ==> exists k :: 0 <= k < |r.tasks| && r.tasks[k].id == cmd.aboutTask.value)
    && (cmd.replyTo.Some? ==> exists k :: 0 <= k < |r.messages| && r.messages[k].id == cmd.replyTo.value)
    && (forall k :: 0 <= k < |r.messages| ==> r.messages[k].id != cmd.messageID)
  }

  lemma SendIsDeliverable(cmd: Command, caller: Caller, draw: Draw, r: Records)
    requires cmd.SendMessage? && ApplySend(cmd, caller, draw, r).Ok?
    ensures Deliverable(cmd, r)
    ensures var r' := ApplySend(cmd, caller, draw, r).value.0;
            |r'.messages| == |r.messages| + 1 && r'.messages[..|r.messages|] == r.messages
            && SentBy(cmd, caller, draw, r'.messages[|r.messages|])
  {
    assert forall k :: 0 <= k < |r.messages| ==> MessageID(r.messages[k]) != cmd.messageID;
    var sender, recipient := Find(r.agents, AgentID, cmd.sender).value, Find(r.agents, AgentID, cmd.recipient).value;
    assert r.agents[sender].id == cmd.sender && r.agents[recipient].id == cmd.recipient;
    if cmd.aboutTask.Some? {
      assert TaskID(r.tasks[Find(r.tasks, TaskID, cmd.aboutTask.value).value]) == cmd.aboutTask.value;
    }
    if cmd.replyTo.Some? {
      assert MessageID(r.messages[Find(r.messages, MessageID, cmd.replyTo.value).value]) == cmd.replyTo.value;
    }
  }

  predicate SameLetter(m: Message, m': Message) {
    m' == m.(publishedAt := m'.publishedAt, processedAt := m'.processedAt,
             acknowledgedBy := m'.acknowledgedBy, acknowledgedAt := m'.acknowledgedAt)
  }

  lemma LetterIsItself(r: Records)
    ensures forall j :: 0 <= j < |r.messages| ==> SameLetter(r.messages[j], r.messages[j])
  {
  }

  lemma OldMessagesStay(cmd: Command, caller: Caller, draw: Draw, r: Records)
    requires Apply(cmd, caller, draw, r).Ok?
    ensures var r' := Apply(cmd, caller, draw, r).value.0;
            && |r.messages| <= |r'.messages| && (!cmd.SendMessage? ==> |r'.messages| == |r.messages|)
            && forall j :: 0 <= j < |r.messages| ==> SameLetter(r.messages[j], r'.messages[j])
  {
    hide SameLetter, ApplyAcknowledge, ApplyDeliveryFact, SentBy, Deliverable;
    assert forall j :: 0 <= j < |r.messages| ==> SameLetter(r.messages[j], r.messages[j]) by { LetterIsItself(r); }
    if cmd.SendMessage? {
      SendIsDeliverable(cmd, caller, draw, r);
      assert forall j :: 0 <= j < |r.messages| ==>
        Apply(cmd, caller, draw, r).value.0.messages[..|r.messages|][j] == r.messages[j];
    } else if ChangesMessages(cmd) {
      FactsLeaveLetters(cmd, caller, draw, r);
    } else {
      Footprint(cmd, caller, draw, r);
    }
  }

  lemma OneLetterChanges(r: Records, r': Records, i: nat, m: Message)
    requires i < |r.messages| && r'.messages == r.messages[i := m] && SameLetter(r.messages[i], m)
    ensures |r'.messages| == |r.messages|
    ensures forall j :: 0 <= j < |r.messages| ==> SameLetter(r.messages[j], r'.messages[j])
  {
  }

  lemma FactsLeaveLetters(cmd: Command, caller: Caller, draw: Draw, r: Records)
    requires (cmd.Acknowledge? || cmd.RecordPublished? || cmd.RecordProcessed?) && Apply(cmd, caller, draw, r).Ok?
    ensures var r' := Apply(cmd, caller, draw, r).value.0;
            |r'.messages| == |r.messages|
            && forall j :: 0 <= j < |r.messages| ==> SameLetter(r.messages[j], r'.messages[j])
  {
    var r' := Apply(cmd, caller, draw, r).value.0;
    var i := Find(r.messages, MessageID, cmd.messageID).value;
    assert r'.messages == r.messages[i := r'.messages[i]];
    OneLetterChanges(r, r', i, r'.messages[i]);
  }

  lemma NewMessageIsSent(cmd: Command, caller: Caller, draw: Draw, r: Records, j: nat)
    requires Apply(cmd, caller, draw, r).Ok? && |r.messages| <= j < |Apply(cmd, caller, draw, r).value.0.messages|
    ensures j == |r.messages| && SentBy(cmd, caller, draw, Apply(cmd, caller, draw, r).value.0.messages[j])
    ensures Deliverable(cmd, r)
  {
    OldMessagesStay(cmd, caller, draw, r);
    SendIsDeliverable(cmd, caller, draw, r);
  }

  /** Every message was sent by one commit, to and from agents registered then,
      and still says exactly what that command asked. */
  lemma {:induction false} EveryMessageWasSent(reviewers: set<string>, log: Log, n: nat, j: nat)
    returns (k: nat, cmd: Command, caller: Caller, draw: Draw)
    requires EngineLog(log, reviewers) && n <= |log| && j < |At(log, n).messages|
    ensures k < n && Ran(reviewers, log, k, cmd, caller, draw) && j == |At(log, k).messages|
    ensures SentBy(cmd, caller, draw, At(log, n).messages[j]) && Deliverable(cmd, At(log, k))
    ensures log[k].caller == At(log, n).messages[j].provenance.claimedAgent
  {
    hide Apply, RecordsOf, Deliverable;
    if n == 0 {
      NothingYet(log);
      assert false;
    } else if At(log, n) == At(log, n - 1) {
      k, cmd, caller, draw := EveryMessageWasSent(reviewers, log, n - 1, j);
    } else {
      k := n - 1;
      cmd, caller, draw := Cause(reviewers, log, k);
      OldMessagesStay(cmd, caller, draw, At(log, k));
      if j < |At(log, k).messages| {
        k, cmd, caller, draw := EveryMessageWasSent(reviewers, log, n - 1, j);
      } else {
        NewMessageIsSent(cmd, caller, draw, At(log, k), j);
      }
    }
  }

  /* ---------- Profiles and runs ---------- */

  /** Profiles are only added, and only by a human reviewer's approval. */
  predicate ProfilesMove(cmd: Command, caller: Caller, draw: Draw, r: Records, r': Records) {
    r'.profiles == r.profiles
    || (cmd.ApproveProfile? && caller.isHumanReviewer && cmd.args != []
        && r'.profiles == r.profiles + [Profile(cmd.profileID, cmd.args, Provenance(caller.agentID, draw.now))])
  }

  lemma CommandMovesProfiles(cmd: Command, caller: Caller, draw: Draw, r: Records)
    requires Refusal(cmd, caller).None? && Apply(cmd, caller, draw, r).Ok?
    ensures ProfilesMove(cmd, caller, draw, r, Apply(cmd, caller, draw, r).value.0)
  {
    if ChangesRuns(cmd) {
      RunsLeaveProfiles(cmd, caller, draw, r);
    } else if ChangesReview(cmd) {
      assert Apply(cmd, caller, draw, r).value.0.profiles == r.profiles;
    } else if ChangesMessages(cmd) {
      assert Apply(cmd, caller, draw, r).value.0.profiles == r.profiles;
    } else {
      assert Apply(cmd, caller, draw, r) == ApplyAgents(cmd, caller, draw, r);
    }
  }

  lemma RunsLeaveProfiles(cmd: Command, caller: Caller, draw: Draw, r: Records)
    requires ChangesRuns(cmd) && Apply(cmd, caller, draw, r).Ok?
    ensures Apply(cmd, caller, draw, r).value.0.profiles == r.profiles
  {
  }

  lemma {:induction false} EveryProfileWasApproved(reviewers: set<string>, log: Log, n: nat, p: nat)
    returns (k: nat, cmd: Command, caller: Caller, draw: Draw)
    requires EngineLog(log, reviewers) && n <= |log| && p < |At(log, n).profiles|
    ensures k < n && Ran(reviewers, log, k, cmd, caller, draw)
    ensures cmd.ApproveProfile? && cmd.args != [] && caller.isHumanReviewer && log[k].caller in reviewers
    ensures At(log, n).profiles[p] == Profile(cmd.profileID, cmd.args, Provenance(caller.agentID, draw.now))
  {
    hide Apply, RecordsOf;
    if n == 0 {
      NothingYet(log);
      assert false;
    } else if At(log, n).profiles == At(log, n - 1).profiles {
      k, cmd, caller, draw := EveryProfileWasApproved(reviewers, log, n - 1, p);
    } else {
      k := n - 1;
      cmd, caller, draw := Cause(reviewers, log, k);
      CommandMovesProfiles(cmd, caller, draw, At(log, k));
      if p < |At(log, k).profiles| {
        k, cmd, caller, draw := EveryProfileWasApproved(reviewers, log, n - 1, p);
      }
    }
  }

  /** What admitting a run demands of the records then. */
  ghost predicate Admissible(cmd: Command, caller: Caller, r: Records, profile: Profile) {
    && cmd.StartIntent? && caller.agentID == cmd.agentID && Registered(r, cmd.agentID)
    && !HasActiveRun(r.runs, cmd.agentID)
    && profile in r.profiles && profile.id == cmd.profileID
    && (cmd.toolExecutable == "" || (profile.args != [] && cmd.toolExecutable == profile.args[0]))
  }

  lemma OnlyStartAddsRuns(cmd: Command, caller: Caller, draw: Draw, r: Records)
    requires Apply(cmd, caller, draw, r).Ok? && |r.runs| < |Apply(cmd, caller, draw, r).value.0.runs|
    ensures cmd.StartIntent?
  {
    if !ChangesRuns(cmd) {
      Footprint(cmd, caller, draw, r);
    }
  }

  lemma NewRunIsAdmissible(cmd: Command, caller: Caller, draw: Draw, r: Records, j: nat) returns (profile: Profile)
    requires Refusal(cmd, caller).None? && Apply(cmd, caller, draw, r).Ok?
    requires |r.runs| <= j < |Apply(cmd, caller, draw, r).value.0.runs|
    ensures Admissible(cmd, caller, r, profile)
    ensures var run := Apply(cmd, caller, draw, r).value.0.runs[j];
            && run.id == cmd.runID && run.agentID == cmd.agentID && run.profileID == cmd.profileID
            && run.provenance == Provenance(caller.agentID, draw.now)
  {
    OnlyStartAddsRuns(cmd, caller, draw, r);
    assert Apply(cmd, caller, draw, r) == ApplyStartIntent(cmd, caller, draw, r);
    hide Apply;
    profile := r.profiles[Find(r.profiles, ProfileID, cmd.profileID).value];
    assert r.agents[Find(r.agents, AgentID, cmd.agentID).value].id == cmd.agentID;
  }

  /** THE admission theorem: every run was admitted by one commit of its own
      agent, while that agent had no active run, under a profile that a human
      reviewer had approved before. */
  lemma {:induction false} EveryRunWasAdmitted(reviewers: set<string>, log: Log, n: nat, j: nat)
    returns (k: nat, intent: Command, owner: Caller, a: nat, approval: Command, reviewer: Caller)
    requires EngineLog(log, reviewers) && n <= |log| && j < |At(log, n).runs|
    ensures a < k < n && log[k].caller == At(log, n).runs[j].agentID && log[a].caller in reviewers
    ensures (exists draw :: Ran(reviewers, log, k, intent, owner, draw))
            && (exists draw :: Ran(reviewers, log, a, approval, reviewer, draw))
    ensures var run := At(log, n).runs[j];
            && intent.StartIntent? && intent.runID == run.id && intent.agentID == run.agentID == owner.agentID
            && !HasActiveRun(At(log, k).runs, run.agentID) && Registered(At(log, k), run.agentID)
            && approval.ApproveProfile? && approval.profileID == run.profileID && reviewer.isHumanReviewer
            && approval.args != [] && (intent.toolExecutable == "" || intent.toolExecutable == approval.args[0])
  {
    hide Apply, RecordsOf;
    if n == 0 {
      NothingYet(log);
      assert false;
    } else if At(log, n) == At(log, n - 1) {
      k, intent, owner, a, approval, reviewer := EveryRunWasAdmitted(reviewers, log, n - 1, j);
    } else {
      k := n - 1;
      var cmd, caller, draw := Cause(reviewers, log, k);
      RunDispatch.CommandKeepsRuns(cmd, caller, draw, At(log, k), At(log, n));
      if j < |At(log, k).runs| {
        k, intent, owner, a, approval, reviewer := EveryRunWasAdmitted(reviewers, log, n - 1, j);
      } else {
        var profile := NewRunIsAdmissible(cmd, caller, draw, At(log, k), j);
        var p :| 0 <= p < |At(log, k).profiles| && At(log, k).profiles[p] == profile;
        var d := Draw(0, None);
        a, approval, reviewer, d := EveryProfileWasApproved(reviewers, log, k, p);
        intent, owner := cmd, caller;
        assert Ran(reviewers, log, k, intent, owner, draw) && Ran(reviewers, log, a, approval, reviewer, d);
      }
    }
  }
}
