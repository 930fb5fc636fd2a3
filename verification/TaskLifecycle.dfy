/** Review state: which task waits on which result, who may decide it, and why a
    task's ID and revision name one status and one result. */
module TaskLifecycle {
  import opened Results
  import opened Domain
  import opened StateStore
  import opened Commands
  import StoreTheorems
  import ExactlyOnce

  /* ---------- The invariant ---------- */

  ghost predicate UniqueIDs(r: Records) {
    && (forall i, j :: 0 <= i < j < |r.tasks| ==> r.tasks[i].id != r.tasks[j].id)
    && (forall i, j :: 0 <= i < j < |r.results| ==> r.results[i].id != r.results[j].id)
  }

  /** The task shows this result, and the result is about this task. */
  predicate Shows(t: Task, result: TaskResult) {
    t.currentResult == Some(result.id) && result.taskID == t.id
  }

  ghost predicate ShowsOne(t: Task, results: seq<TaskResult>, decision: Decision) {
    exists j :: 0 <= j < |results| && Shows(t, results[j]) && results[j].decision == decision
  }

  predicate DecidedBy(result: TaskResult, reviewers: set<string>) {
    match result.decision
    case Pending => result.decisionProvenance.None?
    case _ => result.decisionProvenance.Some? && result.decisionProvenance.value.claimedAgent in reviewers
  }

  /** The last-status record matches the task's revision and status. */
  predicate StatusRecorded(t: Task) {
    t.lastStatusChange.Some? && t.lastStatusChange.value.taskRevision == t.revision
    && t.lastStatusChange.value.toStatus == t.status
  }

  ghost predicate TaskSound(t: Task, results: seq<TaskResult>) {
    && StatusRecorded(t)
    && (t.status == AwaitingReview ==> ShowsOne(t, results, Pending))
    && (t.status == Done ==> ShowsOne(t, results, Accepted))
  }

  ghost predicate ResultSound(result: TaskResult, tasks: seq<Task>, reviewers: set<string>) {
    DecidedBy(result, reviewers) && (result.decision == Pending ==> AwaitedBySome(result, tasks))
  }

  ghost predicate ReviewSound(reviewers: set<string>, r: Records) {
    && UniqueIDs(r)
    && (forall i :: 0 <= i < |r.tasks| ==> TaskSound(r.tasks[i], r.results))
    && (forall j :: 0 <= j < |r.results| ==> ResultSound(r.results[j], r.tasks, reviewers))
  }

  ghost predicate AwaitedBySome(result: TaskResult, tasks: seq<Task>) {
    exists i :: 0 <= i < |tasks| && tasks[i].status == AwaitingReview && Shows(tasks[i], result)
  }

  /** What one accepted mutation may do to tasks and results: append, move one
      task by exactly one revision, decide a pending result. */
  ghost predicate ReviewEvolves(r: Records, r': Records) {
    && |r.tasks| <= |r'.tasks| && |r.results| <= |r'.results|
    && (forall i :: 0 <= i < |r.tasks| ==> TaskEvolves(r.tasks[i], r'.tasks[i]))
    && (forall j :: 0 <= j < |r.results| ==> ResultEvolves(r.results[j], r'.results[j]))
  }

  predicate TaskEvolves(t: Task, t': Task) {
    t'.id == t.id && (t' == t || (t'.revision == t.revision + 1 && t'.title == t.title && t'.assignee == t.assignee))
  }

  predicate ResultEvolves(result: TaskResult, result': TaskResult) {
    && result'.id == result.id && result'.taskID == result.taskID
    && result'.summary == result.summary && result'.artifacts == result.artifacts
    && (result.decision != Pending ==> result' == result)
  }

  /** A caller whose reviewer authority comes from the host: `reviewers` are all
      the agents any opening of the workspace ever named. */
  predicate Hosted(caller: Caller, reviewers: set<string>) {
    caller.isHumanReviewer ==> caller.agentID in reviewers
  }

  /* ---------- Each command keeps it ---------- */

  /** Tasks and results untouched: nothing to show. */
  lemma UntouchedKeeps(reviewers: set<string>, r: Records, r': Records)
    requires ReviewSound(reviewers, r) && r'.tasks == r.tasks && r'.results == r.results
    ensures ReviewSound(reviewers, r') && ReviewEvolves(r, r')
  {
  }

  /** A result stays awaited while every task that waited still does, unchanged. */
  lemma StillAwaited(result: TaskResult, tasks: seq<Task>, tasks': seq<Task>, reviewers: set<string>)
    requires ResultSound(result, tasks, reviewers) && |tasks| <= |tasks'|
    requires forall k :: 0 <= k < |tasks| && tasks[k].status == AwaitingReview && Shows(tasks[k], result) ==>
             tasks'[k] == tasks[k]
    ensures ResultSound(result, tasks', reviewers)
  {
    if result.decision == Pending {
      var k :| 0 <= k < |tasks| && tasks[k].status == AwaitingReview && Shows(tasks[k], result);
      assert tasks'[k] == tasks[k];
    }
  }

  /** A task keeps its result while every result it shows stays as it is. */
  lemma StillShows(t: Task, results: seq<TaskResult>, results': seq<TaskResult>)
    requires TaskSound(t, results) && |results| <= |results'|
    requires forall j :: 0 <= j < |results| && Shows(t, results[j]) ==> results'[j] == results[j]
    ensures TaskSound(t, results')
  {
    if t.status == AwaitingReview || t.status == Done {
      var decision := if t.status == Done then Accepted else Pending;
      var j :| 0 <= j < |results| && Shows(t, results[j]) && results[j].decision == decision;
      assert results'[j] == results[j];
    }
  }

  /** Replacing one task and leaving results alone, between statuses that wait
      on no result. */
  lemma MoveKeeps(reviewers: set<string>, r: Records, i: nat, t: Task)
    requires ReviewSound(reviewers, r) && i < |r.tasks|
    requires TaskEvolves(r.tasks[i], t) && StatusRecorded(t)
    requires r.tasks[i].status != AwaitingReview && t.status != AwaitingReview && t.status != Done
    ensures ReviewSound(reviewers, r.(tasks := r.tasks[i := t])) && ReviewEvolves(r, r.(tasks := r.tasks[i := t]))
  {
    var tasks := r.tasks[i := t];
    assert TaskSound(t, r.results);
    forall j | 0 <= j < |r.results|
      ensures ResultSound(r.results[j], tasks, reviewers)
    {
      StillAwaited(r.results[j], r.tasks, tasks, reviewers);
    }
  }

  /** Appending a task nothing is known about yet. */
  lemma AddTaskKeeps(reviewers: set<string>, r: Records, t: Task)
    requires ReviewSound(reviewers, r) && TaskSound(t, r.results)
    requires forall i :: 0 <= i < |r.tasks| ==> r.tasks[i].id != t.id
    ensures ReviewSound(reviewers, r.(tasks := r.tasks + [t])) && ReviewEvolves(r, r.(tasks := r.tasks + [t]))
  {
    var tasks := r.tasks + [t];
    forall j | 0 <= j < |r.results|
      ensures ResultSound(r.results[j], tasks, reviewers)
    {
      StillAwaited(r.results[j], r.tasks, tasks, reviewers);
    }
  }

  lemma CreateKeeps(reviewers: set<string>, cmd: Command, caller: Caller, draw: Draw, r: Records)
    requires ReviewSound(reviewers, r) && cmd.CreateTask? && ApplyCreateTask(cmd, caller, draw, r).Ok?
    ensures var r' := ApplyCreateTask(cmd, caller, draw, r).value.0;
            ReviewSound(reviewers, r') && ReviewEvolves(r, r')
  {
    var t := ApplyCreateTask(cmd, caller, draw, r).value.0.tasks[|r.tasks|];
    AddTaskKeeps(reviewers, r, t);
  }

  lemma TransitionKeeps(reviewers: set<string>, cmd: Command, caller: Caller, draw: Draw, r: Records)
    requires ReviewSound(reviewers, r) && cmd.TransitionTask?
    requires Refusal(cmd, caller).None? && ApplyTransition(cmd, caller, draw, r).Ok?
    ensures var r' := ApplyTransition(cmd, caller, draw, r).value.0;
            ReviewSound(reviewers, r') && ReviewEvolves(r, r')
  {
    var i := Find(r.tasks, TaskID, cmd.taskID).value;
    var current := if cmd.from == Done && cmd.to == Todo then None else r.tasks[i].currentResult;
    MoveKeeps(reviewers, r, i, Moved(r.tasks[i], cmd.to, current, caller, draw));
  }

  /** A new pending result, and the task `i` that now waits on it. */
  lemma AddResultKeeps(reviewers: set<string>, r: Records, i: nat, t: Task, result: TaskResult, r': Records)
    requires ReviewSound(reviewers, r) && i < |r.tasks| && r.tasks[i].status != AwaitingReview
    requires TaskEvolves(r.tasks[i], t) && StatusRecorded(t) && t.status == AwaitingReview
    requires Shows(t, result) && result.decision == Pending && DecidedBy(result, reviewers)
    requires forall j :: 0 <= j < |r.results| ==> r.results[j].id != result.id
    requires r' == r.(results := r.results + [result], tasks := r.tasks[i := t])
    ensures ReviewSound(reviewers, r') && ReviewEvolves(r, r')
  {
    var n := |r.results|;
    forall k | 0 <= k < |r'.tasks|
      ensures TaskSound(r'.tasks[k], r'.results)
    {
      if k == i {
        assert Shows(t, r'.results[n]);
      } else {
        StillShows(r.tasks[k], r.results, r'.results);
      }
    }
    forall j | 0 <= j < |r'.results|
      ensures ResultSound(r'.results[j], r'.tasks, reviewers)
    {
      if j == n {
        assert Shows(r'.tasks[i], result);
      } else {
        StillAwaited(r.results[j], r.tasks, r'.tasks, reviewers);
      }
    }
  }

  lemma ReportKeeps(reviewers: set<string>, cmd: Command, caller: Caller, draw: Draw, r: Records)
    requires ReviewSound(reviewers, r) && cmd.ReportResult? && ApplyReport(cmd, caller, draw, r).Ok?
    ensures var r' := ApplyReport(cmd, caller, draw, r).value.0;
            ReviewSound(reviewers, r') && ReviewEvolves(r, r')
  {
    var r' := ApplyReport(cmd, caller, draw, r).value.0;
    var i := Find(r.tasks, TaskID, cmd.taskID).value;
    assert r.tasks[i].id == cmd.taskID;
    assert forall j :: 0 <= j < |r.results| ==> ResultID(r.results[j]) != cmd.resultID;
    AddResultKeeps(reviewers, r, i, r'.tasks[i], r'.results[|r.results|], r');
  }

  /** Deciding the result `j` that task `i` waits on. */
  lemma DecideKeeps(reviewers: set<string>, r: Records, i: nat, j: nat, t: Task, result: TaskResult, r': Records)
    requires ReviewSound(reviewers, r) && i < |r.tasks| && j < |r.results|
    requires r.tasks[i].status == AwaitingReview && r.tasks[i].currentResult == Some(r.results[j].id)
    requires r.results[j].decision == Pending && result.decision != Pending
    requires TaskEvolves(r.tasks[i], t) && StatusRecorded(t) && t.currentResult == r.tasks[i].currentResult
    requires ResultEvolves(r.results[j], result) && DecidedBy(result, reviewers)
    requires t.status == if result.decision == Accepted then Done else Doing
    requires r' == r.(tasks := r.tasks[i := t], results := r.results[j := result])
    ensures ReviewSound(reviewers, r') && ReviewEvolves(r, r')
  {
    AwaitedIsOwn(r, i, j);
    forall k | 0 <= k < |r'.tasks|
      ensures TaskSound(r'.tasks[k], r'.results)
    {
      if k == i {
        assert Shows(t, r'.results[j]);
      } else {
        assert r.tasks[k].id != r.tasks[i].id;
        StillShows(r.tasks[k], r.results, r'.results);
      }
    }
    forall m | 0 <= m < |r'.results|
      ensures ResultSound(r'.results[m], r'.tasks, reviewers)
    {
      if m != j {
        assert r.results[m].id != r.results[j].id;
        StillAwaited(r.results[m], r.tasks, r'.tasks, reviewers);
      }
    }
  }

  /** The result a waiting task names is about that task. */
  lemma AwaitedIsOwn(r: Records, i: nat, j: nat)
    requires UniqueIDs(r) && i < |r.tasks| && j < |r.results| && TaskSound(r.tasks[i], r.results)
    requires r.tasks[i].status == AwaitingReview && r.tasks[i].currentResult == Some(r.results[j].id)
    ensures Shows(r.tasks[i], r.results[j]) && r.results[j].decision == Pending
  {
    var k :| 0 <= k < |r.results| && Shows(r.tasks[i], r.results[k]) && r.results[k].decision == Pending;
    assert k == j;
  }

  lemma DecisionKeeps(reviewers: set<string>, cmd: Command, caller: Caller, draw: Draw, r: Records)
    requires ReviewSound(reviewers, r) && (cmd.AcceptResult? || cmd.RejectResult?)
    requires Hosted(caller, reviewers) && Refusal(cmd, caller).None? && Apply(cmd, caller, draw, r).Ok?
    ensures var r' := Apply(cmd, caller, draw, r).value.0;
            ReviewSound(reviewers, r') && ReviewEvolves(r, r')
  {
    var (i, j) := LoadPendingDecision(r, cmd.taskID, cmd.resultID, cmd.expected).value;
    var r' := Apply(cmd, caller, draw, r).value.0;
    DecideKeeps(reviewers, r, i, j, r'.tasks[i], r'.results[j], r');
  }

  lemma CommandKeeps(reviewers: set<string>, cmd: Command, caller: Caller, draw: Draw, r: Records)
    requires ReviewSound(reviewers, r) && Hosted(caller, reviewers)
    requires Refusal(cmd, caller).None? && Apply(cmd, caller, draw, r).Ok?
    ensures var r' := Apply(cmd, caller, draw, r).value.0;
            ReviewSound(reviewers, r') && ReviewEvolves(r, r')
  {
    if cmd.CreateTask? {
      CreateKeeps(reviewers, cmd, caller, draw, r);
    } else if cmd.TransitionTask? {
      TransitionKeeps(reviewers, cmd, caller, draw, r);
    } else if cmd.ReportResult? {
      ReportKeeps(reviewers, cmd, caller, draw, r);
    } else if cmd.AcceptResult? || cmd.RejectResult? {
      DecisionKeeps(reviewers, cmd, caller, draw, r);
    } else {
      Footprint(cmd, caller, draw, r);
      UntouchedKeeps(reviewers, r, Apply(cmd, caller, draw, r).value.0);
    }
  }

  /* ---------- Every surviving history ---------- */

  /** The commit runs an admitted command under its caller's own scope. */
  ghost predicate Runs(req: CommitRequest, reviewers: set<string>, cmd: Command, caller: Caller, draw: Draw) {
    && Hosted(caller, reviewers) && Refusal(cmd, caller).None?
    && MutatesAs(req, cmd, caller, draw) && req.caller == caller.agentID
  }

  /** A commit the engine makes for some admitted command. */
  ghost predicate FromEngine(req: CommitRequest, reviewers: set<string>) {
    exists cmd, caller, draw :: Runs(req, reviewers, cmd, caller, draw)
  }

  lemma EngineCommitKeeps(reviewers: set<string>, req: CommitRequest, r: Records)
    requires FromEngine(req, reviewers) && ReviewSound(reviewers, r) && req.mutate(r).Ok?
    ensures ReviewSound(reviewers, req.mutate(r).value.0)
    ensures ReviewEvolves(r, req.mutate(r).value.0)
  {
    var cmd, caller, draw :| Runs(req, reviewers, cmd, caller, draw);
    CommandKeeps(reviewers, cmd, caller, draw, r);
  }

  ghost predicate EngineLog(log: ExactlyOnce.Log, reviewers: set<string>) {
    forall i :: 0 <= i < |log| ==> FromEngine(log[i], reviewers)
  }

  lemma {:induction false} EveryLogIsSound(reviewers: set<string>, log: ExactlyOnce.Log)
    requires EngineLog(log, reviewers)
    ensures ReviewSound(reviewers, ExactlyOnce.RecordsOf(log))
  {
    if log != [] {
      var before := log[..|log| - 1];
      EveryLogIsSound(reviewers, before);
      if log[|log| - 1].mutate(ExactlyOnce.RecordsOf(before)).Ok? {
        EngineCommitKeeps(reviewers, log[|log| - 1], ExactlyOnce.RecordsOf(before));
      }
    }
  }

  lemma {:induction false} LogOfEngineCalls(reviewers: set<string>, calls: seq<StoreTheorems.Call>)
    requires forall i :: 0 <= i < |calls| && calls[i].Commit? ==> FromEngine(calls[i].req, reviewers)
    ensures EngineLog(ExactlyOnce.LogAfter(calls), reviewers)
  {
    if calls != [] {
      LogOfEngineCalls(reviewers, calls[..|calls| - 1]);
    }
  }

  /** THE review theorem: in every version any history of engine commits, I/O
      failures and crashes can leave on disk, pending results and waiting tasks
      pair off, and a Done task shows a result a reviewer accepted. */
  lemma EveryVersionIsReviewSound(reviewers: set<string>, calls: seq<StoreTheorems.Call>, i: nat)
    requires forall k :: 0 <= k < |calls| && calls[k].Commit? ==> FromEngine(calls[k].req, reviewers)
    requires i < |StoreTheorems.After(NEW_STORE, calls).disk.versions|
    ensures ReviewSound(reviewers, StoreTheorems.After(NEW_STORE, calls).disk.versions[i].snapshot.records)
  {
    ExactlyOnce.StoreIsFoldOfLog(calls);
    LogOfEngineCalls(reviewers, calls);
    var log := ExactlyOnce.LogAfter(calls);
    assert EngineLog(log[..i], reviewers);
    EveryLogIsSound(reviewers, log[..i]);
  }

  /** Pending results and waiting tasks correspond one to one. */
  lemma PendingMatchesWaiting(reviewers: set<string>, r: Records, i: nat, j: nat)
    requires ReviewSound(reviewers, r) && i < |r.tasks| && j < |r.results|
    requires r.tasks[i].status == AwaitingReview && r.tasks[i].currentResult == Some(r.results[j].id)
    ensures r.results[j].decision == Pending && r.results[j].taskID == r.tasks[i].id
    ensures forall k :: 0 <= k < |r.tasks| && k != i ==> !Shows(r.tasks[k], r.results[j])
  {
    AwaitedIsOwn(r, i, j);
  }

  /* ---------- Revisions within one surviving history ---------- */

  /** A task's record at two points of one history, compared. */
  ghost predicate SameWhenSameRevision(r: Records, r': Records) {
    && |r.tasks| <= |r'.tasks| && |r.results| <= |r'.results|
    && (forall i :: 0 <= i < |r.tasks| ==>
          r'.tasks[i].id == r.tasks[i].id && r.tasks[i].revision <= r'.tasks[i].revision
          && (r'.tasks[i].revision == r.tasks[i].revision ==> r'.tasks[i] == r.tasks[i]))
    && (forall j :: 0 <= j < |r.results| ==> ResultEvolves(r.results[j], r'.results[j]))
  }

  lemma OneMoreStep(r: Records, r': Records, r'': Records)
    requires SameWhenSameRevision(r, r') && ReviewEvolves(r', r'')
    ensures SameWhenSameRevision(r, r'')
  {
    forall i | 0 <= i < |r.tasks|
      ensures r''.tasks[i].id == r.tasks[i].id && r.tasks[i].revision <= r''.tasks[i].revision
      ensures r''.tasks[i].revision == r.tasks[i].revision ==> r''.tasks[i] == r.tasks[i]
    {
      assert TaskEvolves(r'.tasks[i], r''.tasks[i]);
    }
    forall j | 0 <= j < |r.results|
      ensures ResultEvolves(r.results[j], r''.results[j])
    {
      assert ResultEvolves(r'.results[j], r''.results[j]);
    }
  }

  lemma SameNow(r: Records)
    ensures SameWhenSameRevision(r, r)
  {
  }

  lemma PrefixIsSound(reviewers: set<string>, log: ExactlyOnce.Log, n: nat)
    requires EngineLog(log, reviewers) && n <= |log|
    ensures ReviewSound(reviewers, ExactlyOnce.RecordsOf(log[..n]))
  {
    assert EngineLog(log[..n], reviewers);
    EveryLogIsSound(reviewers, log[..n]);
  }

  lemma HistoryStep(reviewers: set<string>, log: ExactlyOnce.Log, n: nat)
    requires EngineLog(log, reviewers) && 0 < n <= |log|
    ensures ReviewEvolves(ExactlyOnce.RecordsOf(log[..n - 1]), ExactlyOnce.RecordsOf(log[..n]))
  {
    PrefixIsSound(reviewers, log, n - 1);
    assert log[..n][..n - 1] == log[..n - 1] && FromEngine(log[n - 1], reviewers);
    hide EngineLog, ReviewSound, ReviewEvolves, FromEngine;
    var r := ExactlyOnce.RecordsOf(log[..n - 1]);
    if log[n - 1].mutate(r).Ok? {
      EngineCommitKeeps(reviewers, log[n - 1], r);
    }
  }

  lemma {:induction false} HistoryDeterminesTask(reviewers: set<string>, log: ExactlyOnce.Log, m: nat, n: nat)
    requires EngineLog(log, reviewers) && m <= n <= |log|
    ensures SameWhenSameRevision(ExactlyOnce.RecordsOf(log[..m]), ExactlyOnce.RecordsOf(log[..n]))
    decreases n - m
  {
    hide SameWhenSameRevision, ReviewEvolves, ExactlyOnce.RecordsOf;
    if m == n {
      SameNow(ExactlyOnce.RecordsOf(log[..n]));
    } else {
      HistoryDeterminesTask(reviewers, log, m, n - 1);
      HistoryStep(reviewers, log, n);
      OneMoreStep(ExactlyOnce.RecordsOf(log[..m]), ExactlyOnce.RecordsOf(log[..n - 1]),
          ExactlyOnce.RecordsOf(log[..n]));
    }
  }

  /** THE revision theorem: in one surviving history a task's ID and revision
      determine its whole record, and a decision once made stays. */
  lemma RevisionDeterminesTask(reviewers: set<string>, log: ExactlyOnce.Log, m: nat, n: nat, i: nat, k: nat)
    requires EngineLog(log, reviewers) && m <= n <= |log|
    requires i < |ExactlyOnce.RecordsOf(log[..m]).tasks| && k < |ExactlyOnce.RecordsOf(log[..n]).tasks|
    requires var t, t' := ExactlyOnce.RecordsOf(log[..m]).tasks[i], ExactlyOnce.RecordsOf(log[..n]).tasks[k];
             t.id == t'.id && t.revision == t'.revision
    ensures ExactlyOnce.RecordsOf(log[..m]).tasks[i] == ExactlyOnce.RecordsOf(log[..n]).tasks[k]
  {
    HistoryDeterminesTask(reviewers, log, m, n);
    PrefixIsSound(reviewers, log, n);
    var r' := ExactlyOnce.RecordsOf(log[..n]);
    assert r'.tasks[i].id == r'.tasks[k].id;
    assert i == k;
  }

  /** A decision bound to revision v decides exactly the result that anyone who
      saw the task at v saw, and nobody had decided it. */
  lemma DecisionBindsWhatWasSeen(
    reviewers: set<string>, log: ExactlyOnce.Log, m: nat, n: nat, i: nat, cmd: Command, caller: Caller, draw: Draw)
    requires EngineLog(log, reviewers) && m <= n <= |log|
    requires cmd.AcceptResult? || cmd.RejectResult?
    requires i < |ExactlyOnce.RecordsOf(log[..m]).tasks|
    requires var seen := ExactlyOnce.RecordsOf(log[..m]).tasks[i];
             seen.id == cmd.taskID && seen.revision == cmd.expected
    requires Apply(cmd, caller, draw, ExactlyOnce.RecordsOf(log[..n])).Ok?
    ensures var seen := ExactlyOnce.RecordsOf(log[..m]).tasks[i];
            && seen.status == AwaitingReview && seen.currentResult == Some(cmd.resultID)
            && ShowsOne(seen, ExactlyOnce.RecordsOf(log[..m]).results, Pending)
  {
    var now := ExactlyOnce.RecordsOf(log[..n]);
    var k := DecidedTask(cmd, caller, draw, now);
    hide EngineLog, ExactlyOnce.RecordsOf, Apply;
    RevisionDeterminesTask(reviewers, log, m, n, i, k);
    PrefixIsSound(reviewers, log, m);
    TaskIsSound(reviewers, ExactlyOnce.RecordsOf(log[..m]), i);
  }

  lemma TaskIsSound(reviewers: set<string>, r: Records, i: nat)
    requires ReviewSound(reviewers, r) && i < |r.tasks|
    ensures TaskSound(r.tasks[i], r.results)
  {
  }

  /** The task an accepted decision finds. */
  lemma DecidedTask(cmd: Command, caller: Caller, draw: Draw, r: Records) returns (k: nat)
    requires (cmd.AcceptResult? || cmd.RejectResult?) && Apply(cmd, caller, draw, r).Ok?
    ensures k < |r.tasks| && r.tasks[k].id == cmd.taskID && r.tasks[k].revision == cmd.expected
    ensures r.tasks[k].status == AwaitingReview && r.tasks[k].currentResult == Some(cmd.resultID)
  {
    k := LoadPendingDecision(r, cmd.taskID, cmd.resultID, cmd.expected).value.0;
  }
}
