/** Run states when commands run one at a time: the legal transitions, one active
    run per agent, and the startup reconciliation pass. */
module RunLifecycle {
  import opened Results
  import opened Domain
  import opened StateStore
  import opened StoreTheorems
  import opened Commands

  /* ---------- What must hold of the runs ---------- */

  ghost predicate UniqueRuns(r: Records) {
    forall i, j :: 0 <= i < j < |r.runs| ==> r.runs[i].id != r.runs[j].id
  }

  ghost predicate OneActive(r: Records) {
    forall i, j :: 0 <= i < j < |r.runs| && r.runs[i].agentID == r.runs[j].agentID ==>
      !(IsActive(r.runs[i].state) && IsActive(r.runs[j].state))
  }

  /** How one commit may move a run. `Exited` and `RecoveryNeeded` are final. */
  predicate LegalStep(from: RunState, to: RunState) {
    || to == from
    || (from == Starting && (to == Running || to == Exited || to == Stopping || to == RecoveryNeeded))
    || (from == Running && (to == Stopping || to == RecoveryNeeded))
    || (from == Stopping && (to == Exited || to == RecoveryNeeded))
  }

  ghost predicate RunsStep(r: Records, r': Records) {
    && |r.runs| <= |r'.runs|
    && forall i :: 0 <= i < |r.runs| ==>
         r'.runs[i].id == r.runs[i].id && r'.runs[i].agentID == r.runs[i].agentID
         && LegalStep(r.runs[i].state, r'.runs[i].state)
  }

  /** The state of the first run with this ID. */
  predicate InState(r: Records, runID: string, state: RunState) {
    var i := Find(r.runs, RunID, runID);
    i.Some? && r.runs[i.value].state == state
  }

  /* ---------- Which mutations keep it ---------- */

  /** Replacing one run's state: the agent's other runs decide. */
  lemma ReplaceRun(r: Records, r': Records, i: nat, run: Run)
    requires UniqueRuns(r) && OneActive(r) && i < |r.runs| && r'.runs == r.runs[i := run]
    requires run.id == r.runs[i].id && run.agentID == r.runs[i].agentID
    ensures UniqueRuns(r')
    ensures OneActive(r') <==> !IsActive(run.state) || IsActive(r.runs[i].state) || !OtherActive(r, i)
  {
    if IsActive(run.state) && !IsActive(r.runs[i].state) && OtherActive(r, i) {
      var k :| 0 <= k < |r.runs| && k != i && r.runs[k].agentID == r.runs[i].agentID && IsActive(r.runs[k].state);
      assert r'.runs[k] == r.runs[k] && r'.runs[i] == run;
    }
  }

  ghost predicate OtherActive(r: Records, i: nat)
    requires i < |r.runs|
  {
    exists k :: 0 <= k < |r.runs| && k != i && r.runs[k].agentID == r.runs[i].agentID && IsActive(r.runs[k].state)
  }

  /** The stop outcome overwrites unseen: it keeps one active run exactly when it
      succeeded, or the run was active anyway, or no other run of the agent is. */
  lemma StopObservedKeepsOneActiveExactly(runID: string, failed: bool, draw: Draw, r: Records)
    requires UniqueRuns(r) && OneActive(r) && ApplyStopObserved(runID, failed, draw, r).Ok?
    ensures var i := Find(r.runs, RunID, runID).value;
            OneActive(ApplyStopObserved(runID, failed, draw, r).value.0)
            <==> !failed || IsActive(r.runs[i].state) || !OtherActive(r, i)
  {
    var i := Find(r.runs, RunID, runID).value;
    var r' := ApplyStopObserved(runID, failed, draw, r).value.0;
    ReplaceRun(r, r', i, r'.runs[i]);
  }

  /** So does the start observation. */
  lemma StartObservedKeepsOneActiveExactly(runID: string, failure: Option<string>, draw: Draw, r: Records)
    requires UniqueRuns(r) && OneActive(r) && ApplyStartObserved(runID, failure, draw, r).Ok?
    ensures var i := Find(r.runs, RunID, runID).value;
            OneActive(ApplyStartObserved(runID, failure, draw, r).value.0)
            <==> failure.Some? || IsActive(r.runs[i].state) || !OtherActive(r, i)
  {
    var i := Find(r.runs, RunID, runID).value;
    var r' := ApplyStartObserved(runID, failure, draw, r).value.0;
    ReplaceRun(r, r', i, r'.runs[i]);
  }

  /** The commands that never overwrite a state unseen. */
  predicate Guarded(cmd: Command, r: Records) {
    match cmd
    case StartObserved(runID, _) => InState(r, runID, Starting)
    case StopObserved(runID, _) => InState(r, runID, Stopping)
    case _ => true
  }

  lemma IntentKeeps(cmd: Command, caller: Caller, draw: Draw, r: Records)
    requires cmd.StartIntent? && UniqueRuns(r) && OneActive(r) && ApplyStartIntent(cmd, caller, draw, r).Ok?
    ensures var r' := ApplyStartIntent(cmd, caller, draw, r).value.0;
            UniqueRuns(r') && OneActive(r') && RunsStep(r, r')
  {
    var r' := ApplyStartIntent(cmd, caller, draw, r).value.0;
    assert r'.runs[..|r.runs|] == r.runs;
    forall i | 0 <= i < |r.runs|
      ensures r'.runs[i] == r.runs[i]
    {
    }
  }

  lemma MarkerKeeps(runID: string, draw: Draw, r: Records)
    requires UniqueRuns(r) && OneActive(r) && ApplyStartMarker(runID, draw, r).Ok?
    ensures var r' := ApplyStartMarker(runID, draw, r).value.0;
            UniqueRuns(r') && OneActive(r') && RunsStep(r, r') && InState(r', runID, Starting)
  {
    var i, r' := Find(r.runs, RunID, runID).value, ApplyStartMarker(runID, draw, r).value.0;
    ReplaceRun(r, r', i, r'.runs[i]);
    FindIsStable(r.runs, r'.runs, RunID, runID);
  }

  lemma StartObservedKeeps(runID: string, failure: Option<string>, draw: Draw, r: Records)
    requires UniqueRuns(r) && OneActive(r) && InState(r, runID, Starting)
    requires ApplyStartObserved(runID, failure, draw, r).Ok?
    ensures var r' := ApplyStartObserved(runID, failure, draw, r).value.0;
            UniqueRuns(r') && OneActive(r') && RunsStep(r, r')
  {
    var i, r' := Find(r.runs, RunID, runID).value, ApplyStartObserved(runID, failure, draw, r).value.0;
    ReplaceRun(r, r', i, r'.runs[i]);
  }

  lemma StopIntentKeeps(runID: string, caller: Caller, draw: Draw, r: Records)
    requires UniqueRuns(r) && OneActive(r) && ApplyStopIntent(runID, caller, draw, r).Ok?
    ensures var r' := ApplyStopIntent(runID, caller, draw, r).value.0;
            UniqueRuns(r') && OneActive(r') && RunsStep(r, r') && InState(r', runID, Stopping)
  {
    var i := Find(r.runs, RunID, runID).value;
    var r' := ApplyStopIntent(runID, caller, draw, r).value.0;
    ReplaceRun(r, r', i, r'.runs[i]);
    FindIsStable(r.runs, r'.runs, RunID, runID);
  }

  lemma StopObservedKeeps(runID: string, failed: bool, draw: Draw, r: Records)
    requires UniqueRuns(r) && OneActive(r) && InState(r, runID, Stopping)
    requires ApplyStopObserved(runID, failed, draw, r).Ok?
    ensures var r' := ApplyStopObserved(runID, failed, draw, r).value.0;
            UniqueRuns(r') && OneActive(r') && RunsStep(r, r')
  {
    var i := Find(r.runs, RunID, runID).value;
    var r' := ApplyStopObserved(runID, failed, draw, r).value.0;
    ReplaceRun(r, r', i, r'.runs[i]);
  }

  lemma ReconcileKeeps(runID: string, draw: Draw, r: Records)
    requires UniqueRuns(r) && OneActive(r) && ApplyReconcile(runID, draw, r).Ok?
    ensures var r' := ApplyReconcile(runID, draw, r).value.0;
            UniqueRuns(r') && OneActive(r') && RunsStep(r, r')
  {
    var found := Find(r.runs, RunID, runID);
    var r' := ApplyReconcile(runID, draw, r).value.0;
    if found.Some? && IsStuck(r.runs[found.value].state) {
      ReplaceRun(r, r', found.value, r'.runs[found.value]);
    }
  }

  lemma GuardedKeeps(cmd: Command, caller: Caller, draw: Draw, r: Records, r': Records)
    requires UniqueRuns(r) && OneActive(r) && Guarded(cmd, r)
    requires Apply(cmd, caller, draw, r).Ok? && r' == Apply(cmd, caller, draw, r).value.0
    ensures UniqueRuns(r') && OneActive(r') && RunsStep(r, r')
  {
    if cmd.StartIntent? {
      IntentKeeps(cmd, caller, draw, r);
    } else if cmd.StartMarker? {
      MarkerKeeps(cmd.runID, draw, r);
    } else if cmd.StartObserved? {
      StartObservedKeeps(cmd.runID, cmd.failure, draw, r);
    } else if cmd.StopIntent? {
      StopIntentKeeps(cmd.runID, caller, draw, r);
    } else if cmd.StopObserved? {
      StopObservedKeeps(cmd.runID, cmd.failed, draw, r);
    } else if cmd.ReconcileRun? {
      ReconcileKeeps(cmd.runID, draw, r);
    } else {
      Footprint(cmd, caller, draw, r);
    }
  }

  /* ---------- One command at a time ---------- */

  /** The command in progress, by what it does next. */
  datatype Busy =
    | Idle
    | StartAtMarker(runID: string)
    | StartAtObservation(runID: string)
    | StopAtOutcome(runID: string)
    | Opening(stuck: seq<string>)
    | Closed

  datatype Host = Host(store: Store, busy: Busy)

  /** One commit's inputs. */
  datatype Attempt = Attempt(requestID: string, fingerprint: string, draw: Draw, faults: Faults)

  /** `GiveUp` is a command returning between its commits because the ID source
      failed. */
  datatype Move =
    | BeginStart(intent: Command, caller: Caller, attempt: Attempt)
    | CommitMarker(attempt: Attempt)
    | Observe(failure: Option<string>, attempt: Attempt)
    | BeginStop(runID: string, caller: Caller, attempt: Attempt)
    | StopOutcome(failed: bool, attempt: Attempt)
    | GiveUp
    | Simple(cmd: Command, caller: Caller, attempt: Attempt)
    | Reconcile(attempt: Attempt)
    | Reopen(kept: nat, settled: nat, loadFails: bool)

  function Commit(s: Store, cmd: Command, caller: Caller, a: Attempt): (Store, Outcome)
    requires s.disk.Valid()
  {
    CommitStep(s, Submit(cmd, caller, a.draw, WORKSPACE, a.requestID, a.fingerprint), a.faults)
  }

  /** The IDs the startup pass visits, in the order it loaded them. */
  function StuckIDs(runs: seq<Run>): seq<string> {
    if runs == [] then []
    else
      var last := runs[|runs| - 1];
      StuckIDs(runs[..|runs| - 1]) + if IsStuck(last.state) then [last.id] else []
  }

  function Next(h: Host, move: Move): (h': Host)
    requires h.store.disk.Valid()
    ensures h'.store.disk.Valid()
  {
    match move
    case BeginStart(intent, caller, a) =>
      if !h.busy.Idle? || !intent.StartIntent? || Refusal(intent, caller).Some? then h
      else var (s, out) := Commit(h.store, intent, caller, a);
           Host(s, if out.Ok? then StartAtMarker(intent.runID) else Idle)
    case CommitMarker(a) =>
      if !h.busy.StartAtMarker? then h
      else var (s, out) := Commit(h.store, StartMarker(h.busy.runID), HOST, a);
           Host(s, if out.Ok? then StartAtObservation(h.busy.runID) else Idle)
    case Observe(failure, a) =>
      if !h.busy.StartAtObservation? then h
      else Host(Commit(h.store, StartObserved(h.busy.runID, failure), HOST, a).0, Idle)
    case BeginStop(runID, caller, a) =>
      if !h.busy.Idle? || Refusal(StopIntent(runID, ""), caller).Some? then h
      else var (s, out) := Commit(h.store, StopIntent(runID, ""), caller, a);
           Host(s, if out.Ok? then StopAtOutcome(runID) else Idle)
    case StopOutcome(failed, a) =>
      if !h.busy.StopAtOutcome? then h
      else Host(Commit(h.store, StopObserved(h.busy.runID, failed), HOST, a).0, Idle)
    case GiveUp =>
      if h.busy.StartAtMarker? || h.busy.StartAtObservation? || h.busy.StopAtOutcome? then Host(h.store, Idle) else h
    case Simple(cmd, caller, a) =>
      if !h.busy.Idle? || cmd.StartObserved? || cmd.StopObserved? then h
      else Host(Commit(h.store, cmd, caller, a).0, Idle)
    case Reconcile(a) =>
      if !h.busy.Opening? then h
      else if h.busy.stuck == [] then Host(h.store, Idle)
      else var (s, out) := Commit(h.store, ReconcileRun(h.busy.stuck[0]), HOST, a);
           Host(s, if out.Ok? then Opening(h.busy.stuck[1..]) else Closed)
    case Reopen(kept, settled, loadFails) =>
      var s := Reopened(h.store, kept, settled);
      Host(s, if loadFails then Idle else Opening(StuckIDs(s.disk.Current().snapshot.records.runs)))
  }

  /** `StopRun` carries a request ID it has not used before, and so do the
      commits the host makes for itself. */
  predicate Permitted(h: Host, move: Move)
    requires h.store.disk.Valid()
  {
    match move
    case CommitMarker(a) => ReceiptKey(HOST.agentID, a.requestID) !in h.store.disk.Current().receipts
    case Observe(_, a) => ReceiptKey(HOST.agentID, a.requestID) !in h.store.disk.Current().receipts
    case BeginStop(_, caller, a) => ReceiptKey(caller.agentID, a.requestID) !in h.store.disk.Current().receipts
    case StopOutcome(_, a) => ReceiptKey(HOST.agentID, a.requestID) !in h.store.disk.Current().receipts
    case Reconcile(a) => ReceiptKey(HOST.agentID, a.requestID) !in h.store.disk.Current().receipts
    case _ => true
  }

  ghost predicate VersionSound(s: Store, i: nat)
    requires i < |s.disk.versions|
  {
    var r := s.disk.versions[i].snapshot.records;
    UniqueRuns(r) && OneActive(r)
    && (i > 0 ==> RunsStep(s.disk.versions[i - 1].snapshot.records, r))
  }

  ghost predicate StoreSound(s: Store) {
    WellFormed(s) && forall i :: 0 <= i < |s.disk.versions| ==> VersionSound(s, i)
  }

  ghost predicate Sound(h: Host) {
    && StoreSound(h.store)
    && (h.busy.StartAtObservation? ==> InState(h.store.disk.Current().snapshot.records, h.busy.runID, Starting))
    && (h.busy.StopAtOutcome? ==> InState(h.store.disk.Current().snapshot.records, h.busy.runID, Stopping))
  }

  /** Versions that only lose or only gain at the end. */
  lemma SameVersionSound(s: Store, s': Store, i: nat)
    requires i < |s.disk.versions| && i < |s'.disk.versions| && s'.disk.versions[..i + 1] == s.disk.versions[..i + 1]
    requires VersionSound(s, i)
    ensures VersionSound(s', i)
  {
    assert s'.disk.versions[i] == s'.disk.versions[..i + 1][i] == s.disk.versions[i];
    assert i > 0 ==> s'.disk.versions[i - 1] == s'.disk.versions[..i + 1][i - 1] == s.disk.versions[i - 1];
  }

  lemma AppendIsSound(s: Store, s': Store)
    requires StoreSound(s) && WellFormed(s') && s.disk.versions <= s'.disk.versions
    requires |s'.disk.versions| <= |s.disk.versions| + 1
    requires |s'.disk.versions| > |s.disk.versions| ==> VersionSound(s', |s.disk.versions|)
    ensures StoreSound(s')
  {
    forall i | 0 <= i < |s'.disk.versions|
      ensures VersionSound(s', i)
    {
      if i < |s.disk.versions| {
        SameVersionSound(s, s', i);
      }
    }
  }

  /** A commit of a guarded command keeps every version sound, and when it runs
      its mutation and succeeds the current records are the mutated ones. */
  lemma CommitIsSound(s: Store, cmd: Command, caller: Caller, a: Attempt)
    requires StoreSound(s) && Guarded(cmd, s.disk.Current().snapshot.records)
    ensures var (s', out) := Commit(s, cmd, caller, a);
            && StoreSound(s')
            && (out.Ok? && ReceiptKey(caller.agentID, a.requestID) !in s.disk.Current().receipts ==>
                  var m := Apply(cmd, caller, a.draw, s.disk.Current().snapshot.records);
                  m.Ok? && s'.disk.Current().snapshot.records == m.value.0)
  {
    hide UniqueRuns, OneActive, RunsStep, Guarded, Apply;
    var req := Submit(cmd, caller, a.draw, WORKSPACE, a.requestID, a.fingerprint);
    CommitKeeps(s, req, a.faults);
    assert VersionSound(s, |s.disk.versions| - 1);
    if Applies(s, req, a.faults) {
      var r := s.disk.Current().snapshot.records;
      GuardedKeeps(cmd, caller, a.draw, r, req.mutate(r).value.0);
    }
    AppendIsSound(s, CommitStep(s, req, a.faults).0);
  }

  lemma ReopenIsSound(s: Store, kept: nat, settled: nat)
    requires StoreSound(s)
    ensures StoreSound(Reopened(s, kept, settled))
  {
    CrashKeeps(s, kept, settled);
    var s' := Reopened(s, kept, settled);
    forall i | 0 <= i < |s'.disk.versions|
      ensures VersionSound(s', i)
    {
      SameVersionSound(s, s', i);
    }
  }

  lemma MarkerLeavesStarting(s: Store, runID: string, a: Attempt)
    requires StoreSound(s) && ReceiptKey(HOST.agentID, a.requestID) !in s.disk.Current().receipts
    ensures var (s', out) := Commit(s, StartMarker(runID), HOST, a);
            StoreSound(s') && (out.Ok? ==> InState(s'.disk.Current().snapshot.records, runID, Starting))
  {
    CommitIsSound(s, StartMarker(runID), HOST, a);
    var r := s.disk.Current().snapshot.records;
    assert VersionSound(s, |s.disk.versions| - 1);
    if Apply(StartMarker(runID), HOST, a.draw, r).Ok? {
      MarkerKeeps(runID, a.draw, r);
    }
  }

  lemma StopLeavesStopping(s: Store, runID: string, caller: Caller, a: Attempt)
    requires StoreSound(s) && ReceiptKey(caller.agentID, a.requestID) !in s.disk.Current().receipts
    ensures var (s', out) := Commit(s, StopIntent(runID, ""), caller, a);
            StoreSound(s') && (out.Ok? ==> InState(s'.disk.Current().snapshot.records, runID, Stopping))
  {
    CommitIsSound(s, StopIntent(runID, ""), caller, a);
    var r := s.disk.Current().snapshot.records;
    assert VersionSound(s, |s.disk.versions| - 1);
    if Apply(StopIntent(runID, ""), caller, a.draw, r).Ok? {
      StopIntentKeeps(runID, caller, a.draw, r);
    }
  }

  lemma MoveKeeps(h: Host, move: Move)
    requires Sound(h) && Permitted(h, move)
    ensures Sound(Next(h, move))
  {
    match move {
      case BeginStart(intent, caller, a) =>
        if intent.StartIntent? { CommitIsSound(h.store, intent, caller, a); }
      case CommitMarker(a) =>
        if h.busy.StartAtMarker? { MarkerLeavesStarting(h.store, h.busy.runID, a); }
      case Observe(failure, a) =>
        if h.busy.StartAtObservation? { CommitIsSound(h.store, StartObserved(h.busy.runID, failure), HOST, a); }
      case BeginStop(runID, caller, a) =>
        StopLeavesStopping(h.store, runID, caller, a);
      case StopOutcome(failed, a) =>
        if h.busy.StopAtOutcome? { CommitIsSound(h.store, StopObserved(h.busy.runID, failed), HOST, a); }
      case GiveUp =>
      case Simple(cmd, caller, a) =>
        if !cmd.StartObserved? && !cmd.StopObserved? { CommitIsSound(h.store, cmd, caller, a); }
      case Reconcile(a) =>
        if h.busy.Opening? && h.busy.stuck != [] { CommitIsSound(h.store, ReconcileRun(h.busy.stuck[0]), HOST, a); }
      case Reopen(kept, settled, _) =>
        ReopenIsSound(h.store, kept, settled);
    }
  }

  const NEW_HOST := Host(NEW_STORE, Idle)

  /** Any history of commands run one at a time, with a crash at any step. */
  function HostAfter(moves: seq<Move>): (h: Host)
    ensures h.store.disk.Valid()
  {
    if moves == [] then NEW_HOST
    else
      var before, move := HostAfter(moves[..|moves| - 1]), moves[|moves| - 1];
      if Permitted(before, move) then Next(before, move) else before
  }

  lemma {:induction false} EveryHostIsSound(moves: seq<Move>)
    ensures Sound(HostAfter(moves))
  {
    if moves != [] {
      var before, move := HostAfter(moves[..|moves| - 1]), moves[|moves| - 1];
      EveryHostIsSound(moves[..|moves| - 1]);
      if Permitted(before, move) {
        MoveKeeps(before, move);
      }
    }
  }

  /** THE run theorem: in every version any such history leaves on disk each agent
      has at most one run that is not Exited, and between versions a run moves
      only along the legal transitions, so an Exited run never comes back. */
  lemma OneActiveRunPerAgent(moves: seq<Move>, i: nat, j: nat)
    requires i <= j < |HostAfter(moves).store.disk.versions|
    ensures OneActive(HostAfter(moves).store.disk.versions[j].snapshot.records)
    ensures FinalStatesKept(HostAfter(moves).store.disk.versions[i].snapshot.records,
                            HostAfter(moves).store.disk.versions[j].snapshot.records)
  {
    EveryHostIsSound(moves);
    assert VersionSound(HostAfter(moves).store, j);
    FinalStatesStay(HostAfter(moves).store, i, j);
  }

  /** No run disappears, and Exited and RecoveryNeeded are left by nothing. */
  ghost predicate FinalStatesKept(r: Records, r': Records) {
    && |r.runs| <= |r'.runs|
    && (forall k :: 0 <= k < |r.runs| ==> r'.runs[k].id == r.runs[k].id && r'.runs[k].agentID == r.runs[k].agentID)
    && (forall k :: 0 <= k < |r.runs| && (r.runs[k].state == Exited || r.runs[k].state == RecoveryNeeded) ==>
          r'.runs[k].state == r.runs[k].state)
  }

  lemma {:induction false} FinalStatesStay(s: Store, i: nat, j: nat)
    requires StoreSound(s) && i <= j < |s.disk.versions|
    ensures FinalStatesKept(s.disk.versions[i].snapshot.records, s.disk.versions[j].snapshot.records)
    decreases j - i
  {
    if i < j {
      FinalStatesStay(s, i, j - 1);
      assert VersionSound(s, j);
    }
  }

  /* ---------- A replayed stop ---------- */

  /** The ledger already answers this `StopRun` request. */
  predicate ReplaysStop(h: Host, runID: string, caller: Caller, a: Attempt)
    requires h.store.disk.Valid()
  {
    var receipts, key := h.store.disk.Current().receipts, ReceiptKey(caller.agentID, a.requestID);
    h.busy.Idle? && runID != "" && key in receipts && receipts[key].fingerprint == a.fingerprint
  }

  /** The store can answer it: nothing fails, or the receipt needs no sync. */
  predicate Answered(h: Host, caller: Caller, a: Attempt)
    requires h.store.disk.Valid() && ReceiptKey(caller.agentID, a.requestID) in h.store.disk.Current().receipts
  {
    && !a.faults.read
    && (a.faults.sync ==>
          h.store.disk.Current().receipts[ReceiptKey(caller.agentID, a.requestID)].receipt.revision
          <= h.store.durableRevision)
  }

  /** The replayed intent runs no check and changes no record, and goes on to the
      outcome whatever state the run is in by now. */
  lemma ReplayedStopSkipsChecks(h: Host, runID: string, caller: Caller, a: Attempt)
    requires Sound(h) && ReplaysStop(h, runID, caller, a)
    ensures var h' := Next(h, BeginStop(runID, caller, a));
            && StoreSound(h'.store) && h'.store.disk.versions == h.store.disk.versions
            && h'.busy == if Answered(h, caller, a) then StopAtOutcome(runID) else Idle
  {
    hide UniqueRuns, OneActive, RunsStep, Apply;
    CommitIsSound(h.store, StopIntent(runID, ""), caller, a);
  }

  /** The host's own outcome commit: a new request that reaches the disk. */
  predicate Lands(s: Store, b: Attempt)
    requires s.disk.Valid()
  {
    && ReceiptKey(HOST.agentID, b.requestID) !in s.disk.Current().receipts
    && !b.faults.read && !b.faults.write && b.draw.eventID.Some?
  }

  /** A new request that nothing stops before the rename shows its mutation. */
  lemma NewCommitLands(s: Store, cmd: Command, caller: Caller, a: Attempt)
    requires WellFormed(s) && ReceiptKey(caller.agentID, a.requestID) !in s.disk.Current().receipts
    requires !a.faults.read && !a.faults.write && Apply(cmd, caller, a.draw, s.disk.Current().snapshot.records).Ok?
    ensures Commit(s, cmd, caller, a).0.disk.Current().snapshot.records ==
            Apply(cmd, caller, a.draw, s.disk.Current().snapshot.records).value.0
    ensures !a.faults.sync ==> Commit(s, cmd, caller, a).1.Ok?
  {
    hide WellFormed, Apply;
  }

  lemma StopStep(h: Host, failed: bool, b: Attempt)
    requires h.store.disk.Valid() && h.busy.StopAtOutcome?
    ensures Next(h, StopOutcome(failed, b)).store == Commit(h.store, StopObserved(h.busy.runID, failed), HOST, b).0
  {
    hide Commit;
  }

  lemma OutcomeLands(h: Host, failed: bool, b: Attempt)
    requires StoreSound(h.store) && h.busy.StopAtOutcome? && Lands(h.store, b)
    requires Find(h.store.disk.Current().snapshot.records.runs, RunID, h.busy.runID).Some?
    ensures var m := ApplyStopObserved(h.busy.runID, failed, b.draw, h.store.disk.Current().snapshot.records);
            m.Ok? && Next(h, StopOutcome(failed, b)).store.disk.Current().snapshot.records == m.value.0
  {
    var r := h.store.disk.Current().snapshot.records;
    assert Apply(StopObserved(h.busy.runID, failed), HOST, b.draw, r) ==
        ApplyStopObserved(h.busy.runID, failed, b.draw, r);
    assert ApplyStopObserved(h.busy.runID, failed, b.draw, r).Ok?;
    hide Commit, Next, Apply, ApplyStopObserved, VersionSound;
    StopStep(h, failed, b);
    NewCommitLands(h.store, StopObserved(h.busy.runID, failed), HOST, b);
  }

  /** THE replay theorem: a replayed `StopRun` leaves its agent at most one active
      run if and only if the stop is confirmed, the run was still active, or the
      agent has no other active run. */
  lemma ReplayedStopKeepsOneActiveExactly(
    h: Host, runID: string, caller: Caller, a: Attempt, failed: bool, b: Attempt, i: nat)
    requires Sound(h) && ReplaysStop(h, runID, caller, a) && Answered(h, caller, a) && Lands(h.store, b)
    requires Find(h.store.disk.Current().snapshot.records.runs, RunID, runID) == Some(i)
    ensures var r := h.store.disk.Current().snapshot.records;
            OneActive(Next(Next(h, BeginStop(runID, caller, a)),
                StopOutcome(failed, b)).store.disk.Current().snapshot.records)
            <==> !failed || IsActive(r.runs[i].state) || !OtherActive(r, i)
  {
    var r := h.store.disk.Current().snapshot.records;
    ReplayedStopSkipsChecks(h, runID, caller, a);
    var h' := Next(h, BeginStop(runID, caller, a));
    assert h'.store.disk.Current() == h.store.disk.Current();
    OutcomeLands(h', failed, b);
    assert VersionSound(h.store, |h.store.disk.versions| - 1);
    StopObservedKeepsOneActiveExactly(runID, failed, b.draw, r);
  }

  /** The failing input is ordinary: once a stopped run's agent has started
      another, a failed replay of that stop leaves it two active runs. */
  lemma RestartExposesReplay(
    h: Host, intent: Command, caller: Caller, c: Attempt, i: nat, oldID: string, a: Attempt, b: Attempt)
    requires Sound(h) && ReplaysStop(h, oldID, caller, a)
    requires var r := h.store.disk.Current().snapshot.records;
             && Find(r.runs, RunID, oldID) == Some(i) && r.runs[i].state == Exited
                && r.runs[i].agentID == caller.agentID
             && intent.StartIntent? && Refusal(intent, caller).None? && Apply(intent, caller, c.draw, r).Ok?
    requires ReceiptKey(caller.agentID, c.requestID) !in h.store.disk.Current().receipts
             && c.faults == Faults(false, false, false)
    requires a.faults == Faults(false, false, false)
    requires var h1 := Next(Next(h, BeginStart(intent, caller, c)), GiveUp); Lands(h1.store, b)
    ensures var h1 := Next(Next(h, BeginStart(intent, caller, c)), GiveUp);
            && Sound(h1) && ReplaysStop(h1, oldID, caller, a)
            && !OneActive(Next(Next(h1, BeginStop(oldID, caller, a)),
               StopOutcome(true, b)).store.disk.Current().snapshot.records)
  {
    var r := h.store.disk.Current().snapshot.records;
    hide Commit, Next, Apply, OtherActive, OneActive, UniqueRuns, VersionSound, Refusal;
    StartedAnother(h, intent, caller, c, i, oldID);
    StartStep(h, intent, caller, c);
    LedgerKept(h.store, intent, caller, c, ReceiptKey(caller.agentID, a.requestID));
    var h1 := Next(Next(h, BeginStart(intent, caller, c)), GiveUp);
    ReplayedStopKeepsOneActiveExactly(h1, oldID, caller, a, true, b, i);
  }

  lemma LedgerKept(s: Store, cmd: Command, caller: Caller, c: Attempt, key: string)
    requires WellFormed(s) && key in s.disk.Current().receipts
    ensures var s' := Commit(s, cmd, caller, c).0;
            key in s'.disk.Current().receipts && s'.disk.Current().receipts[key] == s.disk.Current().receipts[key]
  {
    hide WellFormed, Apply;
  }

  lemma AnotherIsActive(intent: Command, caller: Caller, draw: Draw, r: Records, i: nat, oldID: string)
    requires intent.StartIntent? && Refusal(intent, caller).None? && ApplyStartIntent(intent, caller, draw, r).Ok?
    requires Find(r.runs, RunID, oldID) == Some(i) && r.runs[i].state == Exited && r.runs[i].agentID == caller.agentID
    ensures var r' := ApplyStartIntent(intent, caller, draw, r).value.0;
            && Find(r'.runs, RunID, oldID) == Some(i) && !IsActive(r'.runs[i].state) && OtherActive(r', i)
  {
    var r' := ApplyStartIntent(intent, caller, draw, r).value.0;
    assert r'.runs[..|r.runs|] == r.runs && |r'.runs| == |r.runs| + 1;
    assert r'.runs[|r.runs|].agentID == caller.agentID && IsActive(r'.runs[|r.runs|].state);
    hide ApplyStartIntent, Refusal;
    assert r'.runs[i] == r'.runs[..|r.runs|][i];
    FindIsStable(r.runs, r'.runs, RunID, oldID);
  }

  /** A start that gives up after its intent. */
  lemma StartStep(h: Host, intent: Command, caller: Caller, c: Attempt)
    requires h.store.disk.Valid() && h.busy.Idle? && intent.StartIntent? && Refusal(intent, caller).None?
    ensures Next(Next(h, BeginStart(intent, caller, c)), GiveUp) == Host(Commit(h.store, intent, caller, c).0, Idle)
  {
    hide Commit;
  }

  lemma StartedAnother(h: Host, intent: Command, caller: Caller, c: Attempt, i: nat, oldID: string)
    requires Sound(h) && h.busy.Idle?
    requires var r := h.store.disk.Current().snapshot.records;
             && Find(r.runs, RunID, oldID) == Some(i) && r.runs[i].state == Exited
                && r.runs[i].agentID == caller.agentID
             && intent.StartIntent? && Refusal(intent, caller).None? && Apply(intent, caller, c.draw, r).Ok?
    requires ReceiptKey(caller.agentID, c.requestID) !in h.store.disk.Current().receipts
             && c.faults == Faults(false, false, false)
    ensures var h1 := Next(Next(h, BeginStart(intent, caller, c)), GiveUp);
            var r' := h1.store.disk.Current().snapshot.records;
            && Sound(h1) && h1.busy.Idle?
            && Find(r'.runs, RunID, oldID) == Some(i) && !IsActive(r'.runs[i].state) && OtherActive(r', i)
  {
    var r := h.store.disk.Current().snapshot.records;
    assert Apply(intent, caller, c.draw, r) == ApplyStartIntent(intent, caller, c.draw, r);
    hide Commit, Next, Apply, ApplyStartIntent, VersionSound, OtherActive, WellFormed, Refusal;
    StartStep(h, intent, caller, c);
    AnotherIsActive(intent, caller, c.draw, r, i, oldID);
    CommitIsSound(h.store, intent, caller, c);
    NewCommitLands(h.store, intent, caller, c);
  }
}
