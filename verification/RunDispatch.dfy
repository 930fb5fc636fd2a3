/** `StartRun`'s four steps (intent, marker, spawn, observation) under any
    interleaving of calls, replays, other commands, lost syncs and crashes: the
    supervisor's Start is called at most once per run ID. */
module RunDispatch {
  import opened Results
  import opened Domain
  import opened StateStore
  import opened StoreTheorems
  import opened Commands

  /* ---------- What commands do to runs ---------- */

  /** Runs are only appended; a run keeps its identity and its marker. */
  ghost predicate RunsEvolve(r: Records, r': Records) {
    && |r.runs| <= |r'.runs|
    && forall i :: 0 <= i < |r.runs| ==> RunEvolves(r.runs[i], r'.runs[i])
  }

  predicate RunEvolves(run: Run, run': Run) {
    && run'.id == run.id && run'.agentID == run.agentID && run'.profileID == run.profileID
    && run'.provenance == run.provenance
    && (run.dispatchAttemptedAt.Some? ==> run'.dispatchAttemptedAt == run.dispatchAttemptedAt)
  }

  lemma ReplacingEvolves(r: Records, r': Records, i: nat, run: Run)
    requires i < |r.runs| && r'.runs == r.runs[i := run] && RunEvolves(r.runs[i], run)
    ensures RunsEvolve(r, r')
  {
  }

  lemma SameRunsEvolve(r: Records, r': Records)
    requires r'.runs == r.runs
    ensures RunsEvolve(r, r')
  {
  }

  lemma StartKeepsRuns(cmd: Command, caller: Caller, draw: Draw, r: Records)
    requires cmd.StartIntent? && ApplyStartIntent(cmd, caller, draw, r).Ok?
    ensures RunsEvolve(r, ApplyStartIntent(cmd, caller, draw, r).value.0)
  {
    assert ApplyStartIntent(cmd, caller, draw, r).value.0.runs[..|r.runs|] == r.runs;
  }

  lemma MarkerKeepsRuns(runID: string, draw: Draw, r: Records)
    requires ApplyStartMarker(runID, draw, r).Ok?
    ensures RunsEvolve(r, ApplyStartMarker(runID, draw, r).value.0)
  {
    var i, r' := Find(r.runs, RunID, runID).value, ApplyStartMarker(runID, draw, r).value.0;
    ReplacingEvolves(r, r', i, r'.runs[i]);
  }

  lemma ObservationKeepsRuns(runID: string, failure: Option<string>, draw: Draw, r: Records)
    requires ApplyStartObserved(runID, failure, draw, r).Ok?
    ensures RunsEvolve(r, ApplyStartObserved(runID, failure, draw, r).value.0)
  {
    var i, r' := Find(r.runs, RunID, runID).value, ApplyStartObserved(runID, failure, draw, r).value.0;
    ReplacingEvolves(r, r', i, r'.runs[i]);
  }

  lemma StopKeepsRuns(runID: string, caller: Caller, draw: Draw, r: Records)
    requires ApplyStopIntent(runID, caller, draw, r).Ok?
    ensures RunsEvolve(r, ApplyStopIntent(runID, caller, draw, r).value.0)
  {
    var i, r' := Find(r.runs, RunID, runID).value, ApplyStopIntent(runID, caller, draw, r).value.0;
    ReplacingEvolves(r, r', i, r'.runs[i]);
  }

  lemma OutcomeKeepsRuns(runID: string, failed: bool, draw: Draw, r: Records)
    requires ApplyStopObserved(runID, failed, draw, r).Ok?
    ensures RunsEvolve(r, ApplyStopObserved(runID, failed, draw, r).value.0)
  {
    var i, r' := Find(r.runs, RunID, runID).value, ApplyStopObserved(runID, failed, draw, r).value.0;
    ReplacingEvolves(r, r', i, r'.runs[i]);
  }

  lemma ReconcileKeepsRuns(runID: string, draw: Draw, r: Records)
    requires ApplyReconcile(runID, draw, r).Ok?
    ensures RunsEvolve(r, ApplyReconcile(runID, draw, r).value.0)
  {
    var i, r' := Find(r.runs, RunID, runID), ApplyReconcile(runID, draw, r).value.0;
    if i.Some? && IsStuck(r.runs[i.value].state) {
      ReplacingEvolves(r, r', i.value, r'.runs[i.value]);
    }
  }

  lemma CommandKeepsRuns(cmd: Command, caller: Caller, draw: Draw, r: Records, r': Records)
    requires Apply(cmd, caller, draw, r).Ok? && r' == Apply(cmd, caller, draw, r).value.0
    ensures RunsEvolve(r, r')
  {
    if ChangesRuns(cmd) {
      RunCommandKeepsRuns(cmd, caller, draw, r, r');
    } else {
      Footprint(cmd, caller, draw, r);
      SameRunsEvolve(r, r');
    }
  }

  lemma RunCommandKeepsRuns(cmd: Command, caller: Caller, draw: Draw, r: Records, r': Records)
    requires ChangesRuns(cmd) && Apply(cmd, caller, draw, r).Ok? && r' == Apply(cmd, caller, draw, r).value.0
    ensures RunsEvolve(r, r')
  {
    hide RunsEvolve, ApplyStartIntent, ApplyStartMarker, ApplyStartObserved, ApplyStopIntent, ApplyStopObserved,
        ApplyReconcile;
    match cmd {
      case StartIntent(_, _, _, _, _) => StartKeepsRuns(cmd, caller, draw, r);
      case StartMarker(runID) => MarkerKeepsRuns(runID, draw, r);
      case StartObserved(runID, failure) => ObservationKeepsRuns(runID, failure, draw, r);
      case StopIntent(runID, _) => StopKeepsRuns(runID, caller, draw, r);
      case StopObserved(runID, failed) => OutcomeKeepsRuns(runID, failed, draw, r);
      case ReconcileRun(runID) => ReconcileKeepsRuns(runID, draw, r);
    }
  }

  /** Whether a dispatch of this run was ever marked. */
  predicate Marked(r: Records, runID: string) {
    var i := Find(r.runs, RunID, runID);
    i.Some? && r.runs[i.value].dispatchAttemptedAt.Some?
  }

  lemma MarkStays(r: Records, r': Records, runID: string)
    requires RunsEvolve(r, r') && Marked(r, runID)
    ensures Marked(r', runID)
  {
    FindIsStable(r.runs, r'.runs, RunID, runID);
  }

  lemma MarkerMarks(runID: string, draw: Draw, r: Records)
    requires ApplyStartMarker(runID, draw, r).Ok?
    ensures !Marked(r, runID)
    ensures Marked(ApplyStartMarker(runID, draw, r).value.0, runID)
  {
    FindIsStable(r.runs, ApplyStartMarker(runID, draw, r).value.0.runs, RunID, runID);
  }

  /* ---------- The protocol ---------- */

  /** Where one `StartRun` call stands. */
  datatype Stage =
    | AtIntent
    | AtMarker
    | AtSpawn(markerRevision: nat)
    | AtObservation(failure: Option<string>)
    | Returned(error: Option<ErrorCode>)

  datatype StartCall = StartCall(intent: Command, caller: Caller, requestID: string, fingerprint: string, stage: Stage)

  /** One Start the supervisor received, and the revision of its marker. */
  datatype Start = Start(runID: string, markerRevision: nat)

  /** The store, the calls of the current process, and every Start ever made. */
  datatype World = World(store: Store, calls: map<nat, StartCall>, starts: seq<Start>)

  datatype Move =
    | Invoke(id: nat, intent: Command, caller: Caller, requestID: string, fingerprint: string)
    | CommitIntent(id: nat, draw: Draw, faults: Faults)
    | CommitMarker(id: nat, markerID: Option<string>, draw: Draw, markerFingerprint: string, faults: Faults)
    | Spawn(id: nat, failure: Option<string>)
    | CommitObservation(id: nat, outcomeID: Option<string>, draw: Draw, outcomeFingerprint: string, faults: Faults)
    | OtherCommit(cmd: Command, actor: Caller, draw: Draw, otherID: string, otherFingerprint: string, faults: Faults)
    | Resolve(callerID: string, resolveID: string, faults: Faults)
    | Crash(kept: nat, settled: nat)

  function SetStage(w: World, id: nat, stage: Stage): World
    requires id in w.calls
  {
    w.(calls := w.calls[id := w.calls[id].(stage := stage)])
  }

  /** The error a commit ends a step with, if any. */
  function ErrorOf(out: Outcome): Option<ErrorCode> {
    if out.Err? then Some(out.error) else None
  }

  function Next(w: World, move: Move): (w': World)
    requires w.store.disk.Valid()
    ensures w'.store.disk.Valid()
  {
    match move
    case Invoke(id, intent, caller, requestID, fingerprint) =>
      if id in w.calls || !intent.StartIntent? then w
      else
        var refused := Refusal(intent, caller);
        w.(calls := w.calls[id := StartCall(intent, caller, requestID, fingerprint,
                                            if refused.Some? then Returned(refused) else AtIntent)])
    case CommitIntent(id, draw, faults) =>
      if id !in w.calls || !w.calls[id].stage.AtIntent? then w
      else
        var c := w.calls[id];
        var (s, out) := CommitStep(w.store,
            Submit(c.intent, c.caller, draw, WORKSPACE, c.requestID, c.fingerprint), faults);
        SetStage(w.(store := s), id, if out.Err? then Returned(ErrorOf(out)) else AtMarker)
    case CommitMarker(id, markerID, draw, fingerprint, faults) =>
      if id !in w.calls || !w.calls[id].stage.AtMarker? || !w.calls[id].intent.StartIntent? then w
      else if markerID.None? then SetStage(w, id, Returned(Some(IDSourceFailed)))
      else
        var marker := StartMarker(w.calls[id].intent.runID);
        var (s, out) := CommitStep(w.store, Submit(marker, HOST, draw, WORKSPACE, markerID.value, fingerprint), faults);
        SetStage(w.(store := s), id, if out.Err? then Returned(ErrorOf(out)) else AtSpawn(out.value.0.revision))
    case Spawn(id, failure) =>
      if id !in w.calls || !w.calls[id].stage.AtSpawn? || !w.calls[id].intent.StartIntent? then w
      else
        var started := Start(w.calls[id].intent.runID, w.calls[id].stage.markerRevision);
        SetStage(w.(starts := w.starts + [started]), id, AtObservation(failure))
    case CommitObservation(id, outcomeID, draw, fingerprint, faults) =>
      if id !in w.calls || !w.calls[id].stage.AtObservation? || !w.calls[id].intent.StartIntent? then w
      else if outcomeID.None? then SetStage(w, id, Returned(Some(IDSourceFailed)))
      else
        var failure := w.calls[id].stage.failure;
        var observed := StartObserved(w.calls[id].intent.runID, failure);
        var (s, out) := CommitStep(w.store,
            Submit(observed, HOST, draw, WORKSPACE, outcomeID.value, fingerprint), faults);
        SetStage(w.(store := s), id,
            Returned(if out.Err? then ErrorOf(out) else if failure.Some? then Some(SpawnFailed) else None))
    case OtherCommit(cmd, actor, draw, requestID, fingerprint, faults) =>
      w.(store := CommitStep(w.store, Submit(cmd, actor, draw, WORKSPACE, requestID, fingerprint), faults).0)
    case Resolve(callerID, requestID, faults) => w.(store := ResolveStep(w.store, callerID, requestID, faults).0)
    case Crash(kept, settled) => World(Reopened(w.store, kept, settled), map[], w.starts)
  }

  /** The ID source's promise: a marker's request ID is not in the ledger yet. */
  predicate Permitted(w: World, move: Move)
    requires w.store.disk.Valid()
  {
    move.CommitMarker? && move.markerID.Some? ==>
      ReceiptKey(HOST.agentID, move.markerID.value) !in w.store.disk.Current().receipts
  }

  /* ---------- The invariant ---------- */

  /** Consecutive versions differ by one command. */
  ghost predicate Chained(s: Store) {
    forall i :: 0 < i < |s.disk.versions| ==>
      RunsEvolve(s.disk.versions[i - 1].snapshot.records, s.disk.versions[i].snapshot.records)
  }

  lemma {:induction false} MarkPersists(s: Store, i: nat, j: nat, runID: string)
    requires Chained(s) && i <= j < |s.disk.versions|
    requires Marked(s.disk.versions[i].snapshot.records, runID)
    ensures Marked(s.disk.versions[j].snapshot.records, runID)
    decreases j - i
  {
    hide Marked;
    if i < j {
      MarkPersists(s, i, j - 1, runID);
      MarkStays(s.disk.versions[j - 1].snapshot.records, s.disk.versions[j].snapshot.records, runID);
    }
  }

  /** The marker commit at this revision first marked the run, and no crash can
      lose it. */
  ghost predicate DurablyMarked(s: Store, start: Start) {
    && s.disk.Valid()
    && 1 <= start.markerRevision <= s.disk.durable
    && !Marked(s.disk.versions[start.markerRevision - 1].snapshot.records, start.runID)
    && Marked(s.disk.versions[start.markerRevision].snapshot.records, start.runID)
  }

  /** What a call that passed the marker is about to start. */
  predicate AboutToStart(c: StartCall, start: Start) {
    c.intent.StartIntent? && c.stage == AtSpawn(start.markerRevision) && c.intent.runID == start.runID
  }

  ghost predicate Sound(w: World) {
    && WellFormed(w.store) && Chained(w.store)
    && (forall k :: 0 <= k < |w.starts| ==> DurablyMarked(w.store, w.starts[k]))
    && (forall j, k :: 0 <= j < k < |w.starts| ==> w.starts[j].runID != w.starts[k].runID)
    && (forall id :: id in w.calls && w.calls[id].stage.AtSpawn? ==> MaySpawn(w, id))
  }

  /** A call at the spawn step holds the only right to start its run. */
  ghost predicate MaySpawn(w: World, id: nat)
    requires id in w.calls && w.calls[id].stage.AtSpawn?
  {
    && w.calls[id].intent.StartIntent?
    && DurablyMarked(w.store, Start(w.calls[id].intent.runID, w.calls[id].stage.markerRevision))
    && (forall k :: 0 <= k < |w.starts| ==> w.starts[k].runID != w.calls[id].intent.runID)
    && (forall other ::
          other in w.calls && other != id && w.calls[other].stage.AtSpawn? && w.calls[other].intent.StartIntent? ==>
          w.calls[other].intent.runID != w.calls[id].intent.runID)
  }

  /** Durable marks stay durable marks when the store moves on or crashes. */
  ghost predicate StoreGrows(s: Store, s': Store) {
    && WellFormed(s') && Chained(s')
    && s.disk.Valid() && s.disk.durable <= s'.disk.durable
    && forall i :: 0 <= i <= s.disk.durable ==> s'.disk.versions[i] == s.disk.versions[i]
  }

  lemma CommitGrows(
    s: Store, cmd: Command, actor: Caller, draw: Draw, requestID: string, fingerprint: string, faults: Faults)
    requires WellFormed(s) && Chained(s)
    ensures StoreGrows(s, CommitStep(s, Submit(cmd, actor, draw, WORKSPACE, requestID, fingerprint), faults).0)
  {
    var req := Submit(cmd, actor, draw, WORKSPACE, requestID, fingerprint);
    CommitKeeps(s, req, faults);
    var s' := CommitStep(s, req, faults).0;
    if Applies(s, req, faults) {
      var r := s.disk.Current().snapshot.records;
      CommandKeepsRuns(cmd, actor, draw, r, req.mutate(r).value.0);
    }
    forall i | 0 < i < |s'.disk.versions|
      ensures RunsEvolve(s'.disk.versions[i - 1].snapshot.records, s'.disk.versions[i].snapshot.records)
    {
      if i < |s.disk.versions| {
        assert s'.disk.versions[i] == s.disk.versions[i];
        assert s'.disk.versions[i - 1] == s.disk.versions[i - 1];
      }
    }
  }

  lemma SoundWhenStoreGrows(w: World, s: Store)
    requires Sound(w) && StoreGrows(w.store, s)
    ensures Sound(w.(store := s))
  {
    var w' := w.(store := s);
    forall id | id in w'.calls && w'.calls[id].stage.AtSpawn?
      ensures MaySpawn(w', id)
    {
      assert MaySpawn(w, id);
    }
  }

  /** Entering any stage but the spawn step keeps soundness. */
  lemma SoundWhenStageLeaves(w: World, id: nat, stage: Stage)
    requires Sound(w) && id in w.calls && !stage.AtSpawn?
    ensures Sound(SetStage(w, id, stage))
  {
    hide WellFormed, Chained, DurablyMarked;
    var w' := SetStage(w, id, stage);
    forall other | other in w'.calls && w'.calls[other].stage.AtSpawn?
      ensures MaySpawn(w', other)
    {
      assert MaySpawn(w, other);
    }
  }

  /** A marker commit that returned success marked the run for the first time,
      durably. */
  lemma MarkerSucceeded(s: Store, runID: string, draw: Draw, markerID: string, fingerprint: string, faults: Faults)
    requires WellFormed(s) && Chained(s) && ReceiptKey(HOST.agentID, markerID) !in s.disk.Current().receipts
    requires CommitStep(s, Submit(StartMarker(runID), HOST, draw, WORKSPACE, markerID, fingerprint), faults).1.Ok?
    ensures !Marked(s.disk.Current().snapshot.records, runID)
    ensures var (s', out) :=
            CommitStep(s, Submit(StartMarker(runID), HOST, draw, WORKSPACE, markerID, fingerprint), faults);
            DurablyMarked(s', Start(runID, out.value.0.revision))
  {
    var req := Submit(StartMarker(runID), HOST, draw, WORKSPACE, markerID, fingerprint);
    FreshSuccess(s, req, faults);
    hide WellFormed, Chained, ApplyStartMarker, CommitStep;
    MarkerMarks(runID, draw, s.disk.Current().snapshot.records);
  }

  lemma FreshSuccess(s: Store, req: CommitRequest, faults: Faults)
    requires WellFormed(s) && ReceiptKey(req.caller, req.requestID) !in s.disk.Current().receipts
    requires CommitStep(s, req, faults).1.Ok?
    ensures req.mutate(s.disk.Current().snapshot.records).Ok?
    ensures var (s', out) := CommitStep(s, req, faults);
            var n := |s.disk.versions|;
            && out.value.0.revision == n == s'.disk.durable && |s'.disk.versions| == n + 1
            && s'.disk.versions[n - 1] == s.disk.Current()
            && s'.disk.versions[n].snapshot.records == req.mutate(s.disk.Current().snapshot.records).value.0
  {
    CommitKeeps(s, req, faults);
  }

  lemma UnmarkedHasNoStart(w: World, runID: string)
    requires Sound(w) && !Marked(w.store.disk.Current().snapshot.records, runID)
    ensures forall k :: 0 <= k < |w.starts| ==> w.starts[k].runID != runID
    ensures forall id :: id in w.calls && w.calls[id].stage.AtSpawn? ==> w.calls[id].intent.runID != runID
  {
    var last := |w.store.disk.versions| - 1;
    forall k | 0 <= k < |w.starts|
      ensures w.starts[k].runID != runID
    {
      MarkPersists(w.store, w.starts[k].markerRevision, last, w.starts[k].runID);
    }
    forall id | id in w.calls && w.calls[id].stage.AtSpawn?
      ensures w.calls[id].intent.runID != runID
    {
      assert MaySpawn(w, id);
      MarkPersists(w.store, w.calls[id].stage.markerRevision, last, w.calls[id].intent.runID);
    }
  }

  lemma MarkerKeeps(w: World, move: Move)
    requires Sound(w) && move.CommitMarker? && Permitted(w, move)
    ensures Sound(Next(w, move))
  {
    var id := move.id;
    if id in w.calls && w.calls[id].stage.AtMarker? && w.calls[id].intent.StartIntent? {
      if move.markerID.None? {
        SoundWhenStageLeaves(w, id, Returned(Some(IDSourceFailed)));
      } else {
        var runID := w.calls[id].intent.runID;
        var (s, out) := CommitStep(
          w.store, Submit(StartMarker(runID), HOST, move.draw, WORKSPACE, move.markerID.value,
              move.markerFingerprint), move.faults);
        CommitGrows(w.store, StartMarker(runID), HOST, move.draw, move.markerID.value, move.markerFingerprint,
            move.faults);
        SoundWhenStoreGrows(w, s);
        if out.Err? {
          SoundWhenStageLeaves(w.(store := s), id, Returned(ErrorOf(out)));
        } else {
          MarkerSucceeded(w.store, runID, move.draw, move.markerID.value, move.markerFingerprint, move.faults);
          UnmarkedHasNoStart(w, runID);
          EnterSpawn(w.(store := s), id, out.value.0.revision);
        }
      }
    }
  }

  lemma EnterSpawn(w: World, id: nat, revision: nat)
    requires Sound(w) && id in w.calls && w.calls[id].intent.StartIntent? && !w.calls[id].stage.AtSpawn?
    requires DurablyMarked(w.store, Start(w.calls[id].intent.runID, revision))
    requires forall k :: 0 <= k < |w.starts| ==> w.starts[k].runID != w.calls[id].intent.runID
    requires forall other :: other in w.calls && w.calls[other].stage.AtSpawn? ==>
               w.calls[other].intent.runID != w.calls[id].intent.runID
    ensures Sound(SetStage(w, id, AtSpawn(revision)))
  {
    hide WellFormed, Chained, DurablyMarked;
    var w' := SetStage(w, id, AtSpawn(revision));
    forall other | other in w'.calls && w'.calls[other].stage.AtSpawn?
      ensures MaySpawn(w', other)
    {
      if other != id {
        assert MaySpawn(w, other);
      }
    }
  }

  lemma SpawnKeeps(w: World, id: nat, failure: Option<string>)
    requires Sound(w)
    ensures Sound(Next(w, Spawn(id, failure)))
  {
    if id in w.calls && w.calls[id].stage.AtSpawn? && w.calls[id].intent.StartIntent? {
      assert MaySpawn(w, id);
      var started := Start(w.calls[id].intent.runID, w.calls[id].stage.markerRevision);
      LeaveSpawn(w, id, started, w.(calls := w.calls[id := w.calls[id].(stage := AtObservation(failure))]));
    }
  }

  /** The call that used its right to start leaves the others theirs. */
  lemma LeaveSpawn(w: World, id: nat, started: Start, left: World)
    requires Sound(w) && id in w.calls && AboutToStart(w.calls[id], started) && MaySpawn(w, id)
    requires id in left.calls && !left.calls[id].stage.AtSpawn?
    requires left == w.(calls := w.calls[id := left.calls[id]])
    ensures Sound(left.(starts := w.starts + [started]))
  {
    hide WellFormed, Chained, DurablyMarked;
    var w' := left.(starts := w.starts + [started]);
    forall other | other in w'.calls && w'.calls[other].stage.AtSpawn?
      ensures MaySpawn(w', other)
    {
      assert MaySpawn(w, other);
    }
  }

  lemma IntentKeeps(w: World, id: nat, draw: Draw, faults: Faults)
    requires Sound(w)
    ensures Sound(Next(w, CommitIntent(id, draw, faults)))
  {
    if id in w.calls && w.calls[id].stage.AtIntent? {
      var c := w.calls[id];
      var (s, out) := CommitStep(w.store,
          Submit(c.intent, c.caller, draw, WORKSPACE, c.requestID, c.fingerprint), faults);
      CommitGrows(w.store, c.intent, c.caller, draw, c.requestID, c.fingerprint, faults);
      SoundWhenStoreGrows(w, s);
      SoundWhenStageLeaves(w.(store := s), id, if out.Err? then Returned(ErrorOf(out)) else AtMarker);
    }
  }

  lemma ObservationKeeps(w: World, move: Move)
    requires Sound(w) && move.CommitObservation?
    ensures Sound(Next(w, move))
  {
    var id := move.id;
    if id in w.calls && w.calls[id].stage.AtObservation? && w.calls[id].intent.StartIntent? {
      if move.outcomeID.None? {
        SoundWhenStageLeaves(w, id, Returned(Some(IDSourceFailed)));
      } else {
        var observed := StartObserved(w.calls[id].intent.runID, w.calls[id].stage.failure);
        var s := CommitStep(
          w.store, Submit(observed, HOST, move.draw, WORKSPACE, move.outcomeID.value, move.outcomeFingerprint),
              move.faults).0;
        CommitGrows(w.store, observed, HOST, move.draw, move.outcomeID.value, move.outcomeFingerprint, move.faults);
        SoundWhenStoreGrows(w, s);
        SoundWhenStageLeaves(w.(store := s), id, Next(w, move).calls[id].stage);
      }
    }
  }

  lemma InvokeKeeps(w: World, move: Move)
    requires Sound(w) && move.Invoke?
    ensures Sound(Next(w, move))
  {
    var w' := Next(w, move);
    hide WellFormed, Chained, DurablyMarked;
    forall id | id in w'.calls && w'.calls[id].stage.AtSpawn?
      ensures MaySpawn(w', id)
    {
      assert MaySpawn(w, id);
    }
  }

  lemma MoveKeeps(w: World, move: Move)
    requires Sound(w) && Permitted(w, move)
    ensures Sound(Next(w, move))
  {
    match move {
      case Invoke(_, _, _, _, _) => InvokeKeeps(w, move);
      case CommitIntent(id, draw, faults) => IntentKeeps(w, id, draw, faults);
      case CommitMarker(_, _, _, _, _) => MarkerKeeps(w, move);
      case Spawn(id, failure) => SpawnKeeps(w, id, failure);
      case CommitObservation(_, _, _, _, _) => ObservationKeeps(w, move);
      case OtherCommit(cmd, actor, draw, requestID, fingerprint, faults) =>
        CommitGrows(w.store, cmd, actor, draw, requestID, fingerprint, faults);
        SoundWhenStoreGrows(w,
            CommitStep(w.store, Submit(cmd, actor, draw, WORKSPACE, requestID, fingerprint), faults).0);
      case Resolve(callerID, requestID, faults) =>
        ResolveKeeps(w.store, callerID, requestID, faults);
        SoundWhenStoreGrows(w, ResolveStep(w.store, callerID, requestID, faults).0);
      case Crash(kept, settled) =>
        CrashKeeps(w.store, kept, settled);
    }
  }

  /* ---------- Whole histories ---------- */

  const NEW_WORLD := World(NEW_STORE, map[], [])

  function WorldAfter(moves: seq<Move>): (w: World)
    ensures w.store.disk.Valid()
  {
    if moves == [] then NEW_WORLD
    else
      var before, move := WorldAfter(moves[..|moves| - 1]), moves[|moves| - 1];
      if Permitted(before, move) then Next(before, move) else before
  }

  lemma {:induction false} EveryWorldIsSound(moves: seq<Move>)
    ensures Sound(WorldAfter(moves))
  {
    if moves != [] {
      var before, move := WorldAfter(moves[..|moves| - 1]), moves[|moves| - 1];
      EveryWorldIsSound(moves[..|moves| - 1]);
      if Permitted(before, move) {
        MoveKeeps(before, move);
      }
    }
  }

  /** THE dispatch theorem: over every history, no run ID is started twice, and
      each start was preceded by a marker commit that every later crash keeps. */
  lemma StartedAtMostOnce(moves: seq<Move>, j: nat, k: nat)
    requires j < |WorldAfter(moves).starts| && k < |WorldAfter(moves).starts|
    ensures WorldAfter(moves).starts[j].runID == WorldAfter(moves).starts[k].runID ==> j == k
    ensures DurablyMarked(WorldAfter(moves).store, WorldAfter(moves).starts[k])
  {
    var w := WorldAfter(moves);
    EveryWorldIsSound(moves);
    if j < k {
      assert w.starts[j].runID != w.starts[k].runID;
    } else if k < j {
      assert w.starts[k].runID != w.starts[j].runID;
    }
  }

  /** The mark precedes the call: at the moment of a spawn it is already durable. */
  lemma SpawnFollowsDurableMarker(moves: seq<Move>, id: nat, failure: Option<string>)
    requires id in WorldAfter(moves).calls && WorldAfter(moves).calls[id].stage.AtSpawn?
    ensures var w := WorldAfter(moves);
            && w.calls[id].intent.StartIntent?
            && var start := Start(w.calls[id].intent.runID, w.calls[id].stage.markerRevision);
               DurablyMarked(w.store, start) && Next(w, Spawn(id, failure)).starts == w.starts + [start]
  {
    EveryWorldIsSound(moves);
    assert MaySpawn(WorldAfter(moves), id);
  }
}
