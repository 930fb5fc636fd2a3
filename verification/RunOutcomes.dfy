/** What an uninterrupted `StartRun` or `StopRun` that meets no fault leaves in the
    store: the run, its operation, and nothing else, as the supervisor answered. */
module RunOutcomes {
  import opened Results
  import opened Domain
  import opened StateStore
  import opened StoreTheorems
  import opened Commands
  import opened RunCommands
  import RunDispatch
  import RunLifecycle
  import ExactlyOnce
  import MessageFacts

  /* ---------- The records after a start ---------- */

  predicate NoOperation(r: Records, id: string) {
    forall o :: 0 <= o < |r.operations| ==> r.operations[o].id != id
  }

  /** The run and the operation a start adds, as the supervisor answered it. */
  function StartedRun(intent: Command, caller: Caller, d1: Draw, d2: Draw, d3: Draw, failure: Option<string>): Run
    requires intent.StartIntent?
  {
    var claim := Provenance(caller.agentID, d1.now);
    match failure
    case None =>
      Run(intent.runID, intent.agentID, intent.profileID, Running, claim, Some(d2.now), Some(d3.now), None, "")
    case Some(reason) =>
      Run(intent.runID, intent.agentID, intent.profileID, Exited, claim, Some(d2.now), None, Some(d3.now), reason)
  }

  function StartedOperation(intent: Command, d1: Draw, d3: Draw, failure: Option<string>): Operation
    requires intent.StartIntent?
  {
    match failure
    case None => Operation(intent.runID + "-start", intent.runID, "StartRun", OpSucceeded, d1.now,
        Some(d3.now), "Started")
    case Some(reason) =>
      Operation(intent.runID + "-start", intent.runID, "StartRun", OpFailed, d1.now, Some(d3.now), reason)
  }

  lemma IntentEffect(intent: Command, caller: Caller, draw: Draw, r: Records)
    requires intent.StartIntent? && Apply(intent, caller, draw, r).Ok?
    ensures Find(r.runs, RunID, intent.runID).None? && Find(r.profiles, ProfileID, intent.profileID).Some?
    ensures Apply(intent, caller, draw, r).value.0 ==
            r.(runs := r.runs + [Run(intent.runID, intent.agentID, intent.profileID, Starting,
                                     Provenance(caller.agentID, draw.now), None, None, None, "")],
               operations := r.operations + [Operation(intent.runID + "-start", intent.runID, "StartRun", OpPending,
                                                       draw.now, None, "")])
  {
    assert Apply(intent, caller, draw, r) == ApplyStartIntent(intent, caller, draw, r);
  }

  /** A record appended under a new ID is the one found. */
  lemma FoundLast<T>(s: seq<T>, last: T, id: T -> string)
    requires forall i :: 0 <= i < |s| ==> id(s[i]) != id(last)
    ensures Find(s + [last], id, id(last)) == Some(|s|)
  {
    var all := s + [last];
    assert id(all[|s|]) == id(last);
    assert forall i :: 0 <= i < |s| ==> id(all[i]) != id(last);
  }

  lemma MarkerSets(r: Records, i: nat, o: nat, runID: string, draw: Draw)
    requires Find(r.runs, RunID, runID) == Some(i) && Find(r.operations, OperationID, StartOperation(runID)) == Some(o)
    requires Find(r.profiles, ProfileID, r.runs[i].profileID).Some? && draw.eventID.Some?
    requires r.runs[i].state == Starting && r.runs[i].dispatchAttemptedAt.None?
    ensures var m := Apply(StartMarker(runID), HOST, draw, r);
            m.Ok? && m.value.0 == r.(runs := r.runs[i := r.runs[i].(dispatchAttemptedAt := Some(draw.now))],
                                     operations := r.operations[o := r.operations[o].(state := OpRunning)])
  {
    hide Find;
  }

  lemma MarkerEffect(r: Records, run: Run, op: Operation, draw: Draw)
    requires Find(r.runs, RunID, run.id).None? && NoOperation(r, op.id) && op.id == StartOperation(run.id)
    requires Find(r.profiles, ProfileID, run.profileID).Some? && draw.eventID.Some?
    requires run.state == Starting && run.dispatchAttemptedAt.None?
    ensures var r1 := r.(runs := r.runs + [run], operations := r.operations + [op]);
            var m := Apply(StartMarker(run.id), HOST, draw, r1);
            m.Ok? && m.value.0 == r.(runs := r.runs + [run.(dispatchAttemptedAt := Some(draw.now))],
                                     operations := r.operations + [op.(state := OpRunning)])
  {
    var r1 := r.(runs := r.runs + [run], operations := r.operations + [op]);
    FoundLast(r.runs, run, RunID);
    FoundLast(r.operations, op, OperationID);
    hide Apply, Find;
    MarkerSets(r1, |r.runs|, |r.operations|, run.id, draw);
    FoundInGrown(r, run, op, draw);
  }

  lemma FoundInGrown(r: Records, run: Run, op: Operation, draw: Draw)
    ensures (r.runs + [run])[|r.runs| := run.(dispatchAttemptedAt := Some(draw.now))]
            == r.runs + [run.(dispatchAttemptedAt := Some(draw.now))]
    ensures (r.operations + [op])[|r.operations| := op.(state := OpRunning)] == r.operations + [op.(state := OpRunning)]
  {
  }

  lemma ObservationSets(r: Records, i: nat, o: nat, runID: string, failure: Option<string>, draw: Draw)
    requires Find(r.runs, RunID, runID) == Some(i) && Find(r.operations, OperationID, StartOperation(runID)) == Some(o)
    requires draw.eventID.Some?
    ensures var m := Apply(StartObserved(runID, failure), HOST, draw, r);
            m.Ok? && m.value.0 ==
            match failure
            case None =>
              r.(runs := r.runs[i := r.runs[i].(state := Running, startedAt := Some(draw.now))],
                 operations := r.operations[o := r.operations[o].(
                   state := OpSucceeded, completedAt := Some(draw.now), outcome := "Started")])
            case Some(reason) =>
              r.(runs := r.runs[i := r.runs[i].(state := Exited, exitedAt := Some(draw.now), exitReason := reason)],
                 operations := r.operations[o := r.operations[o].(
                   state := OpFailed, completedAt := Some(draw.now), outcome := reason)])
  {
    hide Find;
  }

  lemma ReplaceLast<T>(s: seq<T>, last: T, next: T)
    ensures (s + [last])[|s| := next] == s + [next]
  {
  }

  lemma ObservedEffect(r: Records, run: Run, op: Operation, failure: Option<string>, draw: Draw)
    requires Find(r.runs, RunID, run.id).None? && NoOperation(r, op.id) && op.id == StartOperation(run.id)
    requires draw.eventID.Some?
    ensures var r2 := r.(runs := r.runs + [run], operations := r.operations + [op]);
            var m := Apply(StartObserved(run.id, failure), HOST, draw, r2);
            m.Ok? && m.value.0 ==
            match failure
            case None => r.(runs := r.runs + [run.(state := Running, startedAt := Some(draw.now))],
                            operations := r.operations + [op.(state := OpSucceeded, completedAt := Some(draw.now),
                                                              outcome := "Started")])
            case Some(reason) =>
              r.(runs := r.runs + [run.(state := Exited, exitedAt := Some(draw.now), exitReason := reason)],
                 operations := r.operations + [op.(state := OpFailed, completedAt := Some(draw.now),
                     outcome := reason)])
  {
    var r2 := r.(runs := r.runs + [run], operations := r.operations + [op]);
    FoundLast(r.runs, run, RunID);
    FoundLast(r.operations, op, OperationID);
    hide Apply, Find;
    ObservationSets(r2, |r.runs|, |r.operations|, run.id, failure, draw);
    forall next: Run ensures (r.runs + [run])[|r.runs| := next] == r.runs + [next] {
      ReplaceLast(r.runs, run, next);
    }
    forall next: Operation ensures (r.operations + [op])[|r.operations| := next] == r.operations + [next] {
      ReplaceLast(r.operations, op, next);
    }
  }

  /** Intent, marker and observation together. */
  lemma StartEffect(
    intent: Command, caller: Caller, d1: Draw, d2: Draw, d3: Draw, failure: Option<string>, r: Records)
    requires intent.StartIntent? && Apply(intent, caller, d1, r).Ok? && d2.eventID.Some? && d3.eventID.Some?
    requires NoOperation(r, intent.runID + "-start")
    ensures var r1 := Apply(intent, caller, d1, r).value.0;
            var m2 := Apply(StartMarker(intent.runID), HOST, d2, r1);
            m2.Ok? &&
            var m3 := Apply(StartObserved(intent.runID, failure), HOST, d3, m2.value.0);
            m3.Ok? && m3.value.0 == r.(runs := r.runs + [StartedRun(intent, caller, d1, d2, d3, failure)],
                                       operations := r.operations + [StartedOperation(intent, d1, d3, failure)])
  {
    hide Apply;
    IntentEffect(intent, caller, d1, r);
    var run := Run(intent.runID, intent.agentID, intent.profileID, Starting, Provenance(caller.agentID, d1.now),
                   None, None, None, "");
    var op := Operation(intent.runID + "-start", intent.runID, "StartRun", OpPending, d1.now, None, "");
    MarkerEffect(r, run, op, d2);
    ObservedEffect(r, run.(dispatchAttemptedAt := Some(d2.now)), op.(state := OpRunning), failure, d3);
  }

  /* ---------- Clean commits ---------- */

  const NO_FAULTS := Faults(false, false, false)

  /** A commit that meets no fault, under an ID the ledger does not hold. */
  predicate Clean(s: Store, caller: Caller, id: string, inputs: Inputs)
    requires s.disk.Valid()
  {
    inputs.faults == NO_FAULTS && ReceiptKey(caller.agentID, id) !in s.disk.Current().receipts
  }

  function After(s: Store, cmd: Command, caller: Caller, id: string, inputs: Inputs): (Store, Outcome)
    requires s.disk.Valid()
  {
    CommitStep(s, Submit(cmd, caller, inputs.draw, WORKSPACE, id, inputs.fingerprint), inputs.faults)
  }

  function Held(s: Store): Records
    requires s.disk.Valid()
  {
    s.disk.Current().snapshot.records
  }

  lemma CleanCommit(s: Store, cmd: Command, caller: Caller, id: string, inputs: Inputs)
    requires WellFormed(s) && Clean(s, caller, id, inputs) && Apply(cmd, caller, inputs.draw, Held(s)).Ok?
    ensures var (s', out) := After(s, cmd, caller, id, inputs);
            && WellFormed(s') && out.Ok? && Held(s') == Apply(cmd, caller, inputs.draw, Held(s)).value.0
            && s'.disk.Current().receipts.Keys == s.disk.Current().receipts.Keys + {ReceiptKey(caller.agentID, id)}
            && s'.disk.durable == |s'.disk.versions| - 1
  {
    CommitKeeps(s, Submit(cmd, caller, inputs.draw, WORKSPACE, id, inputs.fingerprint), inputs.faults);
    hide WellFormed, Apply;
  }

  /* ---------- StartRun ---------- */

  /** What the ID source and the clock promise a whole call, and no fault. */
  predicate Smooth(s: Store, caller: Caller, requestID: string, first: Inputs, marker: Inputs, outcome: Inputs)
    requires s.disk.Valid()
  {
    && marker.id.Some? && outcome.id.Some? && marker.draw.eventID.Some? && outcome.draw.eventID.Some?
    && Clean(s, caller, requestID, first) && Clean(s, HOST, marker.id.value, marker)
    && Clean(s, HOST, outcome.id.value, outcome)
    && ReceiptKey(HOST.agentID, marker.id.value) != ReceiptKey(caller.agentID, requestID)
    && ReceiptKey(HOST.agentID, outcome.id.value) != ReceiptKey(caller.agentID, requestID)
    && ReceiptKey(HOST.agentID, outcome.id.value) != ReceiptKey(HOST.agentID, marker.id.value)
  }

  /** The three commits, one after another. */
  lemma StartCommits(
    s: Store, intent: Command, caller: Caller, requestID: string, first: Inputs, marker: Inputs,
    failure: Option<string>, outcome: Inputs)
    requires WellFormed(s) && Smooth(s, caller, requestID, first, marker, outcome) && intent.StartIntent?
    requires Apply(intent, caller, first.draw, Held(s)).Ok? && NoOperation(Held(s), intent.runID + "-start")
    ensures var (s1, out1) := After(s, intent, caller, requestID, first);
            && WellFormed(s1) && out1.Ok?
            && var (s2, out2) := After(s1, StartMarker(intent.runID), HOST, marker.id.value, marker);
            && WellFormed(s2) && out2.Ok?
            && var (s3, out3) := After(s2, StartObserved(intent.runID, failure), HOST, outcome.id.value, outcome);
            && WellFormed(s3) && out3.Ok? && s3.disk.durable == |s3.disk.versions| - 1
            && Held(s3) == Held(s).(
                 runs := Held(s).runs + [StartedRun(intent, caller, first.draw, marker.draw, outcome.draw, failure)],
                 operations := Held(s).operations + [StartedOperation(intent, first.draw, outcome.draw, failure)])
  {
    StartEffect(intent, caller, first.draw, marker.draw, outcome.draw, failure, Held(s));
    hide WellFormed, Apply, After, StartedRun, StartedOperation;
    CleanCommit(s, intent, caller, requestID, first);
    var s1 := After(s, intent, caller, requestID, first).0;
    assert s1.disk.Valid() by { ValidStore(s1); }
    CleanCommit(s1, StartMarker(intent.runID), HOST, marker.id.value, marker);
    var s2 := After(s1, StartMarker(intent.runID), HOST, marker.id.value, marker).0;
    assert s2.disk.Valid() by { ValidStore(s2); }
    CleanCommit(s2, StartObserved(intent.runID, failure), HOST, outcome.id.value, outcome);
  }

  lemma ValidStore(s: Store)
    requires WellFormed(s)
    ensures s.disk.Valid()
  {
  }

  function StartedWorld(
    w: RunDispatch.World, intent: Command, caller: Caller, requestID: string, first: Inputs, s: Store,
    starts: seq<RunDispatch.Start>, stage: RunDispatch.Stage): RunDispatch.World
  {
    RunDispatch.World(
      s, w.calls[0 := RunDispatch.StartCall(intent, caller, requestID, first.fingerprint, stage)], starts)
  }

  /** The protocol's moves are those commits, with the one Start in between. */
  lemma StartFollows(
    w: RunDispatch.World, intent: Command, caller: Caller, requestID: string, first: Inputs, marker: Inputs,
    failure: Option<string>, outcome: Inputs)
    requires w.store.disk.Valid() && 0 !in w.calls && intent.StartIntent? && Refusal(intent, caller).None?
    requires marker.id.Some? && outcome.id.Some? && After(w.store, intent, caller, requestID, first).1.Ok?
    requires var s1 := After(w.store, intent, caller, requestID, first).0;
             s1.disk.Valid() && After(s1, StartMarker(intent.runID), HOST, marker.id.value, marker).1.Ok?
    requires var s1 := After(w.store, intent, caller, requestID, first).0;
             var s2 := After(s1, StartMarker(intent.runID), HOST, marker.id.value, marker).0;
             s2.disk.Valid() && After(s2, StartObserved(intent.runID, failure), HOST, outcome.id.value, outcome).1.Ok?
    ensures var s1 := After(w.store, intent, caller, requestID, first).0;
            var (s2, out2) := After(s1, StartMarker(intent.runID), HOST, marker.id.value, marker);
            var s3 := After(s2, StartObserved(intent.runID, failure), HOST, outcome.id.value, outcome).0;
            Follow(w, StartMoves(intent, caller, requestID, first, marker, failure, outcome)) ==
            StartedWorld(w, intent, caller, requestID, first, s3,
                         w.starts + [RunDispatch.Start(intent.runID, out2.value.0.revision)],
                         RunDispatch.Returned(if failure.Some? then Some(SpawnFailed) else None))
  {
    hide CommitStep, Submit, Refusal, RunDispatch.Next, StartedWorld, After;
    var s1 := After(w.store, intent, caller, requestID, first).0;
    var (s2, out2) := After(s1, StartMarker(intent.runID), HOST, marker.id.value, marker);
    var s3 := After(s2, StartObserved(intent.runID, failure), HOST, outcome.id.value, outcome).0;
    var starts := w.starts + [RunDispatch.Start(intent.runID, out2.value.0.revision)];
    InvokeMove(w, intent, caller, requestID, first);
    IntentMove(w, intent, caller, requestID, first);
    MarkerMove(w, intent, caller, requestID, first, s1, marker);
    SpawnMove(w, intent, caller, requestID, first, s2, out2.value.0.revision, failure);
    ObservationMove(w, intent, caller, requestID, first, s2, starts, failure, outcome);
    FollowFive(w, StartMoves(intent, caller, requestID, first, marker, failure, outcome),
               StartedWorld(w, intent, caller, requestID, first, w.store, w.starts, RunDispatch.AtIntent),
               StartedWorld(w, intent, caller, requestID, first, s1, w.starts, RunDispatch.AtMarker),
               StartedWorld(w, intent, caller, requestID, first, s2, w.starts,
                   RunDispatch.AtSpawn(out2.value.0.revision)),
               StartedWorld(w, intent, caller, requestID, first, s2, starts, RunDispatch.AtObservation(failure)),
               StartedWorld(w, intent, caller, requestID, first, s3, starts,
                            RunDispatch.Returned(if failure.Some? then Some(SpawnFailed) else None)));
  }

  lemma InvokeMove(w: RunDispatch.World, intent: Command, caller: Caller, requestID: string, first: Inputs)
    requires w.store.disk.Valid() && 0 !in w.calls && intent.StartIntent? && Refusal(intent, caller).None?
    ensures RunDispatch.Next(w, RunDispatch.Invoke(0, intent, caller, requestID, first.fingerprint)) ==
            StartedWorld(w, intent, caller, requestID, first, w.store, w.starts, RunDispatch.AtIntent)
  {
    hide Refusal;
  }

  lemma IntentMove(w: RunDispatch.World, intent: Command, caller: Caller, requestID: string, first: Inputs)
    requires w.store.disk.Valid() && After(w.store, intent, caller, requestID, first).1.Ok?
    ensures RunDispatch.Next(StartedWorld(w, intent, caller, requestID, first, w.store, w.starts, RunDispatch.AtIntent),
                             RunDispatch.CommitIntent(0, first.draw, first.faults)) ==
            StartedWorld(w, intent, caller, requestID, first, After(w.store, intent, caller, requestID, first).0,
                w.starts,
                         RunDispatch.AtMarker)
  {
    hide CommitStep, Submit;
  }

  lemma MarkerMove(
    w: RunDispatch.World, intent: Command, caller: Caller, requestID: string, first: Inputs, s: Store, marker: Inputs)
    requires s.disk.Valid() && intent.StartIntent? && marker.id.Some?
    requires After(s, StartMarker(intent.runID), HOST, marker.id.value, marker).1.Ok?
    ensures var (s', out) := After(s, StartMarker(intent.runID), HOST, marker.id.value, marker);
            RunDispatch.Next(StartedWorld(w, intent, caller, requestID, first, s, w.starts, RunDispatch.AtMarker),
                             RunDispatch.CommitMarker(0, marker.id, marker.draw, marker.fingerprint, marker.faults)) ==
            StartedWorld(w, intent, caller, requestID, first, s', w.starts, RunDispatch.AtSpawn(out.value.0.revision))
  {
    hide CommitStep, Submit;
  }

  lemma SpawnMove(
    w: RunDispatch.World, intent: Command, caller: Caller, requestID: string, first: Inputs, s: Store, revision: nat,
    failure: Option<string>)
    requires s.disk.Valid() && intent.StartIntent?
    ensures RunDispatch.Next(
              StartedWorld(w, intent, caller, requestID, first, s, w.starts, RunDispatch.AtSpawn(revision)),
              RunDispatch.Spawn(0, failure)) ==
            StartedWorld(w, intent, caller, requestID, first, s, w.starts + [RunDispatch.Start(intent.runID, revision)],
                         RunDispatch.AtObservation(failure))
  {
  }

  lemma ObservationMove(
    w: RunDispatch.World, intent: Command, caller: Caller, requestID: string, first: Inputs, s: Store,
    starts: seq<RunDispatch.Start>, failure: Option<string>, outcome: Inputs)
    requires s.disk.Valid() && intent.StartIntent? && outcome.id.Some?
    requires After(s, StartObserved(intent.runID, failure), HOST, outcome.id.value, outcome).1.Ok?
    ensures RunDispatch.Next(
              StartedWorld(w, intent, caller, requestID, first, s, starts, RunDispatch.AtObservation(failure)),
              RunDispatch.CommitObservation(0, outcome.id, outcome.draw, outcome.fingerprint, outcome.faults)) ==
            StartedWorld(w, intent, caller, requestID, first,
                         After(s, StartObserved(intent.runID, failure), HOST, outcome.id.value, outcome).0, starts,
                         RunDispatch.Returned(if failure.Some? then Some(SpawnFailed) else None))
  {
    hide CommitStep, Submit;
  }

  lemma FollowFive(
    w: RunDispatch.World, moves: seq<RunDispatch.Move>, w1: RunDispatch.World, w2: RunDispatch.World,
    w3: RunDispatch.World, w4: RunDispatch.World, w5: RunDispatch.World)
    requires |moves| == 5 && w.store.disk.Valid() && RunDispatch.Next(w, moves[0]) == w1
    requires w1.store.disk.Valid() && RunDispatch.Next(w1, moves[1]) == w2
    requires w2.store.disk.Valid() && RunDispatch.Next(w2, moves[2]) == w3
    requires w3.store.disk.Valid() && RunDispatch.Next(w3, moves[3]) == w4
    requires w4.store.disk.Valid() && RunDispatch.Next(w4, moves[4]) == w5
    ensures Follow(w, moves) == w5
  {
    hide RunDispatch.Next;
    assert Follow(w5, moves[5..]) == w5;
    assert moves[4..][1..] == moves[5..] && Follow(w4, moves[4..]) == w5;
    assert moves[3..][1..] == moves[4..] && Follow(w3, moves[3..]) == w5;
    assert moves[2..][1..] == moves[3..] && Follow(w2, moves[2..]) == w5;
    assert moves[1..][1..] == moves[2..] && Follow(w1, moves[1..]) == w5;
  }

  /** THE start theorem: after an admitted, uninterrupted `StartRun` that meets no
      fault, the store holds one more run and one more operation and is otherwise
      as it was. If the supervisor's Start failed the run is Exited with that
      reason and its operation Failed; else the run is Running and its operation
      Succeeded. Start was called once, and the call returns nil if and only if it
      succeeded. */
  lemma StartRecordsItsOutcome(
    w: RunDispatch.World, intent: Command, caller: Caller, requestID: string, first: Inputs, marker: Inputs,
    failure: Option<string>, outcome: Inputs)
    requires WellFormed(w.store) && 0 !in w.calls && intent.StartIntent? && Refusal(intent, caller).None?
    requires Smooth(w.store, caller, requestID, first, marker, outcome)
    requires Apply(intent, caller, first.draw, Held(w.store)).Ok? && OperationsNamed(Held(w.store))
    ensures var w' := Follow(w, StartMoves(intent, caller, requestID, first, marker, failure, outcome));
            var r, r' := Held(w.store), Held(w'.store);
            && r' == r.(runs := r'.runs, operations := r'.operations)
            && |r'.runs| == |r.runs| + 1 && r'.runs[..|r.runs|] == r.runs
            && |r'.operations| == |r.operations| + 1 && r'.operations[..|r.operations|] == r.operations
            && var run, op := r'.runs[|r.runs|], r'.operations[|r.operations|];
               && run.id == intent.runID && run.agentID == intent.agentID && run.profileID == intent.profileID
               && run.provenance == Provenance(caller.agentID, first.draw.now)
               && run.dispatchAttemptedAt == Some(marker.draw.now)
               && run.state == (if failure.Some? then Exited else Running)
               && run.startedAt == (if failure.Some? then None else Some(outcome.draw.now))
               && run.exitedAt == (if failure.Some? then Some(outcome.draw.now) else None)
               && run.exitReason == (if failure.Some? then failure.value else "")
               && op.id == intent.runID + "-start" && op.runID == intent.runID && op.kind == "StartRun"
               && op.state == (if failure.Some? then OpFailed else OpSucceeded)
               && op.createdAt == first.draw.now && op.completedAt == Some(outcome.draw.now)
               && op.outcome == (if failure.Some? then failure.value else "Started")
    ensures var w' := Follow(w, StartMoves(intent, caller, requestID, first, marker, failure, outcome));
            && 0 in w'.calls
            && w'.calls[0].stage == RunDispatch.Returned(if failure.Some? then Some(SpawnFailed) else None)
            && |w'.starts| == |w.starts| + 1 && w'.starts[|w.starts|].runID == intent.runID
            && w'.store.disk.durable == |w'.store.disk.versions| - 1
  {
    IntentEffect(intent, caller, first.draw, Held(w.store));
    NewRunHasNoOperation(Held(w.store), intent.runID);
    StartCommits(w.store, intent, caller, requestID, first, marker, failure, outcome);
    hide Apply, After, OperationsNamed, CommitStep, WellFormed, Follow, Refusal;
    assert w.store.disk.Valid() by { ValidStore(w.store); }
    var s1 := After(w.store, intent, caller, requestID, first).0;
    assert s1.disk.Valid() by { ValidStore(s1); }
    var s2 := After(s1, StartMarker(intent.runID), HOST, marker.id.value, marker).0;
    assert s2.disk.Valid() by { ValidStore(s2); }
    StartFollows(w, intent, caller, requestID, first, marker, failure, outcome);
  }

  /* ---------- Operations belong to runs ---------- */

  /** Every operation is the start or a stop of a run that exists. */
  predicate OperationsNamed(r: Records) {
    forall o :: 0 <= o < |r.operations| ==> Find(r.runs, RunID, r.operations[o].runID).Some? && Named(r.operations[o])
  }

  predicate Named(op: Operation) {
    op.id == StartOperation(op.runID) || op.id == StopOperation(op.runID)
  }

  lemma NewRunHasNoOperation(r: Records, runID: string)
    requires OperationsNamed(r) && Find(r.runs, RunID, runID).None?
    ensures NoOperation(r, StartOperation(runID))
  {
    forall o | 0 <= o < |r.operations|
      ensures r.operations[o].id != StartOperation(runID)
    {
      OperationNamesRun(r.operations[o].runID, runID);
    }
  }

  lemma OperationNamesRun(a: string, b: string)
    ensures StartOperation(a) == StartOperation(b) ==> a == b
    ensures StopOperation(a) != StartOperation(b)
  {
    assert StartOperation(a)[..|StartOperation(a)| - |"-start"|] == a;
    assert StartOperation(b)[..|StartOperation(b)| - |"-start"|] == b;
    var s, t := StartOperation(b), StopOperation(a);
    assert s[|s| - 1] == 't' && t[|t| - 1] == 'p';
  }

  /** Runs only join and operations only join or keep their names. */
  lemma NamesKept(r: Records, r': Records)
    requires OperationsNamed(r) && RunDispatch.RunsEvolve(r, r') && |r.operations| <= |r'.operations|
    requires forall o :: 0 <= o < |r.operations| ==>
               r'.operations[o].id == r.operations[o].id && r'.operations[o].runID == r.operations[o].runID
    requires forall o :: |r.operations| <= o < |r'.operations| ==>
               Find(r'.runs, RunID, r'.operations[o].runID).Some? && Named(r'.operations[o])
    ensures OperationsNamed(r')
  {
    forall o | 0 <= o < |r.operations|
      ensures Find(r'.runs, RunID, r'.operations[o].runID).Some? && Named(r'.operations[o])
    {
      FindIsStable(r.runs, r'.runs, RunID, r.operations[o].runID);
    }
  }

  /** What each command does to the operations. */
  lemma OperationsOnlyJoin(cmd: Command, caller: Caller, draw: Draw, r: Records)
    requires Apply(cmd, caller, draw, r).Ok?
    ensures var r' := Apply(cmd, caller, draw, r).value.0;
            && |r.operations| <= |r'.operations|
            && (forall o :: 0 <= o < |r.operations| ==>
                  r'.operations[o].id == r.operations[o].id && r'.operations[o].runID == r.operations[o].runID)
            && (forall o :: |r.operations| <= o < |r'.operations| ==>
                  (cmd.StartIntent? || cmd.StopIntent?) && r'.operations[o].runID == cmd.runID
                      && Named(r'.operations[o]))
            && (cmd.StartIntent? || cmd.StopIntent? ==> Find(r'.runs, RunID, cmd.runID).Some?)
  {
    if cmd.StartIntent? {
      IntentEffect(cmd, caller, draw, r);
      var run := Apply(cmd, caller, draw, r).value.0.runs[|r.runs|];
      FoundLast(r.runs, run, RunID);
    } else if cmd.StopIntent? {
      StopIntentEffect(cmd.runID, cmd.reason, caller, draw, r);
      FindIsStable(r.runs, Apply(cmd, caller, draw, r).value.0.runs, RunID, cmd.runID);
    } else if ChangesRuns(cmd) {
      OperationsKeepNames(cmd, caller, draw, r);
    } else {
      Footprint(cmd, caller, draw, r);
    }
  }

  /** The same operations under the same names. */
  ghost predicate SameNames(r: Records, r': Records) {
    && |r'.operations| == |r.operations|
    && forall o :: 0 <= o < |r.operations| ==>
         r'.operations[o].id == r.operations[o].id && r'.operations[o].runID == r.operations[o].runID
  }

  lemma MarkerKeepsNames(runID: string, draw: Draw, r: Records)
    requires ApplyStartMarker(runID, draw, r).Ok?
    ensures SameNames(r, ApplyStartMarker(runID, draw, r).value.0)
  {
  }

  lemma ObservationKeepsNames(runID: string, failure: Option<string>, draw: Draw, r: Records)
    requires ApplyStartObserved(runID, failure, draw, r).Ok?
    ensures SameNames(r, ApplyStartObserved(runID, failure, draw, r).value.0)
  {
  }

  lemma OutcomeKeepsNames(runID: string, failed: bool, draw: Draw, r: Records)
    requires ApplyStopObserved(runID, failed, draw, r).Ok?
    ensures SameNames(r, ApplyStopObserved(runID, failed, draw, r).value.0)
  {
  }

  lemma ReconcileKeepsNames(runID: string, draw: Draw, r: Records)
    requires ApplyReconcile(runID, draw, r).Ok?
    ensures SameNames(r, ApplyReconcile(runID, draw, r).value.0)
  {
  }

  lemma OperationsKeepNames(cmd: Command, caller: Caller, draw: Draw, r: Records)
    requires cmd.StartMarker? || cmd.StartObserved? || cmd.StopObserved? || cmd.ReconcileRun?
    requires Apply(cmd, caller, draw, r).Ok?
    ensures SameNames(r, Apply(cmd, caller, draw, r).value.0)
  {
    hide SameNames, ApplyStartMarker, ApplyStartObserved, ApplyStopObserved, ApplyReconcile;
    match cmd {
      case StartMarker(runID) => MarkerKeepsNames(runID, draw, r);
      case StartObserved(runID, failure) => ObservationKeepsNames(runID, failure, draw, r);
      case StopObserved(runID, failed) => OutcomeKeepsNames(runID, failed, draw, r);
      case ReconcileRun(runID) => ReconcileKeepsNames(runID, draw, r);
    }
  }

  lemma CommandKeepsNames(cmd: Command, caller: Caller, draw: Draw, r: Records)
    requires OperationsNamed(r) && Apply(cmd, caller, draw, r).Ok?
    ensures OperationsNamed(Apply(cmd, caller, draw, r).value.0)
  {
    var r' := Apply(cmd, caller, draw, r).value.0;
    RunDispatch.CommandKeepsRuns(cmd, caller, draw, r, r');
    OperationsOnlyJoin(cmd, caller, draw, r);
    hide Apply;
    NamesKept(r, r');
  }

  /* ---------- The records after a stop ---------- */

  lemma StopIntentEffect(runID: string, reason: string, caller: Caller, draw: Draw, r: Records)
    requires Apply(StopIntent(runID, reason), caller, draw, r).Ok?
    ensures var i := Find(r.runs, RunID, runID);
            && i.Some? && r.runs[i.value].agentID == caller.agentID
            && r.runs[i.value].state != Exited && r.runs[i.value].state != RecoveryNeeded
            && Apply(StopIntent(runID, reason), caller, draw, r).value.0 ==
               r.(runs := r.runs[i.value := r.runs[i.value].(state := Stopping)],
                  operations := r.operations + [Operation(runID + "-stop", runID, "StopRun", OpRunning, draw.now,
                      None, "")])
  {
  }

  /** The operation an outcome closes: the run's first stop, or else the last one. */
  function ClosedStop(r: Records, runID: string): nat {
    match Find(r.operations, OperationID, StopOperation(runID))
    case None => |r.operations|
    case Some(o) => o
  }

  lemma StopSets(r: Records, i: nat, o: nat, runID: string, failed: bool, draw: Draw)
    requires Find(r.runs, RunID, runID) == Some(i) && Find(r.operations, OperationID, StopOperation(runID)) == Some(o)
    requires draw.eventID.Some?
    ensures var m := Apply(StopObserved(runID, failed), HOST, draw, r);
            m.Ok? && m.value.0 ==
            if failed then
              r.(runs := r.runs[i := r.runs[i].(state := RecoveryNeeded)],
                 operations := r.operations[o := r.operations[o].(
                   state := OpRecoveryNeeded, completedAt := Some(draw.now), outcome := "RecoveryRequired")])
            else
              r.(runs := r.runs[i := r.runs[i].(state := Exited, exitedAt := Some(draw.now), exitReason := "stopped")],
                 operations := r.operations[o := r.operations[o].(
                   state := OpSucceeded, completedAt := Some(draw.now), outcome := "Stopped")])
  {
    hide Find;
  }

  lemma ClosedStopIsFound(r: Records, runID: string, op: Operation)
    requires op.id == StopOperation(runID)
    ensures Find(r.operations + [op], OperationID, StopOperation(runID)) == Some(ClosedStop(r, runID))
  {
    if Find(r.operations, OperationID, StopOperation(runID)).None? {
      FoundLast(r.operations, op, OperationID);
    } else {
      FindIsStable(r.operations, r.operations + [op], OperationID, StopOperation(runID));
    }
  }

  /* ---------- StopRun ---------- */

  lemma StopEffect(runID: string, caller: Caller, d1: Draw, d2: Draw, failed: bool, r: Records)
    requires Apply(StopIntent(runID, ""), caller, d1, r).Ok? && d2.eventID.Some?
    ensures var m := Apply(StopObserved(runID, failed), HOST, d2, Apply(StopIntent(runID, ""), caller, d1, r).value.0);
            m.Ok? && StoppedAs(r, m.value.0, runID, d1, d2, failed)
  {
    StopIntentEffect(runID, "", caller, d1, r);
    var i := Find(r.runs, RunID, runID).value;
    var op := Operation(runID + "-stop", runID, "StopRun", OpRunning, d1.now, None, "");
    var r1 := r.(runs := r.runs[i := r.runs[i].(state := Stopping)], operations := r.operations + [op]);
    FindIsStable(r.runs, r1.runs, RunID, runID);
    ClosedStopIsFound(r, runID, op);
    hide Apply, Find, ClosedStop, StoppedAs;
    StopSets(r1, i, ClosedStop(r, runID), runID, failed, d2);
    StoppedFrom(r, r1, i, op, Apply(StopObserved(runID, failed), HOST, d2, r1).value.0, runID, d1, d2, failed);
  }

  lemma StoppedFrom(
    r: Records, r1: Records, i: nat, op: Operation, r': Records, runID: string, d1: Draw, d2: Draw, failed: bool)
    requires Find(r.runs, RunID, runID) == Some(i) && ClosedStop(r, runID) <= |r.operations|
    requires op == Operation(runID + "-stop", runID, "StopRun", OpRunning, d1.now, None, "")
    requires r1 == r.(runs := r.runs[i := r.runs[i].(state := Stopping)], operations := r.operations + [op])
    requires var o := ClosedStop(r, runID);
             r' == if failed then
                     r1.(runs := r1.runs[i := r1.runs[i].(state := RecoveryNeeded)],
                         operations := r1.operations[o := r1.operations[o].(
                           state := OpRecoveryNeeded, completedAt := Some(d2.now), outcome := "RecoveryRequired")])
                   else
                     r1.(runs := r1.runs[i := r1.runs[i].(
                           state := Exited, exitedAt := Some(d2.now), exitReason := "stopped")],
                         operations := r1.operations[o := r1.operations[o].(
                           state := OpSucceeded, completedAt := Some(d2.now), outcome := "Stopped")])
    ensures StoppedAs(r, r', runID, d1, d2, failed)
  {
    hide Find;
  }

  /** One run settled as the supervisor answered, one operation joined, and one
      closed: the run's first stop if it already had one, else the new one. */
  predicate StoppedAs(r: Records, r': Records, runID: string, d1: Draw, d2: Draw, failed: bool) {
    var i, o := Find(r.runs, RunID, runID), ClosedStop(r, runID);
    && i.Some?
    && r' == r.(runs := r'.runs, operations := r'.operations)
    && |r'.runs| == |r.runs|
    && (forall k :: 0 <= k < |r.runs| && k != i.value ==> r'.runs[k] == r.runs[k])
    && r'.runs[i.value] == (if failed then r.runs[i.value].(state := RecoveryNeeded)
                            else r.runs[i.value].(state := Exited, exitedAt := Some(d2.now), exitReason := "stopped"))
    && |r'.operations| == |r.operations| + 1
    && (forall k :: 0 <= k < |r.operations| && k != o ==> r'.operations[k] == r.operations[k])
    && JoinedStop(r'.operations[|r.operations|], runID, d1)
    && (o < |r.operations| ==> r'.operations[|r.operations|].state == OpRunning)
    && ClosedAs(r'.operations[o], d2, failed)
    && (o < |r.operations| ==> SameOperation(r.operations[o], r'.operations[o]))
  }

  predicate JoinedStop(op: Operation, runID: string, draw: Draw) {
    op.id == runID + "-stop" && op.runID == runID && op.kind == "StopRun" && op.createdAt == draw.now
  }

  predicate ClosedAs(op: Operation, draw: Draw, failed: bool) {
    && op.completedAt == Some(draw.now) && op.state == (if failed then OpRecoveryNeeded else OpSucceeded)
    && op.outcome == (if failed then "RecoveryRequired" else "Stopped")
  }

  predicate SameOperation(op: Operation, op': Operation) {
    op' == op.(state := op'.state, completedAt := op'.completedAt, outcome := op'.outcome)
  }

  /** The inputs of one lifecycle commit. */
  function AttemptOf(id: string, inputs: Inputs): RunLifecycle.Attempt {
    RunLifecycle.Attempt(id, inputs.fingerprint, inputs.draw, inputs.faults)
  }

  /** THE stop theorem: after an accepted, uninterrupted `StopRun` that meets no
      fault, the run is Exited as stopped if the supervisor confirmed it, else
      RecoveryRequired; nothing else changed but the stop operations, of which a
      repeated stop closes the first again and leaves its own running. */
  lemma StopRecordsItsOutcome(
    s: Store, runID: string, caller: Caller, requestID: string, first: Inputs, failed: bool, outcome: Inputs)
    requires WellFormed(s) && Clean(s, caller, requestID, first) && outcome.id.Some? && outcome.draw.eventID.Some?
    requires Clean(s, HOST, outcome.id.value, outcome)
    requires ReceiptKey(HOST.agentID, outcome.id.value) != ReceiptKey(caller.agentID, requestID)
    requires Refusal(StopIntent(runID, ""), caller).None?
             && Apply(StopIntent(runID, ""), caller, first.draw, Held(s)).Ok?
    ensures var h1 := RunLifecycle.Next(RunLifecycle.Host(s, RunLifecycle.Idle),
                                        RunLifecycle.BeginStop(runID, caller, AttemptOf(requestID, first)));
            var h2 := RunLifecycle.Next(h1, RunLifecycle.StopOutcome(failed, AttemptOf(outcome.id.value, outcome)));
            && h1.busy == RunLifecycle.StopAtOutcome(runID) && h2.busy == RunLifecycle.Idle
            && StoppedAs(Held(s), Held(h2.store), runID, first.draw, outcome.draw, failed)
            && h2.store.disk.durable == |h2.store.disk.versions| - 1
            && StopError(runID, caller,
                         RunLifecycle.Commit(s, StopIntent(runID, ""), caller, AttemptOf(requestID, first)).1, true,
                         RunLifecycle.Commit(h1.store, StopObserved(runID, failed), HOST,
                                             AttemptOf(outcome.id.value, outcome)).1, failed)
               == if failed then Some(RecoveryRequired) else None
  {
    StopEffect(runID, caller, first.draw, outcome.draw, failed, Held(s));
    hide Apply, CommitStep, WellFormed, StoppedAs, Refusal;
    assert s.disk.Valid() by { ValidStore(s); }
    CleanCommit(s, StopIntent(runID, ""), caller, requestID, first);
    var s1 := After(s, StopIntent(runID, ""), caller, requestID, first).0;
    assert s1.disk.Valid() by { ValidStore(s1); }
    CleanCommit(s1, StopObserved(runID, failed), HOST, outcome.id.value, outcome);
  }

  /* ---------- Over histories ---------- */

  /** Operations belong to runs in every version of every history. */
  lemma {:induction false} EveryLogNamesOperations(log: ExactlyOnce.Log)
    requires forall i :: 0 <= i < |log| ==> MessageFacts.IsSubmission(log[i])
    ensures OperationsNamed(ExactlyOnce.RecordsOf(log))
  {
    hide OperationsNamed, Apply;
    if log == [] {
      NoRecordsNamed();
    } else {
      var before := ExactlyOnce.RecordsOf(log[..|log| - 1]);
      EveryLogNamesOperations(log[..|log| - 1]);
      var req := log[|log| - 1];
      assert MessageFacts.IsSubmission(req);
      var cmd, caller, draw :| MutatesAs(req, cmd, caller, draw);
      if Apply(cmd, caller, draw, before).Ok? {
        CommandKeepsNames(cmd, caller, draw, before);
      }
    }
  }

  lemma NoRecordsNamed()
    ensures OperationsNamed(NO_RECORDS)
  {
  }
}
