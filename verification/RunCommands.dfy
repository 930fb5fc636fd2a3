/** `StartRun` and `StopRun` as the engine runs them: straight-line sequences of
    commits around one supervisor call, each a path through the protocol models. */
module RunCommands {
  import opened Results
  import opened Domain
  import opened StateStore
  import opened Commands
  import RunDispatch
  import RunLifecycle

  /** One commit's inputs; `id` is what the ID source returned for it. */
  datatype Inputs = Inputs(id: Option<string>, fingerprint: string, draw: Draw, faults: Faults)

  /** The supervisor: every Start and Stop it received. */
  class Supervisor {
    var starts: seq<RunDispatch.Start>
    var stops: seq<string>

    constructor ()
      ensures starts == [] && stops == []
    {
      starts, stops := [], [];
    }
  }

  /** What one uninterrupted `StartRun` asks of the protocol. */
  function StartMoves(
    intent: Command, caller: Caller, requestID: string, first: Inputs, marker: Inputs, failure: Option<string>,
    outcome: Inputs):
    seq<RunDispatch.Move>
  {
    [RunDispatch.Invoke(0, intent, caller, requestID, first.fingerprint),
     RunDispatch.CommitIntent(0, first.draw, first.faults),
     RunDispatch.CommitMarker(0, marker.id, marker.draw, marker.fingerprint, marker.faults),
     RunDispatch.Spawn(0, failure),
     RunDispatch.CommitObservation(0, outcome.id, outcome.draw, outcome.fingerprint, outcome.faults)]
  }

  function Follow(w: RunDispatch.World, moves: seq<RunDispatch.Move>): (w': RunDispatch.World)
    requires w.store.disk.Valid()
    ensures w'.store.disk.Valid()
    decreases |moves|
  {
    if moves == [] then w else Follow(RunDispatch.Next(w, moves[0]), moves[1..])
  }

  /** A call that has returned ignores the rest of its own moves. */
  lemma {:induction false} ReturnedStays(w: RunDispatch.World, moves: seq<RunDispatch.Move>)
    requires w.store.disk.Valid() && 0 in w.calls && w.calls[0].stage.Returned?
    requires forall k :: 0 <= k < |moves| ==> OwnMove(moves[k])
    ensures Follow(w, moves) == w
    decreases |moves|
  {
    if moves != [] {
      ReturnedStays(w, moves[1..]);
    }
  }

  predicate OwnMove(move: RunDispatch.Move) {
    match move
    case CommitIntent(id, _, _) => id == 0
    case CommitMarker(id, _, _, _, _) => id == 0
    case Spawn(id, _) => id == 0
    case CommitObservation(id, _, _, _, _) => id == 0
    case _ => false
  }

  /** What `StopRun` reports: the first of its five obstacles that it meets. */
  function StopError(runID: string, caller: Caller, intent: Outcome, hasID: bool, observed: Outcome, failed: bool):
    Option<ErrorCode>
  {
    var refused := Refusal(StopIntent(runID, ""), caller);
    if refused.Some? then refused
    else if intent.Err? then Some(intent.error)
    else if !hasID then Some(IDSourceFailed)
    else if observed.Err? then Some(observed.error)
    else if failed then Some(RecoveryRequired)
    else None
  }

  class Engine {
    const store: FileStore
    const supervisor: Supervisor

    constructor (store: FileStore, supervisor: Supervisor)
      ensures this.store == store && this.supervisor == supervisor
    {
      this.store, this.supervisor := store, supervisor;
    }

    ghost function World(calls: map<nat, RunDispatch.StartCall>): RunDispatch.World
      reads store, supervisor
    {
      RunDispatch.World(store.View(), calls, supervisor.starts)
    }

    method CommitCommand(cmd: Command, caller: Caller, requestID: string, inputs: Inputs) returns (out: Outcome)
      requires store.disk.Valid()
      modifies store
      ensures (store.View(), out) == CommitStep(
                old(store.View()), Submit(cmd, caller, inputs.draw, WORKSPACE, requestID, inputs.fingerprint),
                    inputs.faults)
      ensures store.disk.Valid()
    {
      out := store.Commit(Submit(cmd, caller, inputs.draw, WORKSPACE, requestID, inputs.fingerprint), inputs.faults);
    }

    /** Intent, marker, Start, observation; every early return is a stage the
        protocol knows. */
    method StartRun(
      intent: Command, caller: Caller, requestID: string, first: Inputs, marker: Inputs, failure: Option<string>,
      outcome: Inputs)
      returns (err: Option<ErrorCode>)
      requires store.disk.Valid() && intent.StartIntent?
      modifies store, supervisor`starts
      ensures var w := Follow(old(World(map[])),
              StartMoves(intent, caller, requestID, first, marker, failure, outcome));
              && 0 in w.calls && World(w.calls) == w
              && w.calls[0].stage == RunDispatch.Returned(err)
    {
      ghost var moves := StartMoves(intent, caller, requestID, first, marker, failure, outcome);
      ghost var w := RunDispatch.Next(World(map[]), moves[0]);
      assert Follow(World(map[]), moves) == Follow(w, moves[1..]);
      var refused := Refusal(intent, caller);
      if refused.Some? {
        ReturnedStays(w, moves[1..]);
        return refused;
      }
      var receipt := CommitCommand(intent, caller, requestID, first);
      w := RunDispatch.Next(w, moves[1]);
      assert Follow(old(World(map[])), moves) == Follow(w, moves[2..]);
      if receipt.Err? {
        ReturnedStays(w, moves[2..]);
        return Some(receipt.error);
      }
      err := DispatchRun(intent, marker, failure, outcome, w);
    }

    /** The rest, once the intent is committed. */
    method DispatchRun(
      intent: Command, marker: Inputs, failure: Option<string>, outcome: Inputs, ghost w0: RunDispatch.World)
      returns (err: Option<ErrorCode>)
      requires store.disk.Valid() && intent.StartIntent?
      requires 0 in w0.calls && World(w0.calls) == w0 && w0.calls[0].intent == intent && w0.calls[0].stage.AtMarker?
      modifies store, supervisor`starts
      ensures var w := Follow(w0,
                               [RunDispatch.CommitMarker(0, marker.id, marker.draw, marker.fingerprint, marker.faults),
                                RunDispatch.Spawn(0, failure),
                                RunDispatch.CommitObservation(0, outcome.id, outcome.draw, outcome.fingerprint,
                                    outcome.faults)]);
              0 in w.calls && World(w.calls) == w && w.calls[0].stage == RunDispatch.Returned(err)
    {
      ghost var moves := [RunDispatch.CommitMarker(0, marker.id, marker.draw, marker.fingerprint, marker.faults),
                          RunDispatch.Spawn(0, failure),
                          RunDispatch.CommitObservation(0, outcome.id, outcome.draw, outcome.fingerprint,
                              outcome.faults)];
      ghost var w := RunDispatch.Next(w0, moves[0]);
      assert Follow(w0, moves) == Follow(w, moves[1..]);
      if marker.id.None? {
        ReturnedStays(w, moves[1..]);
        return Some(IDSourceFailed);
      }
      var marked := CommitCommand(StartMarker(intent.runID), HOST, marker.id.value, marker);
      if marked.Err? {
        ReturnedStays(w, moves[1..]);
        return Some(marked.error);
      }
      supervisor.starts := supervisor.starts + [RunDispatch.Start(intent.runID, marked.value.0.revision)];
      w := RunDispatch.Next(w, moves[1]);
      assert Follow(w0, moves) == Follow(w, moves[2..]);
      err := Observe(intent, failure, outcome, w);
      assert moves[2..] == [moves[2]];
    }

    method Observe(intent: Command, failure: Option<string>, outcome: Inputs, ghost w0: RunDispatch.World)
      returns (err: Option<ErrorCode>)
      requires store.disk.Valid() && intent.StartIntent?
      requires 0 in w0.calls && World(w0.calls) == w0 && w0.calls[0].intent == intent
      requires w0.calls[0].stage == RunDispatch.AtObservation(failure)
      modifies store
      ensures var w := Follow(w0,
              [RunDispatch.CommitObservation(0, outcome.id, outcome.draw, outcome.fingerprint, outcome.faults)]);
              0 in w.calls && World(w.calls) == w && w.calls[0].stage == RunDispatch.Returned(err)
    {
      if outcome.id.None? {
        return Some(IDSourceFailed);
      }
      var observed := CommitCommand(StartObserved(intent.runID, failure), HOST, outcome.id.value, outcome);
      if observed.Err? {
        return Some(observed.error);
      }
      if failure.Some? {
        return Some(SpawnFailed);
      }
      return None;
    }

    /** Stop intent, Stop, outcome. */
    method StopRun(
      runID: string, reason: string, caller: Caller, requestID: string, first: Inputs, failed: bool, outcome: Inputs)
      returns (err: Option<ErrorCode>)
      requires store.disk.Valid()
      modifies store, supervisor`stops
      ensures var a := RunLifecycle.Attempt(requestID, first.fingerprint, first.draw, first.faults);
              var h := RunLifecycle.Next(RunLifecycle.Host(old(store.View()), RunLifecycle.Idle),
                  RunLifecycle.BeginStop(runID, caller, a));
              var b := RunLifecycle.Attempt(if outcome.id.Some? then outcome.id.value else "", outcome.fingerprint,
                  outcome.draw, outcome.faults);
              var last := if outcome.id.None? then RunLifecycle.GiveUp else RunLifecycle.StopOutcome(failed, b);
              && h.store.disk.Valid()
              && RunLifecycle.Host(store.View(), RunLifecycle.Idle) == RunLifecycle.Next(h, last)
              && supervisor.stops == old(supervisor.stops) + (if h.busy.StopAtOutcome? then [runID] else [])
              && err == StopError(runID, caller,
                 RunLifecycle.Commit(old(store.View()), StopIntent(runID, ""), caller, a).1,
                                  outcome.id.Some?, RunLifecycle.Commit(h.store, StopObserved(runID, failed),
                                      HOST, b).1,
                                  failed)
    {
      var refused := Refusal(StopIntent(runID, reason), caller);
      if refused.Some? {
        return refused;
      }
      var receipt := CommitCommand(StopIntent(runID, ""), caller, requestID, first);
      if receipt.Err? {
        return Some(receipt.error);
      }
      supervisor.stops := supervisor.stops + [runID];
      if outcome.id.None? {
        return Some(IDSourceFailed);
      }
      var observed := CommitCommand(StopObserved(runID, failed), HOST, outcome.id.value, outcome);
      if observed.Err? {
        return Some(observed.error);
      }
      if failed {
        return Some(RecoveryRequired);
      }
      return None;
    }
  }
}
