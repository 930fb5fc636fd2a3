/** One uninterrupted `StartRun` of the dispatch protocol is a path of the
    one-command-at-a-time model, so what that model proves of every path holds of
    it: the legal transitions, and one active run per agent. */
module StartSerialized {
  import opened Results
  import opened Domain
  import opened StateStore
  import opened Commands
  import opened RunCommands
  import RunDispatch
  import RunLifecycle
  import RunOutcomes

  /** What the serialized host is doing while call 0 stands here. */
  function BusyOf(c: RunDispatch.StartCall): RunLifecycle.Busy
    requires c.intent.StartIntent?
  {
    match c.stage
    case AtMarker => RunLifecycle.StartAtMarker(c.intent.runID)
    case AtSpawn(_) => RunLifecycle.StartAtObservation(c.intent.runID)
    case AtObservation(_) => RunLifecycle.StartAtObservation(c.intent.runID)
    case _ => RunLifecycle.Idle
  }

  predicate Runs(w: RunDispatch.World) {
    w.store.disk.Valid() && 0 in w.calls && w.calls[0].intent.StartIntent?
  }

  function HostOf(w: RunDispatch.World): RunLifecycle.Host
    requires Runs(w)
  {
    RunLifecycle.Host(w.store, BusyOf(w.calls[0]))
  }

  /** Each commit of the call is one move of the host; the Start call is none. */
  lemma InvokedIsSerial(w: RunDispatch.World, intent: Command, caller: Caller, requestID: string, first: Inputs)
    requires w.store.disk.Valid() && 0 !in w.calls && intent.StartIntent?
    ensures var w1 := RunDispatch.Next(w, RunDispatch.Invoke(0, intent, caller, requestID, first.fingerprint));
            var w2 := RunDispatch.Next(w1, RunDispatch.CommitIntent(0, first.draw, first.faults));
            && Runs(w2) && (w2.calls[0].stage.AtMarker? || w2.calls[0].stage.Returned?)
            && HostOf(w2) == RunLifecycle.Next(RunLifecycle.Host(w.store, RunLifecycle.Idle),
                                               RunLifecycle.BeginStart(intent, caller,
                                                   RunOutcomes.AttemptOf(requestID, first)))
  {
    hide CommitStep, Submit, Refusal;
  }

  lemma MarkerIsSerial(w: RunDispatch.World, marker: Inputs)
    requires Runs(w) && (w.calls[0].stage.AtMarker? || w.calls[0].stage.Returned?)
    ensures var w' := RunDispatch.Next(w,
                      RunDispatch.CommitMarker(0, marker.id, marker.draw, marker.fingerprint, marker.faults));
            && Runs(w') && (w'.calls[0].stage.AtSpawn? || w'.calls[0].stage.Returned?)
            && HostOf(w') == RunLifecycle.Next(HostOf(w), HostMarker(marker))
  {
    hide CommitStep, Submit, Refusal;
  }

  lemma SpawnIsSilent(w: RunDispatch.World, failure: Option<string>)
    requires Runs(w) && (w.calls[0].stage.AtSpawn? || w.calls[0].stage.Returned?)
    ensures var w' := RunDispatch.Next(w, RunDispatch.Spawn(0, failure));
            && Runs(w') && (w'.calls[0].stage == RunDispatch.AtObservation(failure) || w'.calls[0].stage.Returned?)
            && HostOf(w') == HostOf(w)
  {
  }

  lemma ObservationIsSerial(w: RunDispatch.World, failure: Option<string>, outcome: Inputs)
    requires Runs(w) && (w.calls[0].stage == RunDispatch.AtObservation(failure) || w.calls[0].stage.Returned?)
    ensures var w' := RunDispatch.Next(w,
            RunDispatch.CommitObservation(0, outcome.id, outcome.draw, outcome.fingerprint, outcome.faults));
            && Runs(w') && w'.calls[0].stage.Returned?
            && HostOf(w') == RunLifecycle.Next(HostOf(w), HostObserve(failure, outcome))
  {
    hide CommitStep, Submit, Refusal;
  }

  function HostMarker(marker: Inputs): RunLifecycle.Move {
    if marker.id.None? then RunLifecycle.GiveUp
    else RunLifecycle.CommitMarker(RunOutcomes.AttemptOf(marker.id.value, marker))
  }

  function HostObserve(failure: Option<string>, outcome: Inputs): RunLifecycle.Move {
    if outcome.id.None? then RunLifecycle.GiveUp
    else RunLifecycle.Observe(failure, RunOutcomes.AttemptOf(outcome.id.value, outcome))
  }

  /** The host's three moves for one `StartRun`. */
  function HostRun(
    s: Store, intent: Command, caller: Caller, requestID: string, first: Inputs, marker: Inputs,
    failure: Option<string>, outcome: Inputs): RunLifecycle.Host
    requires s.disk.Valid()
  {
    var h1 := RunLifecycle.Next(RunLifecycle.Host(s, RunLifecycle.Idle),
                                RunLifecycle.BeginStart(intent, caller, RunOutcomes.AttemptOf(requestID, first)));
    RunLifecycle.Next(RunLifecycle.Next(h1, HostMarker(marker)), HostObserve(failure, outcome))
  }

  /** Whatever its commits, the ID source and the supervisor answer, an
      uninterrupted `StartRun` leaves the store as the host's three moves do, and
      the host idle. */
  lemma StartIsSerialized(
    w: RunDispatch.World, intent: Command, caller: Caller, requestID: string, first: Inputs, marker: Inputs,
    failure: Option<string>, outcome: Inputs)
    requires w.store.disk.Valid() && 0 !in w.calls && intent.StartIntent?
    ensures HostRun(w.store, intent, caller, requestID, first, marker, failure, outcome) ==
            RunLifecycle.Host(Follow(w, StartMoves(intent, caller, requestID, first, marker, failure, outcome)).store,
                              RunLifecycle.Idle)
  {
    var moves := StartMoves(intent, caller, requestID, first, marker, failure, outcome);
    InvokedIsSerial(w, intent, caller, requestID, first);
    var w1 := RunDispatch.Next(w, moves[0]);
    var w2 := RunDispatch.Next(w1, moves[1]);
    hide RunDispatch.Next, RunLifecycle.Next, Follow;
    MarkerIsSerial(w2, marker);
    var w3 := RunDispatch.Next(w2, moves[2]);
    SpawnIsSilent(w3, failure);
    var w4 := RunDispatch.Next(w3, moves[3]);
    ObservationIsSerial(w4, failure, outcome);
    RunOutcomes.FollowFive(w, moves, w1, w2, w3, w4, RunDispatch.Next(w4, moves[4]));
  }
}
