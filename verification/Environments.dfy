/** The worlds of the protocol theorems leave nobody out: whatever calls a store
    may be asked, every one of these worlds has a history in which its store is
    asked exactly those, so what is proved of all their histories covers them. */
module Environments {
  import opened Results
  import opened Domain
  import opened StateStore
  import opened StoreTheorems
  import opened Commands
  import RunLifecycle
  import RunDispatch
  import DeliveryOrder

  /** One engine command as anybody may submit it, a look-up, or a crash. */
  datatype Ask =
    | Command(cmd: Commands.Command, actor: Caller, draw: Draw, requestID: string, fingerprint: string, faults: Faults)
    | LookUp(callerID: string, requestID: string, faults: Faults)
    | PowerLoss(kept: nat, settled: nat)

  function CallOf(ask: Ask): Call {
    match ask
    case Command(cmd, actor, draw, id, fingerprint, faults) =>
      Commit(Submit(cmd, actor, draw, WORKSPACE, id, fingerprint), faults)
    case LookUp(callerID, id, faults) => Resolve(callerID, id, faults)
    case PowerLoss(kept, settled) => Crash(kept, settled)
  }

  function CallsOf(asks: seq<Ask>): (calls: seq<Call>)
    ensures |calls| == |asks|
  {
    if asks == [] then [] else CallsOf(asks[..|asks| - 1]) + [CallOf(asks[|asks| - 1])]
  }

  lemma AskedLast(asks: seq<Ask>)
    requires asks != []
    ensures After(NEW_STORE, CallsOf(asks)) ==
            Step(After(NEW_STORE, CallsOf(asks[..|asks| - 1])), CallOf(asks[|asks| - 1])).0
  {
    var calls, init := CallsOf(asks), CallsOf(asks[..|asks| - 1]);
    hide Step, CallOf, WellFormed;
    assert calls[..|calls| - 1] == init;
  }

  /* ---------- Dispatch ---------- */

  function DispatchMove(ask: Ask): RunDispatch.Move {
    match ask
    case Command(cmd, actor, draw, id, fingerprint, faults) =>
      RunDispatch.OtherCommit(cmd, actor, draw, id, fingerprint, faults)
    case LookUp(callerID, id, faults) => RunDispatch.Resolve(callerID, id, faults)
    case PowerLoss(kept, settled) => RunDispatch.Crash(kept, settled)
  }

  function DispatchMoves(asks: seq<Ask>): (moves: seq<RunDispatch.Move>)
    ensures |moves| == |asks|
  {
    if asks == [] then [] else DispatchMoves(asks[..|asks| - 1]) + [DispatchMove(asks[|asks| - 1])]
  }

  lemma DispatchAsks(w: RunDispatch.World, ask: Ask)
    requires w.store.disk.Valid()
    ensures RunDispatch.Next(w, DispatchMove(ask)).store == Step(w.store, CallOf(ask)).0
  {
    hide CommitStep, ResolveStep, Submit;
  }

  lemma {:induction false} DispatchLeavesNobodyOut(asks: seq<Ask>)
    ensures RunDispatch.WorldAfter(DispatchMoves(asks)).store == After(NEW_STORE, CallsOf(asks))
  {
    if asks != [] {
      var moves := DispatchMoves(asks);
      assert moves[..|moves| - 1] == DispatchMoves(asks[..|asks| - 1]);
      DispatchLeavesNobodyOut(asks[..|asks| - 1]);
      AskedLast(asks);
      DispatchAsks(RunDispatch.WorldAfter(moves[..|moves| - 1]), asks[|asks| - 1]);
      hide RunDispatch.Next, Step, CallOf, WellFormed;
    }
  }

  /* ---------- One command at a time ---------- */

  /** An idle host takes any command but its own observations; it looks nothing up. */
  predicate Hosted(ask: Ask) {
    !ask.LookUp? && (ask.Command? ==> !ask.cmd.StartObserved? && !ask.cmd.StopObserved?)
  }

  function HostMove(ask: Ask): RunLifecycle.Move
    requires Hosted(ask)
  {
    match ask
    case Command(cmd, actor, draw, id, fingerprint, faults) =>
      RunLifecycle.Simple(cmd, actor, RunLifecycle.Attempt(id, fingerprint, draw, faults))
    case PowerLoss(kept, settled) => RunLifecycle.Reopen(kept, settled, true)
  }

  function HostMoves(asks: seq<Ask>): (moves: seq<RunLifecycle.Move>)
    requires forall i :: 0 <= i < |asks| ==> Hosted(asks[i])
    ensures |moves| == |asks|
  {
    if asks == [] then [] else HostMoves(asks[..|asks| - 1]) + [HostMove(asks[|asks| - 1])]
  }

  lemma {:induction false} HostLeavesNobodyOut(asks: seq<Ask>)
    requires forall i :: 0 <= i < |asks| ==> Hosted(asks[i])
    ensures RunLifecycle.HostAfter(HostMoves(asks)) ==
            RunLifecycle.Host(After(NEW_STORE, CallsOf(asks)), RunLifecycle.Idle)
  {
    if asks != [] {
      var moves := HostMoves(asks);
      assert moves[..|moves| - 1] == HostMoves(asks[..|asks| - 1]);
      HostLeavesNobodyOut(asks[..|asks| - 1]);
      AskedLast(asks);
      hide CommitStep, ResolveStep, WellFormed, Submit;
    }
  }

  /* ---------- Delivery ---------- */

  function DeliveryMove(ask: Ask): DeliveryOrder.Move {
    match ask
    case Command(cmd, actor, draw, id, fingerprint, faults) =>
      DeliveryOrder.OtherCommit(cmd, actor, draw, id, fingerprint, faults)
    case LookUp(callerID, id, faults) => DeliveryOrder.Resolve(callerID, id, faults)
    case PowerLoss(kept, settled) => DeliveryOrder.Crash(kept, settled, {})
  }

  function DeliveryMoves(asks: seq<Ask>): (moves: seq<DeliveryOrder.Move>)
    ensures |moves| == |asks|
  {
    if asks == [] then [] else DeliveryMoves(asks[..|asks| - 1]) + [DeliveryMove(asks[|asks| - 1])]
  }

  lemma DeliveryAsks(w: DeliveryOrder.World, ask: Ask)
    requires w.store.disk.Valid()
    ensures DeliveryOrder.Next(w, DeliveryMove(ask)).store == Step(w.store, CallOf(ask)).0
  {
    hide CommitStep, ResolveStep, Submit;
  }

  /** Everyone but the deliverer itself. */
  lemma {:induction false} DeliveryLeavesNobodyOut(asks: seq<Ask>)
    requires forall i :: 0 <= i < |asks| ==> DeliveryOrder.Permitted(DeliveryMove(asks[i]))
    ensures DeliveryOrder.WorldAfter(DeliveryMoves(asks)).store == After(NEW_STORE, CallsOf(asks))
  {
    if asks != [] {
      var moves := DeliveryMoves(asks);
      assert moves[..|moves| - 1] == DeliveryMoves(asks[..|asks| - 1]);
      DeliveryLeavesNobodyOut(asks[..|asks| - 1]);
      AskedLast(asks);
      DeliveryAsks(DeliveryOrder.WorldAfter(moves[..|moves| - 1]), asks[|asks| - 1]);
      hide DeliveryOrder.Next, DeliveryOrder.Permitted, Step, CallOf, WellFormed;
    }
  }
}
