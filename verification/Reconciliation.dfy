/** The startup pass over runs a dead controller left Starting or Running. */
module Reconciliation {
  import opened Results
  import opened Domain
  import opened StateStore
  import opened StoreTheorems
  import opened Commands
  import opened RunLifecycle

  /** The start operation of some visited stuck run, still open. */
  ghost predicate Carries(r: Records, ids: seq<string>, o: nat)
    requires o < |r.operations|
  {
    IsOpen(r.operations[o].state)
    && exists k :: 0 <= k < |r.runs| && IsStuck(r.runs[k].state) && r.runs[k].id in ids
         && Find(r.operations, OperationID, StartOperation(r.runs[k].id)) == Some(o)
  }

  predicate CarriedForward(op: Operation, op': Operation) {
    op'.completedAt.Some?
    && op' == op.(state := OpRecoveryNeeded, outcome := "RecoveryRequired", completedAt := op'.completedAt)
  }

  /** Exactly the visited stuck runs and their open start operations changed. */
  ghost predicate Reconciled(r: Records, r': Records, ids: seq<string>) {
    && r' == r.(runs := r'.runs, operations := r'.operations)
    && |r'.runs| == |r.runs| && |r'.operations| == |r.operations|
    && (forall k :: 0 <= k < |r.runs| ==>
          r'.runs[k] == if IsStuck(r.runs[k].state) && r.runs[k].id in ids
                        then r.runs[k].(state := RecoveryNeeded) else r.runs[k])
    && (forall o :: 0 <= o < |r.operations| ==>
          if Carries(r, ids, o) then CarriedForward(r.operations[o], r'.operations[o])
          else r'.operations[o] == r.operations[o])
  }

  lemma StartOperationNamesRun(a: string, b: string)
    ensures StartOperation(a) == StartOperation(b) ==> a == b
  {
    assert StartOperation(a)[..|StartOperation(a)| - |"-start"|] == a;
    assert StartOperation(b)[..|StartOperation(b)| - |"-start"|] == b;
  }

  /** A start operation never answers for a stop. */
  lemma StartIsNotStop(a: string, b: string)
    ensures StartOperation(a) != StopOperation(b)
  {
    var s, t := StartOperation(a), StopOperation(b);
    assert s[|s| - 1] == 't' && t[|t| - 1] == 'p';
  }

  /** The run one reconcile commit finds, seen from before the pass. */
  lemma FoundBeforehand(r: Records, now: Records, ids: seq<string>, runID: string)
    requires UniqueRuns(r) && Reconciled(r, now, ids)
    ensures Find(now.runs, RunID, runID) == Find(r.runs, RunID, runID)
    ensures Find(now.operations, OperationID, StartOperation(runID)) ==
            Find(r.operations, OperationID, StartOperation(runID))
  {
    assert forall k :: 0 <= k < |r.runs| ==> RunID(now.runs[k]) == RunID(r.runs[k]);
    assert forall o :: 0 <= o < |r.operations| ==> OperationID(now.operations[o]) == OperationID(r.operations[o]);
    FindIsStable(r.runs, now.runs, RunID, runID);
    FindIsStable(now.runs, r.runs, RunID, runID);
    FindIsStable(r.operations, now.operations, OperationID, StartOperation(runID));
    FindIsStable(now.operations, r.operations, OperationID, StartOperation(runID));
  }

  /** Which operations are carried once a stuck run joins the visited ones. */
  lemma CarriesOneMore(r: Records, ids: seq<string>, k: nat, o: nat)
    requires UniqueRuns(r) && k < |r.runs| && IsStuck(r.runs[k].state) && r.runs[k].id !in ids && o < |r.operations|
    ensures Carries(r, ids + [r.runs[k].id], o)
            <==> Carries(r, ids, o)
                 || (IsOpen(r.operations[o].state)
                     && Find(r.operations, OperationID, StartOperation(r.runs[k].id)) == Some(o))
    ensures Find(r.operations, OperationID, StartOperation(r.runs[k].id)) == Some(o) ==> !Carries(r, ids, o)
  {
    var runID := r.runs[k].id;
    if Carries(r, ids, o) {
      var m :| 0 <= m < |r.runs| && IsStuck(r.runs[m].state) && r.runs[m].id in ids
        && Find(r.operations, OperationID, StartOperation(r.runs[m].id)) == Some(o);
      StartOperationNamesRun(r.runs[m].id, runID);
      assert r.runs[m].id in ids + [runID];
    }
    if Carries(r, ids + [runID], o) {
      var m :| 0 <= m < |r.runs| && IsStuck(r.runs[m].state) && r.runs[m].id in ids + [runID]
        && Find(r.operations, OperationID, StartOperation(r.runs[m].id)) == Some(o);
    }
    assert runID in ids + [runID];
  }

  /** What one visit does: the run, and its start operation if that is open. */
  ghost predicate VisitEffect(now: Records, next: Records, k: nat, start: Option<nat>) {
    && k < |now.runs| && (start.Some? ==> start.value < |now.operations|)
    && next == now.(runs := now.runs[k := now.runs[k].(state := RecoveryNeeded)], operations := next.operations)
    && |next.operations| == |now.operations|
    && forall o :: 0 <= o < |now.operations| ==>
         if start == Some(o) && IsOpen(now.operations[o].state) then
           CarriedForward(now.operations[o], next.operations[o])
         else next.operations[o] == now.operations[o]
  }

  lemma ReconcileEffect(now: Records, runID: string, draw: Draw, k: nat)
    requires Find(now.runs, RunID, runID) == Some(k) && IsStuck(now.runs[k].state)
    requires ApplyReconcile(runID, draw, now).Ok?
    ensures VisitEffect(now, ApplyReconcile(runID, draw, now).value.0, k,
                        Find(now.operations, OperationID, StartOperation(runID)))
  {
  }

  lemma OneVisit(r: Records, now: Records, next: Records, ids: seq<string>, k: nat)
    requires UniqueRuns(r) && Reconciled(r, now, ids) && k < |r.runs|
    requires IsStuck(r.runs[k].state) && r.runs[k].id !in ids
    requires VisitEffect(now, next, k, Find(r.operations, OperationID, StartOperation(r.runs[k].id)))
    ensures Reconciled(r, next, ids + [r.runs[k].id])
  {
    var start := Find(r.operations, OperationID, StartOperation(r.runs[k].id));
    forall o | 0 <= o < |r.operations|
      ensures if Carries(r, ids + [r.runs[k].id], o) then CarriedForward(r.operations[o], next.operations[o])
              else next.operations[o] == r.operations[o]
    {
      CarriesOneMore(r, ids, k, o);
    }
  }

  /** The one run with this ID is the one `Find` gives. */
  lemma FindsRun(r: Records, k: nat)
    requires UniqueRuns(r) && k < |r.runs|
    ensures Find(r.runs, RunID, r.runs[k].id) == Some(k)
  {
    assert RunID(r.runs[k]) == r.runs[k].id;
    var found := Find(r.runs, RunID, r.runs[k].id).value;
    assert RunID(r.runs[found]) == r.runs[found].id;
  }

  /** After the whole pass nothing is stuck, finished operations are as they
      were, and every stuck run's open start operation says so. */
  lemma WholePassSettlesEveryRun(r: Records, r': Records)
    requires UniqueRuns(r) && Reconciled(r, r', StuckIDs(r.runs))
    ensures forall k :: 0 <= k < |r'.runs| ==> !IsStuck(r'.runs[k].state)
    ensures forall k :: 0 <= k < |r.runs| && !IsStuck(r.runs[k].state) ==> r'.runs[k] == r.runs[k]
    ensures forall o :: 0 <= o < |r.operations| && !IsOpen(r.operations[o].state) ==>
            r'.operations[o] == r.operations[o]
    ensures forall k :: 0 <= k < |r.runs| && IsStuck(r.runs[k].state) ==>
              var o := Find(r.operations, OperationID, StartOperation(r.runs[k].id));
              o.Some? ==> !IsOpen(r'.operations[o.value].state)
    ensures StuckIDs(r'.runs) == []
  {
    forall k | 0 <= k < |r.runs| && IsStuck(r.runs[k].state)
      ensures r.runs[k].id in StuckIDs(r.runs)
    {
      StuckIsListed(r.runs, k);
    }
    forall k | 0 <= k < |r.runs| && IsStuck(r.runs[k].state)
      ensures var o := Find(r.operations, OperationID, StartOperation(r.runs[k].id));
              o.Some? ==> !IsOpen(r'.operations[o.value].state)
    {
      var o := Find(r.operations, OperationID, StartOperation(r.runs[k].id));
      if o.Some? && IsOpen(r.operations[o.value].state) {
        assert Carries(r, StuckIDs(r.runs), o.value);
      }
    }
    NoneStuckNoneListed(r'.runs);
  }

  lemma {:induction false} StuckIsListed(runs: seq<Run>, k: nat)
    requires k < |runs| && IsStuck(runs[k].state)
    ensures runs[k].id in StuckIDs(runs)
  {
    if k < |runs| - 1 {
      StuckIsListed(runs[..|runs| - 1], k);
    }
  }

  lemma {:induction false} ListedIsStuck(runs: seq<Run>, id: string)
    requires id in StuckIDs(runs)
    ensures exists k :: 0 <= k < |runs| && runs[k].id == id && IsStuck(runs[k].state)
  {
    var init := runs[..|runs| - 1];
    if id in StuckIDs(init) {
      ListedIsStuck(init, id);
      var k :| 0 <= k < |init| && init[k].id == id && IsStuck(init[k].state);
      assert runs[k] == init[k];
    }
  }

  lemma {:induction false} NoneStuckNoneListed(runs: seq<Run>)
    requires forall k :: 0 <= k < |runs| ==> !IsStuck(runs[k].state)
    ensures StuckIDs(runs) == []
  {
    if runs != [] {
      NoneStuckNoneListed(runs[..|runs| - 1]);
    }
  }

  /** Fresh request IDs, one for each run the pass may visit. */
  ghost predicate FreshAttempts(s: Store, attempts: seq<Attempt>, from: nat) {
    && s.disk.Valid()
    && (forall i :: from <= i < |attempts| ==>
          ReceiptKey(HOST.agentID, attempts[i].requestID) !in s.disk.Current().receipts)
    && (forall i, j :: 0 <= i < j < |attempts| ==>
          ReceiptKey(HOST.agentID, attempts[i].requestID) != ReceiptKey(HOST.agentID, attempts[j].requestID))
  }

  /** One reconcile commit that succeeds applies its mutation to the records. */
  lemma VisitCommits(s: Store, runID: string, attempts: seq<Attempt>, i: nat)
    requires WellFormed(s) && i < |attempts| && FreshAttempts(s, attempts, i)
    ensures var (s', out) := RunLifecycle.Commit(s, ReconcileRun(runID), HOST, attempts[i]);
            && WellFormed(s') && FreshAttempts(s', attempts, i + 1)
            && (out.Ok? ==>
                  var m := ApplyReconcile(runID, attempts[i].draw, s.disk.Current().snapshot.records);
                  m.Ok? && s'.disk.Current().snapshot.records == m.value.0)
  {
    var a := attempts[i];
    var req := Submit(ReconcileRun(runID), HOST, a.draw, WORKSPACE, a.requestID, a.fingerprint);
    CommitKeeps(s, req, a.faults);
  }

  /** `reconcileStuckRun`: one commit for one run seen stuck. */
  method ReconcileStuckRun(
    store: FileStore, k: nat, attempts: seq<Attempt>, ghost r: Records, ghost ids: seq<string>, runID: string)
      returns (error: Option<ErrorCode>)
    requires WellFormed(store.View()) && FreshAttempts(store.View(), attempts, k) && k < |attempts|
    requires UniqueRuns(r) && Reconciled(r, store.disk.Current().snapshot.records, ids)
    requires k < |r.runs| && r.runs[k].id == runID && IsStuck(r.runs[k].state) && runID !in ids
    modifies store
    ensures WellFormed(store.View()) && FreshAttempts(store.View(), attempts, k + 1)
    ensures error == None ==> Reconciled(r, store.disk.Current().snapshot.records, ids + [runID])
    ensures var (s, out) := RunLifecycle.Commit(old(store.View()), ReconcileRun(runID), HOST, attempts[k]);
            store.View() == s && error == if out.Err? then Some(out.error) else None
  {
    VisitCommits(store.View(), runID, attempts, k);
    ghost var now := store.disk.Current().snapshot.records;
    var a := attempts[k];
    var out := store.Commit(Submit(ReconcileRun(runID), HOST, a.draw, WORKSPACE, a.requestID, a.fingerprint), a.faults);
    if out.Err? {
      return Some(out.error);
    }
    FindsRun(r, k);
    FoundBeforehand(r, now, ids, runID);
    ReconcileEffect(now, runID, a.draw, k);
    OneVisit(r, now, store.disk.Current().snapshot.records, ids, k);
    return None;
  }

  lemma UnseenSoFar(r: Records, i: nat)
    requires UniqueRuns(r) && i < |r.runs|
    ensures r.runs[i].id !in StuckIDs(r.runs[..i])
  {
    if r.runs[i].id in StuckIDs(r.runs[..i]) {
      ListedIsStuck(r.runs[..i], r.runs[i].id);
    }
  }

  lemma NothingVisited(r: Records)
    ensures Reconciled(r, r, StuckIDs(r.runs[..0]))
  {
  }

  lemma StuckIDsNext(runs: seq<Run>, i: nat)
    requires i < |runs|
    ensures StuckIDs(runs[..i + 1]) ==
            if IsStuck(runs[i].state) then StuckIDs(runs[..i]) + [runs[i].id] else StuckIDs(runs[..i])
    ensures IsStuck(runs[i].state) ==> StuckIDs(runs) != []
  {
    assert runs[..i + 1][..i] == runs[..i];
    if IsStuck(runs[i].state) {
      StuckIsListed(runs, i);
    }
  }

  /** The pass's own premises: every stored run is known by one ID, a fresh
      request ID is at hand for each, and records exist only once the workspace
      has its name. */
  ghost predicate ReadyToReconcile(s: Store, attempts: seq<Attempt>) {
    && WellFormed(s) && UniqueRuns(s.disk.Current().snapshot.records)
    && (s.disk.Current().snapshot.workspaceID == "" ==> s.disk.Current().snapshot.records == NO_RECORDS)
    && |attempts| == |s.disk.Current().snapshot.records.runs| && FreshAttempts(s, attempts, 0)
  }

  /** The host's moves for the stuck runs from the `i`-th on. */
  function PassFrom(h: Host, runs: seq<Run>, attempts: seq<Attempt>, i: nat): Host
    requires h.store.disk.Valid() && |attempts| == |runs|
    decreases |runs| - i
  {
    if i >= |runs| then h
    else PassFrom(if IsStuck(runs[i].state) then Next(h, Reconcile(attempts[i])) else h, runs, attempts, i + 1)
  }

  /** A closed controller reconciles nothing more. */
  lemma {:induction false} ClosedStays(h: Host, runs: seq<Run>, attempts: seq<Attempt>, i: nat)
    requires h.store.disk.Valid() && |attempts| == |runs| && h.busy == Closed
    ensures PassFrom(h, runs, attempts, i) == h
    decreases |runs| - i
  {
    if i < |runs| {
      ClosedStays(h, runs, attempts, i + 1);
    }
  }

  lemma {:induction false} StuckIDsFirst(runs: seq<Run>)
    requires runs != []
    ensures StuckIDs(runs) == (if IsStuck(runs[0].state) then [runs[0].id] else []) + StuckIDs(runs[1..])
  {
    if |runs| == 1 {
      assert runs[..0] == runs[1..] == [];
    } else {
      var init, rest, last := runs[..|runs| - 1], runs[1..], runs[|runs| - 1];
      StuckIDsFirst(init);
      assert init[1..] == rest[..|rest| - 1] && rest[|rest| - 1] == last && init[0] == runs[0];
      var end := if IsStuck(last.state) then [last.id] else [];
      var first := if IsStuck(runs[0].state) then [runs[0].id] else [];
      assert StuckIDs(runs) == StuckIDs(init) + end && StuckIDs(rest) == StuckIDs(init[1..]) + end;
      hide StuckIDs;
      assert (first + StuckIDs(init[1..])) + end == first + (StuckIDs(init[1..]) + end);
    }
  }

  /** What one run of the loop is to the host. */
  lemma OneVisitOfHost(s: Store, runs: seq<Run>, attempts: seq<Attempt>, i: nat)
    requires WellFormed(s) && i < |runs| == |attempts|
    ensures s.disk.Valid()
    ensures var h := Host(s, Opening(StuckIDs(runs[i..])));
            var (s', out) := RunLifecycle.Commit(s, ReconcileRun(runs[i].id), HOST, attempts[i]);
            PassFrom(h, runs, attempts, i) ==
            if !IsStuck(runs[i].state) then PassFrom(Host(s, Opening(StuckIDs(runs[i + 1..]))), runs, attempts, i + 1)
            else if out.Err? then Host(s', Closed)
            else PassFrom(Host(s', Opening(StuckIDs(runs[i + 1..]))), runs, attempts, i + 1)
  {
    StuckIDsFirst(runs[i..]);
    assert runs[i..][1..] == runs[i + 1..];
    var (s', out) := RunLifecycle.Commit(s, ReconcileRun(runs[i].id), HOST, attempts[i]);
    hide CommitStep, Submit, StuckIDs, WellFormed;
    if IsStuck(runs[i].state) {
      var h := Host(s, Opening(StuckIDs(runs[i..])));
      assert h.busy.stuck == [runs[i].id] + StuckIDs(runs[i + 1..]);
      assert h.busy.stuck[1..] == StuckIDs(runs[i + 1..]);
      assert Next(h, Reconcile(attempts[i])) ==
             Host(s', if out.Ok? then Opening(StuckIDs(runs[i + 1..])) else Closed);
      if out.Err? {
        ClosedStays(Host(s', Closed), runs, attempts, i + 1);
      }
    } else {
      assert StuckIDs(runs[i..]) == StuckIDs(runs[i + 1..]);
    }
  }

  /** Loads once, then commits one reconciliation for each run it saw stuck: the
      host's moves, and its error if and only if they leave the host closed. A load
      failure is left for the next command to surface. */
  method ReconcileStuckRuns(
    store: FileStore, loadFaults: Faults, attempts: seq<Attempt>) returns (error: Option<ErrorCode>)
    requires ReadyToReconcile(store.View(), attempts)
    modifies store
    ensures WellFormed(store.View())
    ensures loadFaults.read ==> error == None && store.View() == old(store.View())
    ensures !loadFaults.read && error == None ==>
              var r := old(store.disk.Current().snapshot.records);
              Reconciled(r, store.disk.Current().snapshot.records, StuckIDs(r.runs))
    ensures !loadFaults.read ==>
              var runs := old(store.disk.Current().snapshot.records.runs);
              PassFrom(Host(old(store.View()), Opening(StuckIDs(runs))), runs, attempts, 0) ==
              Host(store.View(), if error.None? then Opening([]) else Closed)
    ensures StuckIDs(old(store.disk.Current().snapshot.records.runs)) == [] ==>
              error == None && store.View() == old(store.View())
  {
    var loaded := store.Load(WORKSPACE, loadFaults);
    if loaded.Err? {
      return None;
    }
    var r := loaded.value.records;
    NothingVisited(r);
    assert r.runs[0..] == r.runs;
    hide Reconciled, CommitStep, Submit;
    for i := 0 to |r.runs|
      invariant WellFormed(store.View()) && FreshAttempts(store.View(), attempts, i)
      invariant Reconciled(r, store.disk.Current().snapshot.records, StuckIDs(r.runs[..i]))
      invariant PassFrom(Host(store.View(), Opening(StuckIDs(r.runs[i..]))), r.runs, attempts, i) ==
                PassFrom(Host(old(store.View()), Opening(StuckIDs(r.runs))), r.runs, attempts, 0)
      invariant StuckIDs(r.runs) == [] ==> store.View() == old(store.View())
    {
      var run := r.runs[i];
      OneVisitOfHost(store.View(), r.runs, attempts, i);
      StuckIDsNext(r.runs, i);
      if IsStuck(run.state) {
        UnseenSoFar(r, i);
        error := ReconcileStuckRun(store, i, attempts, r, StuckIDs(r.runs[..i]), run.id);
        if error.Some? {
          return;
        }
      }
    }
    assert r.runs[..|r.runs|] == r.runs;
    return None;
  }

  /** A pass that meets no fault opens the workspace. */
  lemma {:induction false} FaultFreePassOpens(s: Store, runs: seq<Run>, attempts: seq<Attempt>, i: nat)
    requires WellFormed(s) && FreshAttempts(s, attempts, i) && i <= |runs| == |attempts|
    requires forall k :: 0 <= k < |attempts| ==>
               attempts[k].faults == Faults(false, false, false) && attempts[k].draw.eventID.Some?
    ensures PassFrom(Host(s, Opening(StuckIDs(runs[i..]))), runs, attempts, i).busy == Opening([])
    decreases |runs| - i
  {
    if i < |runs| {
      OneVisitOfHost(s, runs, attempts, i);
      if IsStuck(runs[i].state) {
        VisitCommits(s, runs[i].id, attempts, i);
        VisitSucceeds(s, runs[i].id, attempts[i]);
        var s' := RunLifecycle.Commit(s, ReconcileRun(runs[i].id), HOST, attempts[i]).0;
        hide RunLifecycle.Commit, WellFormed, PassFrom;
        FaultFreePassOpens(s', runs, attempts, i + 1);
      } else {
        hide WellFormed, PassFrom;
        FaultFreePassOpens(s, runs, attempts, i + 1);
      }
    }
  }

  lemma VisitSucceeds(s: Store, runID: string, a: Attempt)
    requires s.disk.Valid() && ReceiptKey(HOST.agentID, a.requestID) !in s.disk.Current().receipts
    requires a.faults == Faults(false, false, false) && a.draw.eventID.Some?
    ensures RunLifecycle.Commit(s, ReconcileRun(runID), HOST, a).1.Ok?
  {
  }
}
