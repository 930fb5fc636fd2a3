/** What the store keeps over every history of calls, I/O failures and crashes. */
module StoreTheorems {
  import opened Results
  import opened Domain
  import opened StateStore
  import Decimal

  /* ---------- The inductive invariant ---------- */

  /** `next` adds exactly one ledger entry to `prev`, at the next revision. */
  ghost predicate Extends(prev: State, next: State) {
    && next.snapshot.revision == prev.snapshot.revision + 1
    && next.snapshot.cursor == Decimal.Digits(next.snapshot.revision)
    && exists key :: key !in prev.receipts && next.receipts.Keys == prev.receipts.Keys + {key}
         && next.receipts[key].receipt.revision == next.snapshot.revision
         && forall k :: k in prev.receipts ==> next.receipts[k] == prev.receipts[k]
  }

  ghost predicate WellFormed(s: Store) {
    && s.disk.Valid()
    && s.disk.versions[0] == NO_STATE
    && (forall i :: 0 < i < |s.disk.versions| ==> Extends(s.disk.versions[i - 1], s.disk.versions[i]))
    && s.durableRevision <= s.disk.durable
  }

  lemma {:induction false} VersionsCountRevisions(s: Store, i: nat)
    requires WellFormed(s) && i < |s.disk.versions|
    ensures s.disk.versions[i].snapshot.revision == i
    ensures |s.disk.versions[i].receipts| == i
    ensures forall k :: k in s.disk.versions[i].receipts ==> 1 <= s.disk.versions[i].receipts[k].receipt.revision <= i
  {
    if i > 0 {
      VersionsCountRevisions(s, i - 1);
      var prev, next := s.disk.versions[i - 1], s.disk.versions[i];
      assert Extends(prev, next);
      hide WellFormed;
      var key :| key !in prev.receipts && next.receipts.Keys == prev.receipts.Keys + {key}
        && next.receipts[key].receipt.revision == next.snapshot.revision
        && forall k :: k in prev.receipts ==> next.receipts[k] == prev.receipts[k];
      assert |next.receipts.Keys| == |prev.receipts.Keys| + 1;
    }
  }

  /** A receipt is in every version from its own revision on, and in none before. */
  lemma {:induction false} ReceiptsPersist(s: Store, i: nat, j: nat, key: string)
    requires WellFormed(s) && i <= j < |s.disk.versions|
    requires key in s.disk.versions[j].receipts
    ensures s.disk.versions[j].receipts[key].receipt.revision <= i <==> key in s.disk.versions[i].receipts
    ensures key in s.disk.versions[i].receipts ==>
              s.disk.versions[i].receipts[key] == s.disk.versions[j].receipts[key]
    decreases j - i
  {
    VersionsCountRevisions(s, i);
    if i < j {
      var prev, next := s.disk.versions[j - 1], s.disk.versions[j];
      VersionsCountRevisions(s, j);
      assert Extends(prev, next);
      if key in prev.receipts {
        ReceiptsPersist(s, i, j - 1, key);
      } else if key in s.disk.versions[i].receipts {
        LedgerOnlyGrows(s, i, j - 1, key);
      }
    }
  }

  lemma {:induction false} LedgerOnlyGrows(s: Store, i: nat, j: nat, key: string)
    requires WellFormed(s) && i <= j < |s.disk.versions|
    requires key in s.disk.versions[i].receipts
    ensures key in s.disk.versions[j].receipts
    ensures s.disk.versions[j].receipts[key] == s.disk.versions[i].receipts[key]
    decreases j - i
  {
    if i < j {
      LedgerOnlyGrows(s, i, j - 1, key);
      assert Extends(s.disk.versions[j - 1], s.disk.versions[j]);
    }
  }

  /** Receipt revisions biject with `1..revision`: no two keys share one. */
  lemma {:induction false} RevisionsAreDistinct(s: Store, i: nat, k1: string, k2: string)
    requires WellFormed(s) && i < |s.disk.versions|
    requires k1 in s.disk.versions[i].receipts && k2 in s.disk.versions[i].receipts
    requires s.disk.versions[i].receipts[k1].receipt.revision == s.disk.versions[i].receipts[k2].receipt.revision
    ensures k1 == k2
  {
    if i > 0 {
      var prev, next := s.disk.versions[i - 1], s.disk.versions[i];
      assert Extends(prev, next);
      VersionsCountRevisions(s, i - 1);
      if k1 in prev.receipts && k2 in prev.receipts {
        RevisionsAreDistinct(s, i - 1, k1, k2);
      }
    }
  }

  lemma {:induction false} EveryRevisionHasAReceipt(s: Store, i: nat, revision: nat) returns (key: string)
    requires WellFormed(s) && 1 <= revision <= i < |s.disk.versions|
    ensures key in s.disk.versions[i].receipts
    ensures s.disk.versions[i].receipts[key].receipt.revision == revision
  {
    var prev, next := s.disk.versions[i - 1], s.disk.versions[i];
    assert Extends(prev, next);
    VersionsCountRevisions(s, i);
    if revision == i {
      key :| key in next.receipts && next.receipts[key].receipt.revision == next.snapshot.revision;
    } else {
      key := EveryRevisionHasAReceipt(s, i - 1, revision);
    }
  }

  /* ---------- One call ---------- */

  lemma ConfirmKeeps(s: Store, key: string, faults: Faults)
    requires WellFormed(s) && key in s.disk.Current().receipts
    ensures WellFormed(ConfirmStep(s, s.disk.Current().receipts[key], faults).0)
    ensures var (s', out) := ConfirmStep(s, s.disk.Current().receipts[key], faults);
            && s'.disk.versions == s.disk.versions
            && s.disk.durable <= s'.disk.durable
            && s.durableRevision <= s'.durableRevision
            && (out.Ok? ==> out.value.0.revision <= s'.disk.durable
                            && out.value == (s.disk.Current().receipts[key].receipt,
                               s.disk.Current().receipts[key].events))
  {
    VersionsCountRevisions(s, |s.disk.versions| - 1);
  }

  /** Whether this request runs its mutation now. */
  predicate RunsNow(s: Store, req: CommitRequest, faults: Faults)
    requires s.disk.Valid()
  {
    !faults.read && ReceiptKey(req.caller, req.requestID) !in s.disk.Current().receipts
  }

  /** Whether this request takes effect now: its mutation runs, accepts, and is
      renamed into place. */
  predicate Applies(s: Store, req: CommitRequest, faults: Faults)
    requires s.disk.Valid()
  {
    RunsNow(s, req, faults) && !faults.write && req.mutate(s.disk.Current().snapshot.records).Ok?
  }

  /** Everything a caller may conclude from one `Commit`. */
  ghost predicate CommitFacts(s: Store, req: CommitRequest, faults: Faults, s': Store, out: Outcome)
    requires s.disk.Valid()
  {
    var key := ReceiptKey(req.caller, req.requestID);
    && WellFormed(s')
    && s.disk.durable <= s'.disk.durable
    && s.durableRevision <= s'.durableRevision
    && s'.disk.versions == s.disk.versions + Appended(s, req, faults)
    && (out.Ok? ==>
          && key in s'.disk.Current().receipts
          && s'.disk.Current().receipts[key].fingerprint == req.fingerprint
          && out.value == (s'.disk.Current().receipts[key].receipt, s'.disk.Current().receipts[key].events)
          && 1 <= out.value.0.revision <= s'.disk.durable
          && (Applies(s, req, faults) ==> s'.disk.durable == |s'.disk.versions| - 1 == out.value.0.revision))
    && (out.Err? && Applies(s, req, faults) ==> out.error == OutcomeUncertain(|s'.disk.versions| - 1))
    && (out.Err? && out.error.OutcomeUncertain? && (Applies(s, req, faults) || key in s.disk.Current().receipts) ==>
          key in s'.disk.Current().receipts
          && s'.disk.Current().receipts[key].receipt.revision == out.error.observedRevision)
    && (out.Err? && !Applies(s, req, faults) && key !in s.disk.Current().receipts ==>
          out.error == IOFailure || req.mutate(s.disk.Current().snapshot.records) == Err(out.error))
    && (Applies(s, req, faults) ==> key !in s.disk.Current().receipts)
  }

  /** The version this request adds, if it takes effect. */
  function Appended(s: Store, req: CommitRequest, faults: Faults): seq<State>
    requires s.disk.Valid()
  {
    if Applies(s, req, faults) then
      var (records, events) := req.mutate(s.disk.Current().snapshot.records).value;
      [NextState(s.disk.Current(), req, records, events)]
    else []
  }

  lemma AppliedKeeps(s: Store, req: CommitRequest, faults: Faults)
    requires WellFormed(s) && Applies(s, req, faults)
    ensures CommitFacts(s, req, faults, CommitStep(s, req, faults).0, CommitStep(s, req, faults).1)
  {
    var cur, key := s.disk.Current(), ReceiptKey(req.caller, req.requestID);
    var (records, events) := req.mutate(cur.snapshot.records).value;
    var next := NextState(cur, req, records, events);
    VersionsCountRevisions(s, |s.disk.versions| - 1);
    assert key !in cur.receipts && next.receipts.Keys == cur.receipts.Keys + {key};
    assert Extends(cur, next);
  }

  lemma CommitKeeps(s: Store, req: CommitRequest, faults: Faults)
    requires WellFormed(s)
    ensures WellFormed(CommitStep(s, req, faults).0)
    ensures CommitFacts(s, req, faults, CommitStep(s, req, faults).0, CommitStep(s, req, faults).1)
  {
    var key := ReceiptKey(req.caller, req.requestID);
    VersionsCountRevisions(s, |s.disk.versions| - 1);
    if Applies(s, req, faults) {
      AppliedKeeps(s, req, faults);
    } else if key in s.disk.Current().receipts {
      ConfirmKeeps(s, key, faults);
    }
  }

  /** A mutation that fails, or whose file never lands, changes nothing at all. */
  lemma RejectedMutationLeavesDisk(s: Store, req: CommitRequest, faults: Faults)
    requires WellFormed(s) && RunsNow(s, req, faults)
    requires req.mutate(s.disk.Current().snapshot.records).Err? || faults.write
    ensures CommitStep(s, req, faults).0 == s
    ensures CommitStep(s, req, faults).1.Err?
    ensures req.mutate(s.disk.Current().snapshot.records).Err? ==>
              CommitStep(s, req, faults).1 == Err(req.mutate(s.disk.Current().snapshot.records).error)
  {
  }

  lemma ResolveKeeps(s: Store, caller: string, requestID: string, faults: Faults)
    requires WellFormed(s)
    ensures WellFormed(ResolveStep(s, caller, requestID, faults).0)
    ensures var (s', out) := ResolveStep(s, caller, requestID, faults);
            var key := ReceiptKey(caller, requestID);
            && s'.disk.versions == s.disk.versions
            && s.disk.durable <= s'.disk.durable
            && s.durableRevision <= s'.durableRevision
            && (out.Ok? ==>
                  && key in s.disk.Current().receipts
                  && out.value == (s.disk.Current().receipts[key].receipt, s.disk.Current().receipts[key].events)
                  && out.value.0.revision <= s'.disk.durable)
  {
    var key := ReceiptKey(caller, requestID);
    if !faults.read && key in s.disk.Current().receipts {
      ConfirmKeeps(s, key, faults);
    }
  }

  /** A reopened process trusts nothing as synced. */
  function Reopened(s: Store, kept: nat, settled: nat): Store
    requires s.disk.Valid()
  {
    Store(s.disk.Crash(kept, settled), 0)
  }

  lemma CrashKeeps(s: Store, kept: nat, settled: nat)
    requires WellFormed(s)
    ensures WellFormed(Reopened(s, kept, settled))
    ensures s.disk.durable < |Reopened(s, kept, settled).disk.versions|
    ensures Reopened(s, kept, settled).disk.versions <= s.disk.versions
    ensures s.disk.durable <= Reopened(s, kept, settled).disk.durable
  {
  }

  /* ---------- Whole histories ---------- */

  datatype Call =
    | Commit(req: CommitRequest, faults: Faults)
    | Resolve(caller: string, requestID: string, faults: Faults)
    | Crash(kept: nat, settled: nat)

  function Step(s: Store, call: Call): (Store, Option<Outcome>)
    requires s.disk.Valid()
  {
    match call
    case Commit(req, faults) => var (s', out) := CommitStep(s, req, faults); (s', Some(out))
    case Resolve(caller, requestID, faults) =>
        var (s', out) := ResolveStep(s, caller, requestID, faults); (s', Some(out))
    case Crash(kept, settled) => (Reopened(s, kept, settled), None)
  }

  ghost function After(s: Store, calls: seq<Call>): (s': Store)
    requires WellFormed(s)
    ensures WellFormed(s')
  {
    if calls == [] then s
    else
      var before := After(s, calls[..|calls| - 1]);
      StepKeeps(before, calls[|calls| - 1]);
      Step(before, calls[|calls| - 1]).0
  }

  lemma StepKeeps(s: Store, call: Call)
    requires WellFormed(s)
    ensures WellFormed(Step(s, call).0)
    ensures s.disk.durable <= Step(s, call).0.disk.durable
    ensures forall i :: 0 <= i <= s.disk.durable ==> Step(s, call).0.disk.versions[i] == s.disk.versions[i]
    ensures !call.Crash? ==> s.disk.versions <= Step(s, call).0.disk.versions
    ensures !call.Crash? ==> s.durableRevision <= Step(s, call).0.durableRevision
  {
    match call {
      case Commit(req, faults) => CommitKeeps(s, req, faults);
      case Resolve(caller, requestID, faults) => ResolveKeeps(s, caller, requestID, faults);
      case Crash(kept, settled) => CrashKeeps(s, kept, settled);
    }
  }

  /** What was durable stays, version for version, whatever follows. */
  lemma {:induction false} DurablePrefixSurvives(s: Store, calls: seq<Call>)
    requires WellFormed(s)
    ensures s.disk.durable <= After(s, calls).disk.durable
    ensures forall i :: 0 <= i <= s.disk.durable ==> After(s, calls).disk.versions[i] == s.disk.versions[i]
  {
    if calls != [] {
      DurablePrefixSurvives(s, calls[..|calls| - 1]);
      StepKeeps(After(s, calls[..|calls| - 1]), calls[|calls| - 1]);
    }
  }

  /** Within one process `durableRevision` never falls, and it never claims more
      than the disk guarantees, so skipping the sync below it is sound. */
  lemma {:induction false} DurableRevisionIsSound(s: Store, calls: seq<Call>)
    requires WellFormed(s)
    requires forall i :: 0 <= i < |calls| ==> !calls[i].Crash?
    ensures s.durableRevision <= After(s, calls).durableRevision <= After(s, calls).disk.durable
  {
    if calls != [] {
      DurableRevisionIsSound(s, calls[..|calls| - 1]);
      StepKeeps(After(s, calls[..|calls| - 1]), calls[|calls| - 1]);
    }
  }

  /** The key a call asks about. */
  function KeyOf(call: Call): string
    requires !call.Crash?
  {
    if call.Commit? then ReceiptKey(call.req.caller, call.req.requestID) else ReceiptKey(call.caller, call.requestID)
  }

  /** A ledger entry at or below the durable index outlives anything. */
  lemma DurableReceiptSurvives(s: Store, key: string, more: seq<Call>)
    requires WellFormed(s)
    requires key in s.disk.Current().receipts && s.disk.Current().receipts[key].receipt.revision <= s.disk.durable
    ensures key in After(s, more).disk.Current().receipts
    ensures After(s, more).disk.Current().receipts[key] == s.disk.Current().receipts[key]
  {
    var revision := s.disk.Current().receipts[key].receipt.revision;
    ReceiptsPersist(s, revision, |s.disk.versions| - 1, key);
    DurablePrefixSurvives(s, more);
    var final := After(s, more);
    LedgerOnlyGrows(final, revision, |final.disk.versions| - 1, key);
  }

  lemma SuccessfulCallFacts(s: Store, call: Call, s': Store, reply: (Receipt, seq<Event>))
    requires WellFormed(s) && !call.Crash? && Step(s, call) == (s', Some(Ok(reply)))
    ensures WellFormed(s')
    ensures KeyOf(call) in s'.disk.Current().receipts
    ensures var entry := s'.disk.Current().receipts[KeyOf(call)]; reply == (entry.receipt, entry.events)
    ensures reply.0.revision <= s'.disk.durable
  {
    match call {
      case Commit(req, faults) => CommitKeeps(s, req, faults);
      case Resolve(caller, requestID, faults) => ResolveKeeps(s, caller, requestID, faults);
    }
  }

  /** THE durability theorem: a receipt returned without error, fresh, replayed
      or resolved, is still in the ledger after any further calls and crashes,
      and so is every version up to its revision. */
  lemma AcknowledgedReceiptSurvives(s: Store, call: Call, s': Store, reply: (Receipt, seq<Event>), more: seq<Call>)
    requires WellFormed(s) && WellFormed(s') && !call.Crash? && Step(s, call) == (s', Some(Ok(reply)))
    ensures var final := After(s', more);
            && KeyOf(call) in final.disk.Current().receipts
            && final.disk.Current().receipts[KeyOf(call)].receipt == reply.0
            && final.disk.Current().receipts[KeyOf(call)].events == reply.1
            && reply.0.revision <= final.disk.durable
            && final.disk.versions[..reply.0.revision + 1] == s'.disk.versions[..reply.0.revision + 1]
  {
    SuccessfulCallFacts(s, call, s', reply);
    DurableReceiptSurvives(s', KeyOf(call), more);
    DurablePrefixSurvives(s', more);
  }
}
