/** The store refines an exactly-once service whose only state is the list of
    requests that took effect. */
module ExactlyOnce {
  import opened Results
  import opened Domain
  import opened StateStore
  import opened StoreTheorems

  type Log = seq<CommitRequest>

  /** The in-order fold of the accepted mutations. */
  function RecordsOf(log: Log): Records {
    if log == [] then NO_RECORDS
    else
      var before := RecordsOf(log[..|log| - 1]);
      match log[|log| - 1].mutate(before)
      case Ok((records, _)) => records
      case Err(_) => before
  }

  function KeyAt(log: Log, i: nat): string
    requires i < |log|
  {
    ReceiptKey(log[i].caller, log[i].requestID)
  }

  predicate HasKey(log: Log, key: string) {
    exists i :: 0 <= i < |log| && KeyAt(log, i) == key
  }

  /** What the service answers for the request that took effect at `i`, however
      often it is asked. */
  function ReplyAt(log: Log, i: nat): (Receipt, seq<Event>)
    requires i < |log|
  {
    var events := match log[i].mutate(RecordsOf(log[..i])) case Ok((_, events)) => events case Err(_) => [];
    (Receipt(log[i].requestID, i + 1), Stamp(events, i + 1))
  }

  /** The service: the requests that took effect, how many of them some caller
      was told about, and how many this process told some caller about. */
  datatype Service = Service(log: Log, acknowledged: nat, told: nat)

  function Max(a: nat, b: nat): nat {
    if a < b then b else a
  }

  function Told(acknowledged: nat, out: Outcome): nat {
    if out.Ok? then Max(acknowledged, out.value.0.revision) else acknowledged
  }

  /** What asking again for entry `i` is answered: its one reply, or, when the
      directory sync fails and this process has told nobody of it or of anything
      newer, that the outcome is uncertain. */
  predicate Confirms(log: Log, told: nat, i: nat, faults: Faults, out: Outcome)
    requires i < |log|
  {
    out == if told <= i && faults.sync then Err(OutcomeUncertain(i + 1)) else Ok(ReplyAt(log, i))
  }

  /** One request. The log and the call's faults decide the answer: the entry's
      own reply for its fingerprint, a conflict for another, the mutation's
      refusal, or a new entry. */
  ghost predicate Serves(log: Log, told: nat, req: CommitRequest, faults: Faults, out: Outcome, log': Log) {
    var key := ReceiptKey(req.caller, req.requestID);
    if faults.read then
      out == Err(IOFailure) && log' == log
    else if HasKey(log, key) then
      && log' == log
      && forall i :: 0 <= i < |log| && KeyAt(log, i) == key ==>
           if log[i].fingerprint != req.fingerprint then out == Err(Conflict)
           else Confirms(log, told, i, faults, out)
    else
      match req.mutate(RecordsOf(log))
      case Err(e) => out == Err(e) && log' == log
      case Ok(_) =>
        if faults.write then out == Err(IOFailure) && log' == log
        else
          && log' == log + [req]
          && out == if faults.sync then Err(OutcomeUncertain(|log'|)) else Ok(ReplyAt(log', |log|))
  }

  /** One look-up of an earlier request. */
  predicate Resolves(log: Log, told: nat, key: string, faults: Faults, out: Outcome) {
    if faults.read then out == Err(IOFailure)
    else if !HasKey(log, key) then out == Err(NotFound)
    else forall i :: 0 <= i < |log| && KeyAt(log, i) == key ==> Confirms(log, told, i, faults, out)
  }

  /** One call of the service. A crash never drops an acknowledged request, and
      the next process has told nobody yet. */
  ghost predicate ServiceNext(a: Service, call: Call, out: Option<Outcome>, b: Service) {
    match call
    case Crash(_, _) =>
      out.None? && a.acknowledged <= |b.log| && b.log <= a.log && b.acknowledged == a.acknowledged && b.told == 0
    case Resolve(caller, requestID, faults) =>
      && out.Some? && b == Service(a.log, Told(a.acknowledged, out.value), Told(a.told, out.value))
      && Resolves(a.log, a.told, ReceiptKey(caller, requestID), faults, out.value)
    case Commit(req, faults) =>
      && out.Some? && b.acknowledged == Told(a.acknowledged, out.value) && b.told == Told(a.told, out.value)
      && Serves(a.log, a.told, req, faults, out.value, b.log)
  }

  /* ---------- The log a history leaves ---------- */

  ghost predicate Accepts(log: Log, req: CommitRequest, faults: Faults) {
    && !faults.read && !faults.write
    && !HasKey(log, ReceiptKey(req.caller, req.requestID))
    && req.mutate(RecordsOf(log)).Ok?
  }

  /** Each request joins at its first accepted attempt; a crash truncates. */
  ghost function LogAfter(calls: seq<Call>): Log {
    if calls == [] then []
    else LogNext(LogAfter(calls[..|calls| - 1]), calls[|calls| - 1], |After(NEW_STORE, calls).disk.versions| - 1)
  }

  ghost function AcknowledgedAfter(calls: seq<Call>): nat {
    if calls == [] then 0
    else
      var acked := AcknowledgedAfter(calls[..|calls| - 1]);
      var out := Step(After(NEW_STORE, calls[..|calls| - 1]), calls[|calls| - 1]).1;
      if out.Some? then Told(acked, out.value) else acked
  }

  /** The newest revision a caller of the current process was told about. */
  ghost function ToldAfter(calls: seq<Call>): nat {
    if calls == [] then 0
    else
      var out := Step(After(NEW_STORE, calls[..|calls| - 1]), calls[|calls| - 1]).1;
      if out.Some? then Told(ToldAfter(calls[..|calls| - 1]), out.value) else 0
  }

  ghost function ServiceAfter(calls: seq<Call>): Service {
    Service(LogAfter(calls), AcknowledgedAfter(calls), ToldAfter(calls))
  }

  /** The workspace the store is for: the first one any request named. */
  function WorkspaceOf(log: Log): string {
    if log == [] then ""
    else if WorkspaceOf(log[..|log| - 1]) != "" then WorkspaceOf(log[..|log| - 1])
    else log[|log| - 1].workspaceID
  }

  /* ---------- The abstraction relation ---------- */

  /** Version `i` of the state file holds exactly the first `i` log entries. */
  ghost predicate Represents(s: Store, log: Log) {
    && WellFormed(s)
    && |s.disk.versions| == |log| + 1
    && (forall i :: 0 <= i <= |log| ==> s.disk.versions[i].snapshot.records == RecordsOf(log[..i]))
    && (forall i :: 0 <= i < |log| ==> RecordedAt(s, log, i))
  }

  ghost predicate RecordedAt(s: Store, log: Log, i: nat)
    requires i < |log| && |s.disk.versions| == |log| + 1
  {
    && log[i].mutate(RecordsOf(log[..i])).Ok?
    && KeyAt(log, i) !in s.disk.versions[i].receipts
    && s.disk.versions[i + 1].receipts == s.disk.versions[i].receipts[KeyAt(log, i) :=
         ReceiptRecord(ReplyAt(log, i).0, ReplyAt(log, i).1, log[i].fingerprint)]
  }

  lemma PrefixKeeps(log: Log, longer: Log, i: nat)
    requires log <= longer && i < |log|
    ensures longer[..i] == log[..i]
    ensures KeyAt(longer, i) == KeyAt(log, i) && ReplyAt(longer, i) == ReplyAt(log, i)
  {
    assert longer[..i] == log[..i];
  }

  /** The ledger is exactly the log, entry for entry. */
  lemma {:induction false} LedgerIsLog(s: Store, log: Log, n: nat, key: string)
    requires Represents(s, log) && n <= |log|
    ensures key in s.disk.versions[n].receipts <==> exists i :: 0 <= i < n && KeyAt(log, i) == key
    ensures forall i :: 0 <= i < n && KeyAt(log, i) == key ==>
              s.disk.versions[n].receipts[key] ==
                  ReceiptRecord(ReplyAt(log, i).0, ReplyAt(log, i).1, log[i].fingerprint)
  {
    Sizes(s, log);
    hide Represents, RecordsOf, ReplyAt, WellFormed;
    if n == 0 {
      EmptyAtFirst(s);
    } else {
      LedgerIsLog(s, log, n - 1, key);
      Recorded(s, log, n - 1);
      var prev, next := s.disk.versions[n - 1].receipts, s.disk.versions[n].receipts;
      assert next.Keys == prev.Keys + {KeyAt(log, n - 1)};
      forall i | 0 <= i < n && KeyAt(log, i) == key
        ensures key in next
        ensures next[key] == ReceiptRecord(ReplyAt(log, i).0, ReplyAt(log, i).1, log[i].fingerprint)
      {
        if i < n - 1 {
          assert key in prev;
        }
      }
      if key in next {
        assert key in prev || KeyAt(log, n - 1) == key;
      }
    }
  }

  lemma EmptyAtFirst(s: Store)
    requires WellFormed(s)
    ensures s.disk.versions[0].receipts == map[]
  {
  }

  lemma Sizes(s: Store, log: Log)
    requires Represents(s, log)
    ensures WellFormed(s) && |s.disk.versions| == |log| + 1
    ensures s.disk.Current().snapshot.revision == |log|
  {
    VersionsCountRevisions(s, |log|);
  }

  lemma Recorded(s: Store, log: Log, i: nat)
    requires Represents(s, log) && i < |log|
    ensures |s.disk.versions| == |log| + 1 && RecordedAt(s, log, i)
  {
  }

  lemma CurrentLedger(s: Store, log: Log, key: string)
    requires Represents(s, log)
    ensures key in s.disk.Current().receipts <==> HasKey(log, key)
    ensures s.disk.Current().snapshot.records == RecordsOf(log)
    ensures forall i :: 0 <= i < |log| && KeyAt(log, i) == key ==>
              s.disk.Current().receipts[key] == ReceiptRecord(ReplyAt(log, i).0, ReplyAt(log, i).1, log[i].fingerprint)
  {
    LedgerIsLog(s, log, |log|, key);
    assert log[..|log|] == log;
  }

  lemma EndOfLog(log: Log, req: CommitRequest)
    requires req.mutate(RecordsOf(log)).Ok?
    ensures var (records, events) := req.mutate(RecordsOf(log)).value;
            && (log + [req])[..|log|] == log
            && KeyAt(log + [req], |log|) == ReceiptKey(req.caller, req.requestID)
            && ReplyAt(log + [req], |log|) == (Receipt(req.requestID, |log| + 1), Stamp(events, |log| + 1))
            && RecordsOf(log + [req]) == records
  {
    assert (log + [req])[..|log|] == log;
  }

  /** The version a fresh request adds records it at the log's new end. */
  lemma NewEntryRecorded(s: Store, log: Log, req: CommitRequest, s': Store)
    requires s.disk.Valid() && |s.disk.versions| == |log| + 1 && s.disk.Current().snapshot.revision == |log|
    requires req.mutate(RecordsOf(log)).Ok?
    requires ReceiptKey(req.caller, req.requestID) !in s.disk.Current().receipts
    requires var (records, events) := req.mutate(RecordsOf(log)).value;
             s'.disk.versions == s.disk.versions + [NextState(s.disk.Current(), req, records, events)]
    ensures RecordedAt(s', log + [req], |log|)
    ensures s'.disk.versions[|log| + 1].snapshot.records == RecordsOf(log + [req])
  {
    hide RecordsOf, ReplyAt, KeyAt, Stamp;
    EndOfLog(log, req);
  }

  lemma OldEntriesRecorded(s: Store, log: Log, s': Store, log': Log)
    requires Represents(s, log) && log <= log' && |s'.disk.versions| == |log'| + 1
    requires s.disk.versions <= s'.disk.versions
    ensures forall i :: 0 <= i < |log| ==> RecordedAt(s', log', i)
    ensures forall i :: 0 <= i <= |log| ==> s'.disk.versions[i].snapshot.records == RecordsOf(log'[..i])
  {
    forall i | 0 <= i < |log|
      ensures RecordedAt(s', log', i)
    {
      assert RecordedAt(s, log, i);
      PrefixKeeps(log, log', i);
    }
    forall i | 0 <= i <= |log|
      ensures s'.disk.versions[i].snapshot.records == RecordsOf(log'[..i])
    {
      assert log'[..i] == log[..i];
      assert s'.disk.versions[i] == s.disk.versions[i];
    }
  }

  lemma AppendKeeps(s: Store, log: Log, req: CommitRequest, s': Store)
    requires Represents(s, log) && WellFormed(s') && s.disk.Valid()
    requires ReceiptKey(req.caller, req.requestID) !in s.disk.Current().receipts
    requires req.mutate(RecordsOf(log)).Ok?
    requires var (records, events) := req.mutate(RecordsOf(log)).value;
             s'.disk.versions == s.disk.versions + [NextState(s.disk.Current(), req, records, events)]
    ensures Represents(s', log + [req])
  {
    hide RecordsOf, Represents;
    var log' := log + [req];
    Sizes(s, log);
    OldEntriesRecorded(s, log, s', log');
    NewEntryRecorded(s, log, req, s');
    Assembled(s', log', |log|);
  }

  lemma Assembled(s: Store, log: Log, n: nat)
    requires WellFormed(s) && |log| == n + 1 && |s.disk.versions| == |log| + 1
    requires forall i :: 0 <= i < n ==> RecordedAt(s, log, i)
    requires RecordedAt(s, log, n)
    requires forall i :: 0 <= i <= n ==> s.disk.versions[i].snapshot.records == RecordsOf(log[..i])
    requires s.disk.versions[n + 1].snapshot.records == RecordsOf(log)
    ensures Represents(s, log)
  {
    hide WellFormed, RecordedAt, RecordsOf;
    forall i | 0 <= i <= |log|
      ensures s.disk.versions[i].snapshot.records == RecordsOf(log[..i])
    {
      if i == n + 1 {
        assert log[..i] == log;
      }
    }
  }

  lemma PrefixRecorded(s: Store, log: Log, n: nat, s': Store)
    requires Represents(s, log) && n <= |log| && s'.disk.versions == s.disk.versions[..n + 1] && WellFormed(s')
    ensures Represents(s', log[..n])
  {
    hide WellFormed, RecordsOf, ReplyAt;
    var log' := log[..n];
    forall i | 0 <= i <= n
      ensures s'.disk.versions[i].snapshot.records == RecordsOf(log'[..i])
    {
      assert log'[..i] == log[..i];
    }
    forall i | 0 <= i < n
      ensures RecordedAt(s', log', i)
    {
      assert RecordedAt(s, log, i);
      PrefixKeeps(log', log, i);
    }
  }

  lemma TruncateKeeps(s: Store, log: Log, kept: nat, settled: nat)
    requires Represents(s, log)
    ensures var s' := Reopened(s, kept, settled);
            var n := |s'.disk.versions| - 1;
            n <= |log| && Represents(s', log[..n])
  {
    CrashKeeps(s, kept, settled);
    PrefixRecorded(s, log, |Reopened(s, kept, settled).disk.versions| - 1, Reopened(s, kept, settled));
  }

  lemma SameVersionsKeep(s: Store, s': Store, log: Log)
    requires Represents(s, log) && WellFormed(s') && s'.disk.versions == s.disk.versions
    ensures Represents(s', log)
  {
    OldEntriesRecorded(s, log, s', log);
  }

  /** The log after one more call, given how many entries the disk still holds. */
  ghost function LogNext(log: Log, call: Call, kept: int): Log {
    match call
    case Commit(req, faults) => if Accepts(log, req, faults) then log + [req] else log
    case Resolve(_, _, _) => log
    case Crash(_, _) => if 0 <= kept < |log| then log[..kept] else log
  }

  lemma CommitKeepsLog(s: Store, log: Log, req: CommitRequest, faults: Faults, s': Store, out: Outcome)
    requires Represents(s, log) && CommitFacts(s, req, faults, s', out)
    ensures Represents(s', LogNext(log, Commit(req, faults), 0))
  {
    CurrentLedger(s, log, ReceiptKey(req.caller, req.requestID));
    if Applies(s, req, faults) {
      AppendKeeps(s, log, req, s');
    } else {
      SameVersionsKeep(s, s', log);
    }
  }

  lemma CallKeeps(s: Store, log: Log, call: Call)
    requires Represents(s, log)
    ensures Represents(Step(s, call).0, LogNext(log, call, |Step(s, call).0.disk.versions| - 1))
  {
    match call {
      case Commit(req, faults) =>
        CommitKeeps(s, req, faults);
        CommitKeepsLog(s, log, req, faults, CommitStep(s, req, faults).0, CommitStep(s, req, faults).1);
      case Resolve(caller, requestID, faults) =>
        ResolveKeeps(s, caller, requestID, faults);
        SameVersionsKeep(s, ResolveStep(s, caller, requestID, faults).0, log);
      case Crash(kept, settled) =>
        TruncateKeeps(s, log, kept, settled);
        assert log[..|log|] == log;
    }
  }

  /** Over every history the state file is the fold of the log, and every
      acknowledged request is in its durable part. */
  lemma {:induction false} StoreIsFoldOfLog(calls: seq<Call>)
    ensures Represents(After(NEW_STORE, calls), LogAfter(calls))
    ensures AcknowledgedAfter(calls) <= After(NEW_STORE, calls).disk.durable
  {
    if calls != [] {
      var before, call := calls[..|calls| - 1], calls[|calls| - 1];
      StoreIsFoldOfLog(before);
      CallKeeps(After(NEW_STORE, before), LogAfter(before), call);
      SuccessIsDurable(After(NEW_STORE, before), call);
    }
  }

  predicate NamedAt(s: Store, log: Log, i: nat) {
    i <= |log| && i < |s.disk.versions| && s.disk.versions[i].snapshot.workspaceID == WorkspaceOf(log[..i])
  }

  /** Every version is for the workspace the log's requests up to it first named. */
  lemma {:induction false} WorkspaceIsFirstNamed(calls: seq<Call>, i: nat)
    requires i <= |LogAfter(calls)|
    ensures NamedAt(After(NEW_STORE, calls), LogAfter(calls), i)
  {
    if calls != [] {
      var before, call := calls[..|calls| - 1], calls[|calls| - 1];
      StoreIsFoldOfLog(before);
      StoreIsFoldOfLog(calls);
      Sizes(After(NEW_STORE, calls), LogAfter(calls));
      WorkspaceIsFirstNamed(before, if i <= |LogAfter(before)| then i else |LogAfter(before)|);
      NamingKeeps(After(NEW_STORE, before), LogAfter(before), call, i);
    }
  }

  lemma NamingKeeps(s: Store, log: Log, call: Call, i: nat)
    requires Represents(s, log)
    requires NamedAt(s, log, if i <= |log| then i else |log|)
    requires i <= |LogNext(log, call, |Step(s, call).0.disk.versions| - 1)|
    ensures NamedAt(Step(s, call).0, LogNext(log, call, |Step(s, call).0.disk.versions| - 1), i)
  {
    CallNames(s, log, call);
    CallKeeps(s, log, call);
    var s', log' := Step(s, call).0, LogNext(log, call, |Step(s, call).0.disk.versions| - 1);
    Sizes(s, log);
    Sizes(s', log');
    hide Step, LogNext, Represents, WellFormed;
    if i > |log| {
      assert log'[..i] == log';
      assert log[..|log|] == log == log'[..|log|];
    }
  }

  /** A call keeps a prefix of the versions, or adds one that names what the old
      newest one named, or what its request names. */
  lemma CallNames(s: Store, log: Log, call: Call)
    requires Represents(s, log)
    ensures var s', log' := Step(s, call).0, LogNext(log, call, |Step(s, call).0.disk.versions| - 1);
            && (forall i :: 0 <= i < |s'.disk.versions| && i < |s.disk.versions| ==>
                  s'.disk.versions[i] == s.disk.versions[i])
            && (forall i :: 0 <= i <= |log| && i <= |log'| ==> log'[..i] == log[..i])
            && (|log'| > |log| ==>
                  && call.Commit? && log' == log + [call.req] && |s'.disk.versions| == |log| + 2
                  && s'.disk.versions[|log| + 1].snapshot.workspaceID ==
                     if s.disk.versions[|log|].snapshot.workspaceID != "" then
                         s.disk.versions[|log|].snapshot.workspaceID
                     else call.req.workspaceID)
  {
    CallKeeps(s, log, call);
    Sizes(s, log);
    match call {
      case Commit(req, faults) =>
        CurrentLedger(s, log, ReceiptKey(req.caller, req.requestID));
        hide Represents, RecordsOf;
        CommitKeeps(s, req, faults);
      case Resolve(caller, requestID, faults) => ResolveKeeps(s, caller, requestID, faults);
      case Crash(kept, settled) => CrashKeeps(s, kept, settled);
    }
  }

  lemma SuccessIsDurable(s: Store, call: Call)
    requires WellFormed(s)
    ensures s.disk.durable <= Step(s, call).0.disk.durable
    ensures var (s', out) := Step(s, call);
            out.Some? && out.value.Ok? ==> out.value.value.0.revision <= s'.disk.durable
  {
    StepKeeps(s, call);
    match call {
      case Commit(req, faults) => CommitKeeps(s, req, faults);
      case Resolve(caller, requestID, faults) => ResolveKeeps(s, caller, requestID, faults);
      case Crash(_, _) =>
    }
  }

  lemma TellingIsSyncing(s: Store, call: Call)
    requires WellFormed(s)
    ensures var (s', out) := Step(s, call);
            s'.durableRevision == if out.Some? then Told(s.durableRevision, out.value) else 0
  {
    VersionsCountRevisions(s, |s.disk.versions| - 1);
  }

  /** Over every history the durable revision a process keeps in memory is exactly
      the newest revision it has told a caller about. */
  lemma {:induction false} DurableRevisionIsTold(calls: seq<Call>)
    ensures After(NEW_STORE, calls).durableRevision == ToldAfter(calls)
  {
    if calls != [] {
      DurableRevisionIsTold(calls[..|calls| - 1]);
      TellingIsSyncing(After(NEW_STORE, calls[..|calls| - 1]), calls[|calls| - 1]);
    }
  }

  /** No key takes effect twice in one surviving history. */
  lemma NoKeyAppliesTwice(calls: seq<Call>, i: nat, j: nat)
    requires i < j < |LogAfter(calls)|
    ensures KeyAt(LogAfter(calls), i) != KeyAt(LogAfter(calls), j)
  {
    StoreIsFoldOfLog(calls);
    var s, log := After(NEW_STORE, calls), LogAfter(calls);
    LedgerIsLog(s, log, j, KeyAt(log, i));
    assert RecordedAt(s, log, j);
  }

  /** Asking for an entry again is answered from the ledger. */
  lemma ConfirmIsService(s: Store, log: Log, key: string, i: nat, faults: Faults)
    requires Represents(s, log) && s.disk.Valid() && i < |log| && KeyAt(log, i) == key
    ensures key in s.disk.Current().receipts && s.disk.Current().receipts[key].fingerprint == log[i].fingerprint
    ensures Confirms(log, s.durableRevision, i, faults, ConfirmStep(s, s.disk.Current().receipts[key], faults).1)
  {
    hide Represents, RecordsOf;
    CurrentLedger(s, log, key);
  }

  lemma CommitIsServiceStep(s: Store, log: Log, req: CommitRequest, faults: Faults)
    requires Represents(s, log) && s.disk.Valid()
    ensures Serves(log, s.durableRevision, req, faults, CommitStep(s, req, faults).1,
            LogNext(log, Commit(req, faults), 0))
  {
    var key := ReceiptKey(req.caller, req.requestID);
    CurrentLedger(s, log, key);
    Sizes(s, log);
    if HasKey(log, key) {
      hide Represents, RecordsOf, ReplyAt, ConfirmStep, Confirms;
      forall i | 0 <= i < |log| && KeyAt(log, i) == key
        ensures s.disk.Current().receipts[key].fingerprint == log[i].fingerprint
        ensures Confirms(log, s.durableRevision, i, faults, ConfirmStep(s, s.disk.Current().receipts[key], faults).1)
      {
        ConfirmIsService(s, log, key, i, faults);
      }
    } else if req.mutate(RecordsOf(log)).Ok? {
      hide Represents, RecordsOf, ReplyAt, ConfirmStep, HasKey;
      EndOfLog(log, req);
    }
  }

  lemma ResolveIsServiceStep(s: Store, log: Log, caller: string, requestID: string, faults: Faults)
    requires Represents(s, log) && s.disk.Valid()
    ensures Resolves(log, s.durableRevision, ReceiptKey(caller, requestID), faults,
            ResolveStep(s, caller, requestID, faults).1)
  {
    hide Represents, RecordsOf, ReplyAt, ConfirmStep, Confirms;
    var key := ReceiptKey(caller, requestID);
    CurrentLedger(s, log, key);
    forall i | 0 <= i < |log| && KeyAt(log, i) == key
      ensures Confirms(log, s.durableRevision, i, faults, ConfirmStep(s, s.disk.Current().receipts[key], faults).1)
    {
      ConfirmIsService(s, log, key, i, faults);
    }
  }

  lemma CrashIsServiceStep(s: Store, log: Log, acked: nat, told: nat, kept: nat, settled: nat)
    requires Represents(s, log) && acked <= s.disk.durable
    ensures ServiceNext(Service(log, acked, told), Crash(kept, settled), None,
                        Service(LogNext(log, Crash(kept, settled),
                            |Reopened(s, kept, settled).disk.versions| - 1), acked, 0))
  {
    CrashKeeps(s, kept, settled);
    TruncateKeeps(s, log, kept, settled);
    assert log[..|log|] == log;
  }

  lemma ServiceAfterOneMore(before: seq<Call>, call: Call)
    ensures var (s', out) := Step(After(NEW_STORE, before), call);
            var acked, told := AcknowledgedAfter(before), ToldAfter(before);
            ServiceAfter(before + [call]) ==
            Service(LogNext(LogAfter(before), call, |s'.disk.versions| - 1),
                    if out.Some? then Told(acked, out.value) else acked,
                    if out.Some? then Told(told, out.value) else 0)
  {
    hide Step, LogNext, Told, WellFormed;
    var calls := before + [call];
    assert calls[..|calls| - 1] == before && calls[|calls| - 1] == call;
  }

  /** THE refinement theorem: every call of every history is a step of the
      exactly-once service. */
  lemma StoreRefinesService(before: seq<Call>, call: Call)
    ensures ServiceNext(
              ServiceAfter(before), call, Step(After(NEW_STORE, before), call).1, ServiceAfter(before + [call]))
  {
    StoreIsFoldOfLog(before);
    DurableRevisionIsTold(before);
    ServiceAfterOneMore(before, call);
    var s, log, acked := After(NEW_STORE, before), LogAfter(before), AcknowledgedAfter(before);
    match call {
      case Commit(req, faults) => CommitIsServiceStep(s, log, req, faults);
      case Resolve(caller, requestID, faults) => ResolveIsServiceStep(s, log, caller, requestID, faults);
      case Crash(kept, settled) => CrashIsServiceStep(s, log, acked, ToldAfter(before), kept, settled);
    }
  }
}
