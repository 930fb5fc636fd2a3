/** The durable, exactly-once state store: one state file replaced by
    write-temp-then-rename, a receipt ledger inside it, and a directory fsync
    that alone makes a rename survive a power loss. */
module StateStore {
  import opened Results
  import opened Domain
  import Decimal

  datatype Receipt = Receipt(requestID: string, revision: nat)

  datatype ReceiptRecord = ReceiptRecord(receipt: Receipt, events: seq<Event>, fingerprint: string)

  /** The content of the state file. */
  datatype State = State(snapshot: Snapshot, receipts: map<string, ReceiptRecord>)

  /** What a missing state file reads as. */
  const NO_STATE := State(Snapshot("", 0, "", NO_RECORDS), map[])

  type Mutation = Records -> Result<(Records, seq<Event>), ErrorCode>

  datatype CommitRequest = CommitRequest(
    workspaceID: string, caller: string, requestID: string, fingerprint: string, mutate: Mutation)

  type Outcome = Result<(Receipt, seq<Event>), ErrorCode>

  /** Which I/O fails during one call: reading the state file, producing the
      temp file and renaming it, or syncing the directory. */
  datatype Faults = Faults(read: bool, write: bool, sync: bool)

  /* ---------- The disk ---------- */

  /** Every state file ever renamed into place and not lost, oldest first. A
      power loss keeps at least `versions[..durable + 1]`. */
  datatype Disk = Disk(versions: seq<State>, durable: nat) {
    predicate Valid() {
      durable < |versions|
    }

    function Current(): State
      requires Valid()
    {
      versions[|versions| - 1]
    }

    function Rename(next: State): Disk {
      Disk(versions + [next], durable)
    }

    function SyncDirectory(): Disk
      requires Valid()
    {
      Disk(versions, |versions| - 1)
    }

    /** A crash that keeps `kept` renames beyond the durable one, `settled` of
        which are now durable. Every surviving history is some such pair: a
        killed process keeps everything, a power loss any prefix. */
    function Crash(kept: nat, settled: nat): Disk
      requires Valid()
    {
      var last := if durable + kept < |versions| then durable + kept else |versions| - 1;
      Disk(versions[..last + 1], if durable + settled < last then durable + settled else last)
    }
  }

  const NEW_DISK := Disk([NO_STATE], 0)

  /* ---------- Receipt keys ---------- */

  function ReceiptKey(caller: string, requestID: string): string {
    caller + "\0" + requestID
  }

  /** Whether two callers can reach one another's receipts: one caller ID,
      terminated by NUL, begins the other. */
  predicate KeySpacesOverlap(a: string, b: string) {
    a + "\0" <= b + "\0" || b + "\0" <= a + "\0"
  }

  lemma ReceiptKeyScopesRequests(caller: string, r1: string, r2: string)
    ensures ReceiptKey(caller, r1) == ReceiptKey(caller, r2) ==> r1 == r2
  {
    assert ReceiptKey(caller, r1)[|caller| + 1..] == r1;
    assert ReceiptKey(caller, r2)[|caller| + 1..] == r2;
  }

  /** Two callers share a key exactly when their key spaces overlap. */
  lemma SharedKeyExactlyWhenOverlapping(a: string, b: string)
    ensures (exists r1, r2 :: ReceiptKey(a, r1) == ReceiptKey(b, r2)) <==> KeySpacesOverlap(a, b)
  {
    if KeySpacesOverlap(a, b) {
      var long, short := if a + "\0" <= b + "\0" then b else a, if a + "\0" <= b + "\0" then a else b;
      var rest := (long + "\0")[|short| + 1..];
      assert long + "\0" == (short + "\0") + rest;
      assert ReceiptKey(long, "") == long + "\0" == ReceiptKey(short, rest);
      assert ReceiptKey(a, if long == a then "" else rest) == ReceiptKey(b, if long == a then rest else "");
    }
    forall r1, r2 | ReceiptKey(a, r1) == ReceiptKey(b, r2)
      ensures KeySpacesOverlap(a, b)
    {
      var k := ReceiptKey(a, r1);
      assert k[..|a| + 1] == a + "\0";
      assert k[..|b| + 1] == b + "\0";
      if |a| <= |b| {
        assert k[..|b| + 1][..|a| + 1] == k[..|a| + 1];
      } else {
        assert k[..|a| + 1][..|b| + 1] == k[..|b| + 1];
      }
    }
  }

  lemma NulEndsACaller(a: string, b: string)
    requires '\0' !in b && a + "\0" <= b + "\0"
    ensures a == b
  {
    assert (b + "\0")[|a|] == (a + "\0")[|a|] == '\0';
    assert forall i :: 0 <= i < |b| ==> (b + "\0")[i] != '\0';
    assert a == (a + "\0")[..|a|] == (b + "\0")[..|b|] == b;
  }

  /** Distinct caller IDs free of NUL never share a key. */
  lemma NulFreeCallersAreIsolated(a: string, b: string)
    requires '\0' !in a && '\0' !in b && a != b
    ensures !KeySpacesOverlap(a, b)
  {
    if a + "\0" <= b + "\0" {
      NulEndsACaller(a, b);
    }
    if b + "\0" <= a + "\0" {
      NulEndsACaller(b, a);
    }
  }

  /* ---------- What each operation does to the store ---------- */

  /** One process's view: the disk and the highest revision it synced itself. */
  datatype Store = Store(disk: Disk, durableRevision: nat)

  const NEW_STORE := Store(NEW_DISK, 0)

  function Stamp(events: seq<Event>, revision: nat): (r: seq<Event>)
    ensures |r| == |events|
    ensures forall i :: 0 <= i < |r| ==> r[i] == events[i].(revision := revision)
  {
    seq(|events|, i requires 0 <= i < |events| => events[i].(revision := revision))
  }

  /** The state a fresh, accepted request produces. */
  function NextState(state: State, req: CommitRequest, records: Records, events: seq<Event>): State {
    var revision := state.snapshot.revision + 1;
    var workspaceID := if state.snapshot.workspaceID == "" then req.workspaceID else state.snapshot.workspaceID;
    State(
      Snapshot(workspaceID, revision, Decimal.Digits(revision), records),
      state.receipts[ReceiptKey(req.caller, req.requestID) :=
        ReceiptRecord(Receipt(req.requestID, revision), Stamp(events, revision), req.fingerprint)])
  }

  function ConfirmStep(s: Store, existing: ReceiptRecord, faults: Faults): (r: (Store, Outcome))
    requires s.disk.Valid()
    ensures r.0.disk.Valid()
  {
    if existing.receipt.revision <= s.durableRevision then (s, Ok((existing.receipt, existing.events)))
    else if faults.sync then (s, Err(OutcomeUncertain(existing.receipt.revision)))
    else (Store(s.disk.SyncDirectory(), existing.receipt.revision), Ok((existing.receipt, existing.events)))
  }

  function CommitStep(s: Store, req: CommitRequest, faults: Faults): (r: (Store, Outcome))
    requires s.disk.Valid()
    ensures r.0.disk.Valid()
  {
    var state := s.disk.Current();
    var key := ReceiptKey(req.caller, req.requestID);
    if faults.read then (s, Err(IOFailure))
    else if key in state.receipts then
      if state.receipts[key].fingerprint != req.fingerprint then (s, Err(Conflict))
      else ConfirmStep(s, state.receipts[key], faults)
    else
      match req.mutate(state.snapshot.records)
      case Err(e) => (s, Err(e))
      case Ok((records, events)) =>
        var next := NextState(state, req, records, events);
        if faults.write then (s, Err(IOFailure))
        else
          var renamed := s.disk.Rename(next);
          if faults.sync then (Store(renamed, s.durableRevision), Err(OutcomeUncertain(next.snapshot.revision)))
          else (Store(renamed.SyncDirectory(), next.snapshot.revision),
              Ok((next.receipts[key].receipt, next.receipts[key].events)))
  }

  function ResolveStep(s: Store, caller: string, requestID: string, faults: Faults): (r: (Store, Outcome))
    requires s.disk.Valid()
    ensures r.0.disk.Valid()
  {
    var receipts := s.disk.Current().receipts;
    var key := ReceiptKey(caller, requestID);
    if faults.read then (s, Err(IOFailure))
    else if key !in receipts then (s, Err(NotFound))
    else ConfirmStep(s, receipts[key], faults)
  }

  /* ---------- The file store object ---------- */

  class FileStore {
    var disk: Disk
    var durableRevision: nat

    ghost function View(): Store
      reads this
    {
      Store(disk, durableRevision)
    }

    /** Opening takes whatever the disk holds and trusts none of it as synced. */
    constructor (image: Disk)
      requires image.Valid()
      ensures View() == Store(image, 0)
    {
      disk, durableRevision := image, 0;
    }

    method Load(workspaceID: string, faults: Faults) returns (r: Result<Snapshot, ErrorCode>)
      requires disk.Valid()
      ensures r == if faults.read then Err(IOFailure)
                   else if disk.Current().snapshot.workspaceID == "" then Ok(Snapshot(workspaceID, 0, "", NO_RECORDS))
                   else Ok(disk.Current().snapshot)
    {
      if faults.read {
        return Err(IOFailure);
      }
      var state := disk.Current();
      if state.snapshot.workspaceID == "" {
        return Ok(Snapshot(workspaceID, 0, "", NO_RECORDS));
      }
      return Ok(state.snapshot);
    }

    /** An error means nothing was renamed; `Ok(false)` means the rename is
        visible but not known to be durable. */
    method WriteLocked(state: State, faults: Faults) returns (r: Result<bool, ErrorCode>)
      requires disk.Valid()
      modifies this`disk
      ensures r.Err? <==> faults.write
      ensures r.Err? ==> r.error == IOFailure && disk == old(disk)
      ensures r == Ok(false) ==> disk == old(disk).Rename(state)
      ensures r == Ok(true) <==> !faults.write && !faults.sync
      ensures r == Ok(true) ==> disk == old(disk).Rename(state).SyncDirectory()
    {
      if faults.write {
        return Err(IOFailure);
      }
      disk := disk.Rename(state);
      if faults.sync {
        return Ok(false);
      }
      disk := disk.SyncDirectory();
      return Ok(true);
    }

    method ConfirmDurable(existing: ReceiptRecord, faults: Faults) returns (r: Outcome)
      requires disk.Valid()
      modifies this
      ensures (View(), r) == ConfirmStep(old(View()), existing, faults)
    {
      if existing.receipt.revision <= durableRevision {
        return Ok((existing.receipt, existing.events));
      }
      if faults.sync {
        return Err(OutcomeUncertain(existing.receipt.revision));
      }
      disk := disk.SyncDirectory();
      durableRevision := existing.receipt.revision;
      return Ok((existing.receipt, existing.events));
    }

    method Commit(req: CommitRequest, faults: Faults) returns (r: Outcome)
      requires disk.Valid()
      modifies this
      ensures (View(), r) == CommitStep(old(View()), req, faults)
    {
      if faults.read {
        return Err(IOFailure);
      }
      var state := disk.Current();
      var key := ReceiptKey(req.caller, req.requestID);
      if key in state.receipts {
        if state.receipts[key].fingerprint != req.fingerprint {
          return Err(Conflict);
        }
        r := ConfirmDurable(state.receipts[key], faults);
        return;
      }
      var mutated := req.mutate(state.snapshot.records);
      if mutated.Err? {
        return Err(mutated.error);
      }
      var (records, events) := mutated.value;
      var next := NextState(state, req, records, events);
      var durable := WriteLocked(next, faults);
      if durable.Err? {
        return Err(durable.error);
      }
      if !durable.value {
        return Err(OutcomeUncertain(next.snapshot.revision));
      }
      durableRevision := next.snapshot.revision;
      return Ok((next.receipts[key].receipt, next.receipts[key].events));
    }

    method ResolveRequest(caller: string, requestID: string, faults: Faults) returns (r: Outcome)
      requires disk.Valid()
      modifies this
      ensures (View(), r) == ResolveStep(old(View()), caller, requestID, faults)
    {
      if faults.read {
        return Err(IOFailure);
      }
      var receipts := disk.Current().receipts;
      var key := ReceiptKey(caller, requestID);
      if key !in receipts {
        return Err(NotFound);
      }
      r := ConfirmDurable(receipts[key], faults);
    }
  }
}
