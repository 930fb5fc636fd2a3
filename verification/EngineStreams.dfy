/** Every engine commit carries at most one event, so an engine process never
    publishes a batch that a disconnect could cut. */
module EngineStreams {
  import opened Results
  import opened Domain
  import opened StateStore
  import opened StoreTheorems
  import opened Commands
  import opened TaskLifecycle
  import opened Publication
  import EventBus

  /* ---------- One command ---------- */

  /** Whatever the command, and whatever it changed, it emits at most one event. */
  lemma CommandEmitsOne(cmd: Command, caller: Caller, draw: Draw, r: Records)
    requires Apply(cmd, caller, draw, r).Ok?
    ensures |Apply(cmd, caller, draw, r).value.1| <= 1
  {
    if ChangesRuns(cmd) {
      RunCommandEmitsOne(cmd, caller, draw, r);
    } else if ChangesReview(cmd) {
      ReviewCommandEmitsOne(cmd, caller, draw, r);
    }
  }

  lemma RunCommandEmitsOne(cmd: Command, caller: Caller, draw: Draw, r: Records)
    requires ChangesRuns(cmd) && Apply(cmd, caller, draw, r).Ok?
    ensures |Apply(cmd, caller, draw, r).value.1| <= 1
  {
  }

  lemma ReviewCommandEmitsOne(cmd: Command, caller: Caller, draw: Draw, r: Records)
    requires ChangesReview(cmd) && Apply(cmd, caller, draw, r).Ok?
    ensures |Apply(cmd, caller, draw, r).value.1| <= 1
  {
  }

  ghost predicate EmitsOne(req: CommitRequest) {
    forall r :: req.mutate(r).Ok? ==> |req.mutate(r).value.1| <= 1
  }

  lemma EngineEmitsOne(reviewers: set<string>, req: CommitRequest)
    requires FromEngine(req, reviewers)
    ensures EmitsOne(req)
  {
    hide Apply;
    var cmd, caller, draw :| Runs(req, reviewers, cmd, caller, draw);
    forall r | req.mutate(r).Ok?
      ensures |req.mutate(r).value.1| <= 1
    {
      CommandEmitsOne(cmd, caller, draw, r);
    }
  }

  /* ---------- The ledger ---------- */

  predicate Singles(receipts: map<string, ReceiptRecord>) {
    forall key :: key in receipts ==> |receipts[key].events| <= 1
  }

  ghost predicate LedgerSingle(s: Store) {
    forall i :: 0 <= i < |s.disk.versions| ==> Singles(s.disk.versions[i].receipts)
  }

  lemma CommitKeepsLedger(s: Store, req: CommitRequest, faults: Faults)
    requires WellFormed(s) && LedgerSingle(s) && Named(s) && EmitsOne(req) && req.workspaceID != ""
    ensures LedgerSingle(CommitStep(s, req, faults).0) && Named(CommitStep(s, req, faults).0)
  {
    CommitKeeps(s, req, faults);
    var s', added := CommitStep(s, req, faults).0, Appended(s, req, faults);
    assert s'.disk.versions == s.disk.versions + added;
    hide CommitStep, CommitFacts, WellFormed;
    assert added != [] ==> Singles(added[0].receipts) && added[0].snapshot.workspaceID != "" by {
      AddedIsSingle(s, req, faults);
    }
    forall i | 0 <= i < |s'.disk.versions|
      ensures Singles(s'.disk.versions[i].receipts) && (i > 0 ==> s'.disk.versions[i].snapshot.workspaceID != "")
    {
      assert s'.disk.versions[i] == if i < |s.disk.versions| then s.disk.versions[i] else added[0];
    }
  }

  lemma AddedIsSingle(s: Store, req: CommitRequest, faults: Faults)
    requires s.disk.Valid() && LedgerSingle(s) && EmitsOne(req) && req.workspaceID != ""
    ensures var added := Appended(s, req, faults);
            added != [] ==> Singles(added[0].receipts) && added[0].snapshot.workspaceID != ""
  {
  }

  /** The calls of a history that only the engine makes. */
  ghost predicate EngineCalls(calls: seq<Call>, reviewers: set<string>) {
    forall k :: 0 <= k < |calls| && calls[k].Commit? ==>
      FromEngine(calls[k].req, reviewers) && calls[k].req.workspaceID != ""
  }

  /** Every ledger any such history leaves holds at most one event an entry. */
  lemma {:induction false} EveryLedgerIsSingle(reviewers: set<string>, calls: seq<Call>)
    requires EngineCalls(calls, reviewers)
    ensures LedgerSingle(After(NEW_STORE, calls)) && Named(After(NEW_STORE, calls))
  {
    if calls != [] {
      var before, call := After(NEW_STORE, calls[..|calls| - 1]), calls[|calls| - 1];
      EveryLedgerIsSingle(reviewers, calls[..|calls| - 1]);
      match call {
        case Commit(req, faults) =>
          EngineEmitsOne(reviewers, req);
          CommitKeepsLedger(before, req, faults);
        case Resolve(caller, requestID, faults) => ResolveKeeps(before, caller, requestID, faults);
        case Crash(kept, settled) => CrashKeeps(before, kept, settled);
      }
    }
  }

  /* ---------- One process ---------- */

  predicate Increasing(log: seq<Event>) {
    forall i, j :: 0 <= i < j < |log| ==> log[i].revision < log[j].revision
  }

  ghost predicate SingleProcess(p: Process) {
    && LedgerSingle(p.store) && Increasing(p.bus.log)
    && (p.held.Some? ==> |p.held.value.events| == 1)
  }

  ghost predicate FromEngineMove(move: Move, reviewers: set<string>) {
    move.Begin? ==> FromEngine(move.req, reviewers)
  }

  /** The reply to a commit is its ledger entry. */
  lemma ReplyIsSingle(s: Store, req: CommitRequest, faults: Faults)
    requires WellFormed(s) && LedgerSingle(CommitStep(s, req, faults).0) && CommitStep(s, req, faults).1.Ok?
    ensures |CommitStep(s, req, faults).1.value.1| <= 1
  {
    CommitKeeps(s, req, faults);
    var s' := CommitStep(s, req, faults).0;
    hide CommitStep;
    assert Singles(s'.disk.versions[|s'.disk.versions| - 1].receipts);
  }

  lemma BeginKeepsSingle(p: Process, req: CommitRequest, loadFails: bool, faults: Faults)
    requires Sound(p) && SingleProcess(p) && p.held.None? && EmitsOne(req) && req.workspaceID != ""
    ensures SingleProcess(Next(p, Begin(req, loadFails, faults)))
  {
    SoundStore(p);
    assert Named(p.store);
    CommitKeepsLedger(p.store, req, faults);
    if CommitStep(p.store, req, faults).1.Ok? {
      ReplyIsSingle(p.store, req, faults);
    }
    hide CommitStep, Sound, WellFormed, Named, LedgerSingle;
  }

  lemma FinishKeepsSingle(p: Process)
    requires Sound(p) && SingleProcess(p) && p.held.Some?
    ensures SingleProcess(Next(p, Finish))
  {
    var h, log := p.held.value, Next(p, Finish).bus.log;
    hide LedgerSingle;
    assert forall i :: 0 <= i < |p.bus.log| ==> p.bus.log[i].revision <= p.bus.lastPublished;
    if log != p.bus.log {
      assert log == p.bus.log + h.events && p.bus.lastPublished < h.events[0].revision;
    }
  }

  lemma MoveKeepsSingle(p: Process, move: Move, reviewers: set<string>)
    requires Sound(p) && SingleProcess(p) && Permitted(p, move) && FromEngineMove(move, reviewers)
    ensures SingleProcess(Next(p, move))
  {
    SoundStore(p);
    match move {
      case Begin(req, loadFails, faults) =>
        if p.held.None? {
          EngineEmitsOne(reviewers, req);
          hide Sound;
          BeginKeepsSingle(p, req, loadFails, faults);
        }
      case Finish =>
        if p.held.Some? {
          FinishKeepsSingle(p);
        }
      case ResolveRequest(caller, requestID, faults) => ResolveKeeps(p.store, caller, requestID, faults);
      case _ =>
    }
  }

  lemma {:induction false} EveryProcessIsSingle(p: Process, moves: seq<Move>, reviewers: set<string>)
    requires Sound(p) && SingleProcess(p)
    requires forall k :: 0 <= k < |moves| ==> FromEngineMove(moves[k], reviewers)
    ensures SingleProcess(ProcessAfter(p, moves))
  {
    assert p.store.disk.Valid() by { SoundStore(p); }
    hide Sound, SingleProcess;
    if moves != [] {
      var before, move := ProcessAfter(p, moves[..|moves| - 1]), moves[|moves| - 1];
      EveryProcessIsSingle(p, moves[..|moves| - 1], reviewers);
      StaysSound(p, moves[..|moves| - 1]);
      if Permitted(before, move) {
        MoveKeepsSingle(before, move, reviewers);
      }
    }
  }

  /** THE resumption theorem: in any process of a workspace that only the engine
      writes, a client that drained a closed stream and resubscribes from the last
      revision it received is told it expired, or continues exactly. */
  lemma EngineResumeIsSeamless(
    reviewers: set<string>, calls: seq<Call>, moves: seq<Move>, id: nat, newID: nat, cursor: string)
    requires EngineCalls(calls, reviewers)
    requires forall k :: 0 <= k < |moves| ==> FromEngineMove(moves[k], reviewers)
    requires var b := ProcessAfter(Open(After(NEW_STORE, calls)), moves).bus;
             && id in b.subscribers && newID !in b.subscribers
             && !b.subscribers[id].live && b.subscribers[id].queue == []
             && EventBus.ParseCursor(cursor) ==
                Some(EventBus.ResumePoint(b.subscribers[id].after, b.subscribers[id].sent))
    ensures var b := ProcessAfter(Open(After(NEW_STORE, calls)), moves).bus;
            var (b', error) := EventBus.Subscribe(b, newID, cursor);
            error == Some(CursorExpired)
            || (error == None && b.subscribers[id].sent + b'.subscribers[newID].sent
                                 == EventBus.Above(b.log, b.subscribers[id].after))
  {
    var s := After(NEW_STORE, calls);
    EveryLedgerIsSingle(reviewers, calls);
    OpenIsSound(s);
    EveryProcessIsSingle(Open(s), moves, reviewers);
    StaysSound(Open(s), moves);
    var p := ProcessAfter(Open(s), moves);
    SoundStore(p);
    hide Sound, LedgerSingle, EngineCalls;
    EventBus.ResumeIsSeamless(p.bus, id, newID, cursor);
  }
}
