/** The delivery facts of a message over every history of commands: written at
    most once, never on another message's behalf. */
module MessageFacts {
  import opened Results
  import opened Domain
  import opened StateStore
  import opened StoreTheorems
  import opened Commands

  /** What never changes about a message. */
  predicate SameMessage(m: Message, m': Message) {
    && m'.id == m.id && m'.sender == m.sender && m'.recipient == m.recipient && m'.kind == m.kind
    && m'.body == m.body && m'.createdAt == m.createdAt && m'.taskID == m.taskID && m'.replyTo == m.replyTo
    && m'.provenance == m.provenance && m'.queuedAt == m.queuedAt
  }

  /** A fact, once there, keeps its time. */
  predicate FactsKept(m: Message, m': Message) {
    && (m.publishedAt.Some? ==> m'.publishedAt == m.publishedAt)
    && (m.processedAt.Some? ==> m'.processedAt == m.processedAt)
    && (m.acknowledgedAt.Some? ==> m'.acknowledgedAt == m.acknowledgedAt && m'.acknowledgedBy == m.acknowledgedBy)
  }

  predicate AcknowledgedByRecipient(m: Message) {
    m.acknowledgedAt.Some? ==> m.acknowledgedBy == m.recipient
  }

  ghost predicate MessagesEvolve(r: Records, r': Records) {
    && |r.messages| <= |r'.messages|
    && forall i :: 0 <= i < |r.messages| ==>
         SameMessage(r.messages[i], r'.messages[i]) && FactsKept(r.messages[i], r'.messages[i])
  }

  /** IDs are unique, and only recipients have acknowledged. */
  ghost predicate MessagesSound(r: Records) {
    && (forall i, j :: 0 <= i < j < |r.messages| ==> r.messages[i].id != r.messages[j].id)
    && (forall i :: 0 <= i < |r.messages| ==> AcknowledgedByRecipient(r.messages[i]))
  }

  /** Replacing one message by itself with more facts. */
  lemma ReplacingKeeps(r: Records, r': Records, i: nat, m: Message)
    requires MessagesSound(r) && i < |r.messages| && r'.messages == r.messages[i := m]
    requires SameMessage(r.messages[i], m) && FactsKept(r.messages[i], m) && AcknowledgedByRecipient(m)
    ensures MessagesSound(r') && MessagesEvolve(r, r')
  {
  }

  lemma AddingKeeps(r: Records, r': Records, m: Message)
    requires MessagesSound(r) && r'.messages == r.messages + [m] && AcknowledgedByRecipient(m)
    requires forall i :: 0 <= i < |r.messages| ==> r.messages[i].id != m.id
    ensures MessagesSound(r') && MessagesEvolve(r, r')
  {
  }

  lemma CommandKeepsMessages(cmd: Command, caller: Caller, draw: Draw, r: Records, r': Records)
    requires MessagesSound(r) && Apply(cmd, caller, draw, r).Ok? && r' == Apply(cmd, caller, draw, r).value.0
    ensures MessagesSound(r') && MessagesEvolve(r, r')
  {
    if cmd.SendMessage? {
      assert r' == ApplySend(cmd, caller, draw, r).value.0;
      assert forall i :: 0 <= i < |r.messages| ==> MessageID(r.messages[i]) != cmd.messageID;
      AddingKeeps(r, r', r'.messages[|r.messages|]);
    } else if ChangesMessages(cmd) {
      var i := Find(r.messages, MessageID, cmd.messageID).value;
      assert AcknowledgedByRecipient(r.messages[i]);
      ReplacingKeeps(r, r', i, r'.messages[i]);
    } else {
      Footprint(cmd, caller, draw, r);
    }
  }

  /* ---------- Over the versions on one disk ---------- */

  function RecordsAt(s: Store, i: nat): Records
    requires i < |s.disk.versions|
  {
    s.disk.versions[i].snapshot.records
  }

  function Now(s: Store): Records
    requires s.disk.Valid()
  {
    RecordsAt(s, |s.disk.versions| - 1)
  }

  ghost predicate Chained(s: Store) {
    && (forall i :: 0 <= i < |s.disk.versions| ==> MessagesSound(RecordsAt(s, i)))
    && (forall i :: 0 < i < |s.disk.versions| ==> MessagesEvolve(RecordsAt(s, i - 1), RecordsAt(s, i)))
  }

  lemma {:induction false} EvolvesAcross(s: Store, i: nat, j: nat)
    requires Chained(s) && i <= j < |s.disk.versions|
    ensures MessagesEvolve(RecordsAt(s, i), RecordsAt(s, j))
    decreases j - i
  {
    if i < j {
      EvolvesAcross(s, i, j - 1);
    }
  }

  /** A commit of any command keeps the chain. */
  lemma CommitChains(s: Store, cmd: Command, actor: Caller, draw: Draw, workspaceID: string, requestID: string,
                     fingerprint: string, faults: Faults, s': Store)
    requires WellFormed(s) && Chained(s)
    requires s' == CommitStep(s, Submit(cmd, actor, draw, workspaceID, requestID, fingerprint), faults).0
    ensures WellFormed(s') && Chained(s')
  {
    assert s.disk.Valid();
    hide MessagesSound, MessagesEvolve, Apply, WellFormed;
    var req := Submit(cmd, actor, draw, workspaceID, requestID, fingerprint);
    CommitKeeps(s, req, faults);
    if Applies(s, req, faults) {
      var n := |s.disk.versions|;
      CommandKeepsMessages(cmd, actor, draw, RecordsAt(s, n - 1), RecordsAt(s', n));
      AppendChains(s, s');
    } else {
      PrefixChains(s, s');
    }
  }

  lemma AppendChains(s: Store, s': Store)
    requires s.disk.Valid() && Chained(s) && s.disk.versions <= s'.disk.versions
    requires |s'.disk.versions| == |s.disk.versions| + 1
    requires var n := |s.disk.versions|;
             MessagesSound(RecordsAt(s', n)) && MessagesEvolve(RecordsAt(s, n - 1), RecordsAt(s', n))
    ensures Chained(s')
  {
    var n := |s.disk.versions|;
    assert forall i :: 0 <= i < n ==> RecordsAt(s', i) == RecordsAt(s, i);
  }

  lemma PrefixChains(s: Store, s': Store)
    requires Chained(s) && s'.disk.versions <= s.disk.versions
    ensures Chained(s')
  {
    assert forall i :: 0 <= i < |s'.disk.versions| ==> RecordsAt(s', i) == RecordsAt(s, i);
  }

  /** What the calls of a history submit. */
  ghost predicate FromCommands(calls: seq<Call>) {
    forall k :: 0 <= k < |calls| && calls[k].Commit? ==> IsSubmission(calls[k].req)
  }

  ghost predicate IsSubmission(req: CommitRequest) {
    exists cmd, caller, draw :: MutatesAs(req, cmd, caller, draw)
  }

  lemma SubmissionKeeps(req: CommitRequest, r: Records)
    requires IsSubmission(req) && MessagesSound(r) && req.mutate(r).Ok?
    ensures MessagesSound(req.mutate(r).value.0) && MessagesEvolve(r, req.mutate(r).value.0)
  {
    var cmd, caller, draw :| MutatesAs(req, cmd, caller, draw);
    CommandKeepsMessages(cmd, caller, draw, r, req.mutate(r).value.0);
  }

  lemma {:induction false} EveryHistoryChains(calls: seq<Call>)
    requires FromCommands(calls)
    ensures Chained(After(NEW_STORE, calls))
  {
    if calls != [] {
      var before, call := After(NEW_STORE, calls[..|calls| - 1]), calls[|calls| - 1];
      EveryHistoryChains(calls[..|calls| - 1]);
      StepKeeps(before, call);
      match call {
        case Commit(req, faults) =>
          CommitKeeps(before, req, faults);
          if Applies(before, req, faults) {
            SubmissionKeeps(req, RecordsAt(before, |before.disk.versions| - 1));
            AppendChains(before, Step(before, call).0);
          } else {
            PrefixChains(before, Step(before, call).0);
          }
        case Resolve(caller, requestID, faults) =>
          ResolveKeeps(before, caller, requestID, faults);
          PrefixChains(before, Step(before, call).0);
        case Crash(kept, settled) =>
          CrashKeeps(before, kept, settled);
          PrefixChains(before, Step(before, call).0);
      }
    }
  }

  /** THE fact theorem: over any history of commands, failures and crashes, a
      message a version shows is in every later version, the same message, with
      each fact it already had unchanged; and only recipients acknowledge. */
  lemma FactsAreWrittenOnce(calls: seq<Call>, i: nat, j: nat, k: nat)
    requires FromCommands(calls) && i <= j < |After(NEW_STORE, calls).disk.versions|
    requires k < |RecordsAt(After(NEW_STORE, calls), i).messages|
    ensures var s := After(NEW_STORE, calls);
            && k < |RecordsAt(s, j).messages|
            && SameMessage(RecordsAt(s, i).messages[k], RecordsAt(s, j).messages[k])
            && FactsKept(RecordsAt(s, i).messages[k], RecordsAt(s, j).messages[k])
            && AcknowledgedByRecipient(RecordsAt(s, j).messages[k])
            && Find(RecordsAt(s, j).messages, MessageID, RecordsAt(s, i).messages[k].id) == Some(k)
  {
    var s := After(NEW_STORE, calls);
    EveryHistoryChains(calls);
    EvolvesAcross(s, i, j);
    FoundWhereItIs(RecordsAt(s, j), k);
  }

  lemma FoundWhereItIs(r: Records, k: nat)
    requires MessagesSound(r) && k < |r.messages|
    ensures Find(r.messages, MessageID, r.messages[k].id) == Some(k)
  {
    var found := Find(r.messages, MessageID, r.messages[k].id);
    assert MessageID(r.messages[k]) == r.messages[k].id;
    assert found.Some? && r.messages[found.value].id == r.messages[k].id;
  }
}
