/** What a whole deliver or acknowledgement pass leaves behind when it reports
    success, and what stops one. */
module DeliveryOutcomes {
  import opened Results
  import opened Domain
  import opened StateStore
  import opened StoreTheorems
  import opened Commands
  import opened Mailbox
  import opened Deliverer
  import opened MessageFacts

  /* ---------- Deliver passes ---------- */

  lemma {:induction false} SettledAreSkipped(
    s: Store, m: Mail, messages: seq<Message>, envs: nat -> Env, j: nat, k: nat)
    requires s.disk.Valid() && j <= k <= |messages|
    requires forall i :: j <= i < k ==> !NeedsPublishing(messages[i])
    ensures DeliverFrom(s, m, messages, envs, j) == DeliverFrom(s, m, messages, envs, k)
    decreases k - j
  {
    hide PublishStep, CommitStep;
    if j < k {
      SettledAreSkipped(s, m, messages, envs, j + 1, k);
    }
  }

  /** A published message is never filed again, so a file lost later stays lost. */
  lemma PublishedIsNeverRefiled(s: Store, m: Mail, messages: seq<Message>, envs: nat -> Env)
    requires s.disk.Valid() && forall i :: 0 <= i < |messages| ==> !NeedsPublishing(messages[i])
    ensures DeliverFrom(s, m, messages, envs, 0) == (s, m, None)
  {
    SettledAreSkipped(s, m, messages, envs, 0, |messages|);
  }

  /** Nothing of the message's own keeps it from being filed: its IDs can be path
      segments, its envelope is valid, and no file that can be read stands in its
      place, but the same one naming neither a task nor a message it answers. */
  predicate Deliverable(m: Mail, message: Message) {
    var e, path := EnvelopeOf(message), Path(message.recipient, message.id);
    && ValidID(message.id) && ValidID(message.recipient) && ValidEnvelope(e)
    && (path in m.inbox && !m.inbox[path].Unread? ==> m.inbox[path].Document? && SameEnvelope(m.inbox[path].value, e))
  }

  lemma FiledExactly(m: Mail, message: Message, io: IOFaults)
    ensures var (m', err) := PublishStep(m, message.id, EnvelopeOf(message), io);
            && (err.None? ==> Deliverable(m, message))
            && (err.Some? ==> m' == m)
            && (Deliverable(m, message) && !io.read && !io.write ==> err.None?)
  {
  }

  /** Message `k` is the first still to publish. */
  predicate FirstWaiting(messages: seq<Message>, k: nat) {
    k < |messages| && NeedsPublishing(messages[k]) && forall i :: 0 <= i < k ==> !NeedsPublishing(messages[i])
  }

  /** Its file is already there: what a crash between filing and recording leaves. */
  predicate Interrupted(m: Mail, messages: seq<Message>, k: nat) {
    && FirstWaiting(messages, k)
    && ValidID(messages[k].id) && ValidID(messages[k].recipient) && ValidEnvelope(EnvelopeOf(messages[k]))
    && Path(messages[k].recipient, messages[k].id) in m.inbox
    && m.inbox[Path(messages[k].recipient, messages[k].id)] == Written(EnvelopeOf(messages[k]))
  }

  /** A file that would be read back as another's: within the read bound, and the
      message names a task or a message it answers. */
  predicate ReadsAsConflict(message: Message) {
    !Oversize(EnvelopeOf(message)) && (message.taskID.Some? || message.replyTo.Some?)
  }

  lemma InterruptedIsDeliverableExactly(m: Mail, messages: seq<Message>, k: nat)
    requires Interrupted(m, messages, k)
    ensures Deliverable(m, messages[k]) <==> !ReadsAsConflict(messages[k])
  {
    hide EncodedSize;
  }

  /** The next pass goes on to record such a message exactly when its file cannot
      be read back or it names neither a task nor a message it answers; otherwise
      it ends there in a conflict. */
  lemma InterruptedDeliveryResumesExactly(s: Store, m: Mail, messages: seq<Message>, envs: nat -> Env, k: nat)
    requires s.disk.Valid() && Interrupted(m, messages, k) && !envs(k).io.read
    ensures var (s', out) := CommitStep(s, RecordPublishing(messages[k].id, envs(k)), envs(k).faults);
            DeliverFrom(s, m, messages, envs, 0) ==
            if ReadsAsConflict(messages[k]) then (s, m, Some(Conflict))
            else if Oversize(EnvelopeOf(messages[k])) && envs(k).io.write then (s, m, Some(IOFailure))
            else if out.Err? then (s', m, Some(out.error))
            else DeliverFrom(s', m, messages, envs, k + 1)
  {
    hide CommitStep, EncodedSize;
    SettledAreSkipped(s, m, messages, envs, 0, k);
    var path := Path(messages[k].recipient, messages[k].id);
    assert m.inbox[path := m.inbox[path]] == m.inbox;
  }

  /** Such an oversize message: it names a task, and the pass goes on. */
  lemma OversizeResumes(s: Store, m: Mail, messages: seq<Message>, envs: nat -> Env, k: nat)
    requires s.disk.Valid() && Interrupted(m, messages, k) && envs(k).io == NO_FAULTS
    requires |messages[k].body| > MAX_ENVELOPE_BYTES && messages[k].taskID.Some?
    requires CommitStep(s, RecordPublishing(messages[k].id, envs(k)), envs(k).faults).1.Ok?
    ensures var s' := CommitStep(s, RecordPublishing(messages[k].id, envs(k)), envs(k).faults).0;
            DeliverFrom(s, m, messages, envs, 0) == DeliverFrom(s', m, messages, envs, k + 1)
  {
    hide CommitStep, DeliverFrom, EncodedSize;
    LongBodyIsOversize(EnvelopeOf(messages[k]));
    InterruptedDeliveryResumesExactly(s, m, messages, envs, k);
  }

  /** One pass after another, each over a fresh snapshot. */
  function PassAfterPass(s: Store, m: Mail, runs: seq<nat -> Env>): (r: (Store, Mail))
    requires s.disk.Valid()
    ensures r.0.disk.Valid()
  {
    if runs == [] then (s, m)
    else
      var (s1, m1) := PassAfterPass(s, m, runs[..|runs| - 1]);
      var (s2, m2, _) := DeliverFrom(s1, m1, Loaded(s1).messages, runs[|runs| - 1], 0);
      (s2, m2)
  }

  lemma UndeliverableEndsPass(s: Store, m: Mail, messages: seq<Message>, envs: nat -> Env, k: nat)
    requires s.disk.Valid() && FirstWaiting(messages, k) && !Deliverable(m, messages[k])
    ensures var (s', m', err) := DeliverFrom(s, m, messages, envs, 0); s' == s && m' == m && err.Some?
  {
    hide CommitStep;
    SettledAreSkipped(s, m, messages, envs, 0, k);
    FiledExactly(m, messages[k], envs(k).io);
    var one := DeliverOne(s, m, messages[k], envs(k));
    assert one.0 == s && one.1 == m && one.2.Some?;
    assert DeliverFrom(s, m, messages, envs, k) == one;
  }

  /** A message that cannot be filed, once it is the first waiting, stops delivery
      for good: however many passes follow, whatever their faults, none succeeds
      and none changes anything, so no message after it is ever delivered. */
  lemma {:induction false} UndeliverableStaysStuck(s: Store, m: Mail, runs: seq<nat -> Env>, k: nat)
    requires s.disk.Valid() && FirstWaiting(Loaded(s).messages, k) && !Deliverable(m, Loaded(s).messages[k])
    ensures PassAfterPass(s, m, runs) == (s, m)
    ensures forall envs: nat -> Env :: DeliverFrom(s, m, Loaded(s).messages, envs, 0).2.Some?
  {
    hide Deliverable, DeliverFrom, FirstWaiting;
    if runs != [] {
      UndeliverableStaysStuck(s, m, runs[..|runs| - 1], k);
      UndeliverableEndsPass(s, m, Loaded(s).messages, runs[|runs| - 1], k);
    }
    forall envs: nat -> Env
      ensures DeliverFrom(s, m, Loaded(s).messages, envs, 0).2.Some?
    {
      UndeliverableEndsPass(s, m, Loaded(s).messages, envs, k);
    }
  }

  /** So does an interrupted one whose file reads as a conflict. */
  lemma InterruptedDeliveryStaysStuck(s: Store, m: Mail, runs: seq<nat -> Env>, k: nat)
    requires s.disk.Valid() && Interrupted(m, Loaded(s).messages, k) && ReadsAsConflict(Loaded(s).messages[k])
    ensures PassAfterPass(s, m, runs) == (s, m)
    ensures forall envs: nat -> Env :: DeliverFrom(s, m, Loaded(s).messages, envs, 0).2.Some?
  {
    hide ReadsAsConflict, Deliverable, DeliverFrom;
    InterruptedIsDeliverableExactly(m, Loaded(s).messages, k);
    UndeliverableStaysStuck(s, m, runs, k);
  }

  /** Such a message is admitted: `SendMessage` does not look at path separators. */
  lemma SlashIDIsAdmitted(cmd: Command, caller: Caller, draw: Draw, r: Records, m: Mail)
    requires cmd.SendMessage? && cmd.messageID == "a/b" && cmd.kind == Inform && cmd.sender != "" && cmd.recipient != ""
    requires cmd.aboutTask.None? && cmd.replyTo.None? && draw.eventID.Some? && r.messages == []
    requires Find(r.agents, AgentID, cmd.sender).Some? && Find(r.agents, AgentID, cmd.recipient).Some?
    ensures Refusal(cmd, caller).None? && Apply(cmd, caller, draw, r).Ok?
    ensures var messages := Apply(cmd, caller, draw, r).value.0.messages;
            FirstWaiting(messages, 0) && !Deliverable(m, messages[0])
  {
    assert Apply(cmd, caller, draw, r) == ApplySend(cmd, caller, draw, r);
    assert "a/b"[1] == '/';
  }

  /* ---------- What a successful pass has settled ---------- */

  /** The file is this message's envelope, or what a reader makes of it. */
  predicate Filed(m: Mail, message: Message) {
    var path, e := Path(message.recipient, message.id), EnvelopeOf(message);
    path in m.inbox && (m.inbox[path] == Written(e) || m.inbox[path] == Document(e))
  }

  /** The file is in place and the ledger holds its publication. */
  predicate Settled(s: Store, m: Mail, message: Message)
    requires s.disk.Valid()
  {
    var key := ReceiptKey(HOST.agentID, RequestIDForFact("publish", message.id));
    && Filed(m, message)
    && key in s.disk.Current().receipts && s.disk.Current().receipts[key].receipt.revision <= s.disk.durable
  }

  lemma PublishKeepsFiled(m: Mail, message: Message, other: Message, io: IOFaults)
    requires Filed(m, message) && other.id != message.id
    ensures Filed(PublishStep(m, other.id, EnvelopeOf(other), io).0, message)
  {
    hide EncodedSize;
  }

  lemma PublishFiles(m: Mail, message: Message, io: IOFaults)
    requires PublishStep(m, message.id, EnvelopeOf(message), io).1.None?
    ensures Filed(PublishStep(m, message.id, EnvelopeOf(message), io).0, message)
  {
    hide EncodedSize;
  }

  lemma CommitKeepsSettled(
    s: Store, m: Mail, message: Message, req: CommitRequest, faults: Faults, s': Store, out: Outcome)
    requires WellFormed(s) && Settled(s, m, message)
    requires CommitFacts(s, req, faults, s', out)
    ensures Settled(s', m, message)
  {
    hide Filed;
    var key := ReceiptKey(HOST.agentID, RequestIDForFact("publish", message.id));
    LedgerOnlyGrows(s', |s.disk.versions| - 1, |s'.disk.versions| - 1, key);
  }

  /** The pass's step for one message. */
  lemma OneDelivery(s: Store, m: Mail, message: Message, env: Env)
    requires WellFormed(s)
    ensures var (s', m', err) := DeliverOne(s, m, message, env);
            && WellFormed(s')
            && (err.None? ==> (NeedsPublishing(message) ==> Settled(s', m', message))
                              && forall other: Message :: other.id != message.id && Settled(s, m, other) ==>
                                 Settled(s', m', other))
  {
    if NeedsPublishing(message) && DeliverOne(s, m, message, env).2.None? {
      OneFiling(s, m, message, env);
    } else {
      CommitKeeps(s, RecordPublishing(message.id, env), env.faults);
      hide Settled, CommitStep, WellFormed;
    }
  }

  /** Filing and recording one message, when both succeed. */
  lemma OneFiling(s: Store, m: Mail, message: Message, env: Env)
    requires WellFormed(s) && PublishStep(m, message.id, EnvelopeOf(message), env.io).1.None?
    requires CommitStep(s, RecordPublishing(message.id, env), env.faults).1.Ok?
    ensures var m' := PublishStep(m, message.id, EnvelopeOf(message), env.io).0;
            var s' := CommitStep(s, RecordPublishing(message.id, env), env.faults).0;
            && WellFormed(s') && Settled(s', m', message)
            && forall other: Message :: other.id != message.id && Settled(s, m, other) ==> Settled(s', m', other)
  {
    var req := RecordPublishing(message.id, env);
    CommitKeeps(s, req, env.faults);
    PublishFiles(m, message, env.io);
    hide PublishStep, CommitStep, Appended, Filed, Applies, WellFormed;
    var m' := PublishStep(m, message.id, EnvelopeOf(message), env.io).0;
    var (s', out) := CommitStep(s, req, env.faults);
    forall other: Message | other.id != message.id && Settled(s, m, other)
      ensures Settled(s', m', other)
    {
      PublishKeepsFiled(m, other, message, env.io);
      CommitKeepsSettled(s, m', other, req, env.faults, s', out);
    }
  }

  predicate DistinctIDs(messages: seq<Message>) {
    forall i, j :: 0 <= i < j < |messages| ==> messages[i].id != messages[j].id
  }

  predicate NotAhead(messages: seq<Message>, k: nat, id: string) {
    forall i :: k <= i < |messages| ==> messages[i].id != id
  }

  /** Whatever was settled stays, and from `k` on everything waiting is. */
  ghost predicate AllDelivered(s: Store, m: Mail, s': Store, m': Mail, messages: seq<Message>, k: nat)
    requires s.disk.Valid() && s'.disk.Valid()
  {
    && (forall other :: Settled(s, m, other) && NotAhead(messages, k, other.id) ==> Settled(s', m', other))
    && (forall i :: k <= i < |messages| && NeedsPublishing(messages[i]) ==> Settled(s', m', messages[i]))
  }

  lemma NothingAhead(s: Store, m: Mail, messages: seq<Message>)
    requires s.disk.Valid()
    ensures AllDelivered(s, m, s, m, messages, |messages|)
  {
    hide Settled;
  }

  lemma DeliveredOneMore(s: Store, m: Mail, s1: Store, m1: Mail, s': Store, m': Mail, messages: seq<Message>, k: nat)
    requires s.disk.Valid() && s1.disk.Valid() && s'.disk.Valid() && k < |messages| && DistinctIDs(messages)
    requires NeedsPublishing(messages[k]) ==> Settled(s1, m1, messages[k])
    requires forall other: Message :: other.id != messages[k].id && Settled(s, m, other) ==> Settled(s1, m1, other)
    requires AllDelivered(s1, m1, s', m', messages, k + 1)
    ensures AllDelivered(s, m, s', m', messages, k)
  {
    hide Settled;
    assert NotAhead(messages, k + 1, messages[k].id);
  }

  lemma {:induction false} DeliveredFromHere(s: Store, m: Mail, messages: seq<Message>, envs: nat -> Env, k: nat)
    requires WellFormed(s) && k <= |messages| && DistinctIDs(messages)
    ensures var (s', m', err) := DeliverFrom(s, m, messages, envs, k);
            WellFormed(s') && (err.None? ==> AllDelivered(s, m, s', m', messages, k))
    decreases |messages| - k
  {
    assert s.disk.Valid();
    hide WellFormed, DeliverOne, Settled, AllDelivered;
    if k == |messages| {
      NothingAhead(s, m, messages);
    } else {
      OneDelivery(s, m, messages[k], envs(k));
      var one := DeliverOne(s, m, messages[k], envs(k));
      if one.2.None? {
        DeliveredFromHere(one.0, one.1, messages, envs, k + 1);
        var all := DeliverFrom(one.0, one.1, messages, envs, k + 1);
        if all.2.None? {
          DeliveredOneMore(s, m, one.0, one.1, all.0, all.1, messages, k);
        }
      }
    }
  }

  /** A deliver pass that reports success has settled every message that needed
      publishing: file in place, publication durable. */
  lemma SuccessfulPassSettlesAll(s: Store, m: Mail, envs: nat -> Env, i: nat)
    requires WellFormed(s) && DistinctIDs(Loaded(s).messages)
    requires DeliverFrom(s, m, Loaded(s).messages, envs, 0).2.None?
    requires i < |Loaded(s).messages| && NeedsPublishing(Loaded(s).messages[i])
    ensures var (s', m', _) := DeliverFrom(s, m, Loaded(s).messages, envs, 0);
            WellFormed(s') && Settled(s', m', Loaded(s).messages[i])
  {
    hide Settled, DeliverFrom;
    DeliveredFromHere(s, m, Loaded(s).messages, envs, 0);
  }

  /* ---------- Acknowledgement passes ---------- */

  /** The engine's own check turns this acknowledgement down. */
  predicate Refused(r: Records, agent: string, messageID: string) {
    var i := Find(r.messages, MessageID, messageID);
    i.None? || r.messages[i.value].recipient != agent
  }

  lemma AcknowledgingMutates(agent: string, ack: Acknowledgement, env: Env, r: Records)
    ensures Acknowledging(agent, ack, env).mutate(r) ==
            ApplyAcknowledge(ack.messageID, Caller(agent, false), env.draw, r)
  {
  }

  lemma AcknowledgeKeepsAddresses(ack: Acknowledgement, caller: Caller, draw: Draw, r: Records, messageID: string)
    requires ApplyAcknowledge(ack.messageID, caller, draw, r).Ok?
    ensures Refused(ApplyAcknowledge(ack.messageID, caller, draw, r).value.0, caller.agentID, messageID)
            <==> Refused(r, caller.agentID, messageID)
  {
    var messages := ApplyAcknowledge(ack.messageID, caller, draw, r).value.0.messages;
    assert |messages| == |r.messages|;
    assert forall k :: 0 <= k < |messages| ==>
      messages[k].id == r.messages[k].id && messages[k].recipient == r.messages[k].recipient;
    SameIDsFindSame(r.messages, messages, messageID);
  }

  lemma SameIDsFindSame(s: seq<Message>, s': seq<Message>, wanted: string)
    requires |s| == |s'| && forall k :: 0 <= k < |s| ==> s'[k].id == s[k].id
    ensures Find(s', MessageID, wanted) == Find(s, MessageID, wanted)
  {
    FindIsStable(s, s', MessageID, wanted);
    FindIsStable(s', s, MessageID, wanted);
  }

  /** Whom each message is addressed to is the same in both. */
  ghost predicate SameAddresses(r: Records, r': Records, agent: string) {
    forall id :: Refused(r', agent, id) <==> Refused(r, agent, id)
  }

  /** One acknowledgement's commit: why it may be refused, and what it leaves. */
  lemma OneAcknowledgement(s: Store, agent: string, ack: Acknowledgement, env: Env, s': Store, out: Outcome)
    requires WellFormed(s) && (s', out) == CommitStep(s, Acknowledging(agent, ack, env), env.faults)
    ensures WellFormed(s') && SameAddresses(Now(s), Now(s'), agent)
    ensures out == Err(Denied) || out == Err(NotFound) ==> Refused(Now(s), agent, ack.messageID)
  {
    var req := Acknowledging(agent, ack, env);
    RefusalHasReason(s, agent, ack, env);
    CommitKeeps(s, req, env.faults);
    AcknowledgingMutates(agent, ack, env, Now(s));
    hide CommitStep, WellFormed, Refused, ApplyAcknowledge;
    if Applies(s, req, env.faults) {
      AppliedKeepsAddresses(agent, ack, env, Now(s));
      assert Now(s') == req.mutate(Now(s)).value.0;
    } else {
      assert Now(s') == Now(s);
    }
  }

  lemma RefusalHasReason(s: Store, agent: string, ack: Acknowledgement, env: Env)
    requires s.disk.Valid()
    ensures var out := CommitStep(s, Acknowledging(agent, ack, env), env.faults).1;
            out == Err(Denied) || out == Err(NotFound) ==> Refused(Now(s), agent, ack.messageID)
  {
    AcknowledgingMutates(agent, ack, env, Now(s));
  }

  lemma AppliedKeepsAddresses(agent: string, ack: Acknowledgement, env: Env, r: Records)
    requires ApplyAcknowledge(ack.messageID, Caller(agent, false), env.draw, r).Ok?
    ensures SameAddresses(r, ApplyAcknowledge(ack.messageID, Caller(agent, false), env.draw, r).value.0, agent)
  {
    hide Refused, ApplyAcknowledge;
    forall id
      ensures Refused(ApplyAcknowledge(ack.messageID, Caller(agent, false), env.draw, r).value.0, agent, id)
              <==> Refused(r, agent, id)
    {
      AcknowledgeKeepsAddresses(ack, Caller(agent, false), env.draw, r, id);
    }
  }

  /** The ledger key of an acknowledgement record. */
  function AckKey(agent: string, controlID: string): string {
    ReceiptKey(agent, RequestIDForFact("ack", controlID))
  }

  lemma AckKeyNamesRecord(agent: string, c1: string, c2: string)
    requires AckKey(agent, c1) == AckKey(agent, c2)
    ensures c1 == c2
  {
    ReceiptKeyScopesRequests(agent, RequestIDForFact("ack", c1), RequestIDForFact("ack", c2));
    FactRequestsAreDistinct("ack", c1, "ack", c2);
  }

  /** The engine takes this record now, or took one of its control ID before. */
  predicate Taken(s: Store, agent: string, ack: Acknowledgement)
    requires s.disk.Valid()
  {
    AckKey(agent, ack.controlID) in s.disk.Current().receipts || !Refused(Now(s), agent, ack.messageID)
  }

  lemma AcknowledgedExactly(s: Store, agent: string, ack: Acknowledgement, env: Env)
    requires s.disk.Valid()
    ensures var (s', out) := CommitStep(s, Acknowledging(agent, ack, env), env.faults);
            && (out.Ok? ==> Taken(s, agent, ack) && AckKey(agent, ack.controlID) in s'.disk.Current().receipts)
            && (out == Err(Denied) || out == Err(NotFound) ==> !Taken(s, agent, ack) && s' == s)
            && (forall key :: key != AckKey(agent, ack.controlID) ==>
                  (key in s'.disk.Current().receipts <==> key in s.disk.Current().receipts))
  {
    AcknowledgingMutates(agent, ack, env, Now(s));
  }

  /** A record the engine takes leaves from under its control ID, whatever file it
      was read from; one it refuses changes nothing. */
  lemma OneAckSettles(s: Store, m: Mail, agent: string, ack: Acknowledgement, env: Env)
    requires WellFormed(s) && AckOne(s, m, agent, ack, env).2.None?
    ensures var (s', m', _) := AckOne(s, m, agent, ack, env);
            && WellFormed(s') && SameAddresses(Now(s), Now(s'), agent)
            && (Taken(s, agent, ack) ==> m'.acks == m.acks - {Path(agent, ack.controlID)})
            && (!Taken(s, agent, ack) ==> m' == m && s' == s)
            && (forall key :: key != AckKey(agent, ack.controlID) ==>
                  (key in s'.disk.Current().receipts <==> key in s.disk.Current().receipts))
  {
    var (s', out) := CommitStep(s, Acknowledging(agent, ack, env), env.faults);
    OneAcknowledgement(s, agent, ack, env, s', out);
    AcknowledgedExactly(s, agent, ack, env);
    hide WellFormed, SameAddresses, Taken, CommitStep, AckKey;
  }

  /** From the `k`-th on, some record of this control ID is taken. */
  ghost predicate TakenFrom(s: Store, agent: string, acks: seq<Acknowledgement>, k: nat, name: string)
    requires s.disk.Valid()
  {
    exists i :: k <= i < |acks| && acks[i].controlID == name && Taken(s, agent, acks[i])
  }

  /** What one record's step leaves to the ones after it. */
  lemma TakenLater(s: Store, s1: Store, agent: string, acks: seq<Acknowledgement>, k: nat, name: string)
    requires s.disk.Valid() && s1.disk.Valid() && k < |acks| && SameAddresses(Now(s), Now(s1), agent)
    requires forall key :: key != AckKey(agent, acks[k].controlID) ==>
               (key in s1.disk.Current().receipts <==> key in s.disk.Current().receipts)
    requires !Taken(s, agent, acks[k]) ==> s1 == s
    requires !(name == acks[k].controlID && Taken(s, agent, acks[k]))
    ensures TakenFrom(s, agent, acks, k, name) <==> TakenFrom(s1, agent, acks, k + 1, name)
  {
    if name != acks[k].controlID {
      forall i | k + 1 <= i < |acks| && acks[i].controlID == name
        ensures Taken(s1, agent, acks[i]) <==> Taken(s, agent, acks[i])
      {
        if AckKey(agent, name) == AckKey(agent, acks[k].controlID) {
          AckKeyNamesRecord(agent, name, acks[k].controlID);
        }
      }
    }
    hide Taken, Refused, AckKey;
  }

  /** Which of the agent's files are still there: those under no taken control ID. */
  ghost predicate LeftExactly(s: Store, m: Mail, m': Mail, agent: string, acks: seq<Acknowledgement>, k: nat)
    requires s.disk.Valid()
  {
    forall name :: Path(agent, name) in m'.acks <==> Path(agent, name) in m.acks && !TakenFrom(s, agent, acks, k, name)
  }

  lemma LeftOneMore(s: Store, s1: Store, m: Mail, m1: Mail, m': Mail, agent: string, acks: seq<Acknowledgement>, k: nat)
    requires s.disk.Valid() && s1.disk.Valid() && k < |acks| && SameAddresses(Now(s), Now(s1), agent)
    requires forall key :: key != AckKey(agent, acks[k].controlID) ==>
               (key in s1.disk.Current().receipts <==> key in s.disk.Current().receipts)
    requires Taken(s, agent, acks[k]) ==> m1.acks == m.acks - {Path(agent, acks[k].controlID)}
    requires !Taken(s, agent, acks[k]) ==> m1 == m && s1 == s
    requires LeftExactly(s1, m1, m', agent, acks, k + 1)
    ensures LeftExactly(s, m, m', agent, acks, k)
  {
    forall name
      ensures Path(agent, name) in m'.acks <==> Path(agent, name) in m.acks && !TakenFrom(s, agent, acks, k, name)
    {
      if !(name == acks[k].controlID && Taken(s, agent, acks[k])) {
        TakenLater(s, s1, agent, acks, k, name);
      }
    }
  }

  lemma {:induction false} AcknowledgedFromHere(
    s: Store, m: Mail, agent: string, acks: seq<Acknowledgement>, envs: nat -> Env, k: nat)
    requires WellFormed(s) && k <= |acks| && AckFrom(s, m, agent, acks, envs, k).2.None?
    ensures LeftExactly(s, m, AckFrom(s, m, agent, acks, envs, k).1, agent, acks, k)
    decreases |acks| - k
  {
    assert s.disk.Valid();
    hide WellFormed, Taken, AckOne, SameAddresses, AckKey;
    if k < |acks| {
      OneAckSettles(s, m, agent, acks[k], envs(k));
      var (s1, m1, _) := AckOne(s, m, agent, acks[k], envs(k));
      AcknowledgedFromHere(s1, m1, agent, acks, envs, k + 1);
      hide LeftExactly, TakenFrom;
      LeftOneMore(s, s1, m, m1, AckFrom(s1, m1, agent, acks, envs, k + 1).1, agent, acks, k);
    }
  }

  /** After an acknowledgement pass that reports success, a file is still pending
      if and only if it was there and no record of the scan whose control ID is the
      file's name was taken, now or before. */
  lemma AckFileStaysExactly(s: Store, m: Mail, agent: string, names: seq<string>, envs: nat -> Env, name: string)
    requires WellFormed(s) && AckFrom(s, m, agent, ScannedAcks(m, agent, names), envs, 0).2.None?
    ensures var acks := ScannedAcks(m, agent, names);
            Path(agent, name) in AckFrom(s, m, agent, acks, envs, 0).1.acks
            <==> && Path(agent, name) in m.acks
                 && forall i :: 0 <= i < |acks| && acks[i].controlID == name ==> !Taken(s, agent, acks[i])
  {
    hide Taken, AckFrom;
    AcknowledgedFromHere(s, m, agent, ScannedAcks(m, agent, names), envs, 0);
  }

  /** So a record in a file not named by its control ID is pending for ever: taken
      or not, its file stays. */
  lemma MisnamedAckStays(s: Store, m: Mail, agent: string, name: string, ack: Acknowledgement, envs: nat -> Env)
    requires WellFormed(s) && ValidAck(ack, agent) && ack.controlID != name
    requires m.acks == map[Path(agent, name) := Document(ack)]
    requires AckFrom(s, m, agent, ScannedAcks(m, agent, [name]), envs, 0).2.None?
    ensures ScannedAcks(m, agent, [name]) == [ack]
    ensures Path(agent, name) in AckFrom(s, m, agent, ScannedAcks(m, agent, [name]), envs, 0).1.acks
  {
    assert [name][..0] == [];
    assert ScannedAcks(m, agent, [name]) == ScannedAcks(m, agent, []) + [ack];
    hide AckFrom, Taken;
    AckFileStaysExactly(s, m, agent, [name], envs, name);
  }
}
