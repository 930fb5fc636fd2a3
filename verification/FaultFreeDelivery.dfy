/** What alone can stop a deliver pass that meets no fault: the messages it finds. */
module FaultFreeDelivery {
  import opened Results
  import opened Domain
  import opened StateStore
  import opened StoreTheorems
  import opened Commands
  import opened Mailbox
  import opened Deliverer
  import opened MessageFacts
  import opened DeliveryOrder
  import opened DeliveryOutcomes

  predicate NoFaults(env: Env) {
    env.io == NO_FAULTS && env.faults == Faults(false, false, false) && env.draw.eventID.Some?
  }

  ghost predicate FaultFree(envs: nat -> Env) {
    forall k: nat :: NoFaults(envs(k))
  }

  /** Recording this message's publication is new to the ledger and finds it. */
  predicate Recordable(s: Store, id: string)
    requires s.disk.Valid()
  {
    FactKey("publish", id) !in s.disk.Current().receipts && Find(Now(s).messages, MessageID, id).Some?
  }

  /** The mutation succeeds and keeps what every ID finds. */
  lemma FactIsAccepted(id: string, draw: Draw, r: Records, other: string)
    requires Find(r.messages, MessageID, id).Some? && draw.eventID.Some?
    ensures var m := ApplyDeliveryFact(id, false, draw, r);
            m.Ok? && (Find(r.messages, MessageID, other).Some? ==> Find(m.value.0.messages, MessageID, other).Some?)
  {
    FindIsStable(r.messages, ApplyDeliveryFact(id, false, draw, r).value.0.messages, MessageID, other);
  }

  lemma RecordingSucceeds(s: Store, id: string, env: Env)
    requires WellFormed(s) && Recordable(s, id) && NoFaults(env)
    ensures CommitStep(s, RecordPublishing(id, env), env.faults).1.Ok?
    ensures WellFormed(CommitStep(s, RecordPublishing(id, env), env.faults).0)
    ensures var s' := CommitStep(s, RecordPublishing(id, env), env.faults).0;
            && s'.disk.Current().receipts.Keys == s.disk.Current().receipts.Keys + {FactKey("publish", id)}
            && Now(s') == ApplyDeliveryFact(id, false, env.draw, Now(s)).value.0
  {
    CommitKeeps(s, RecordPublishing(id, env), env.faults);
    FactIsAccepted(id, env.draw, Now(s), id);
    hide WellFormed, ApplyDeliveryFact;
  }

  lemma RecordingLeavesOthers(s: Store, id: string, env: Env, other: string)
    requires WellFormed(s) && Recordable(s, id) && NoFaults(env) && Recordable(s, other) && other != id
    ensures Recordable(CommitStep(s, RecordPublishing(id, env), env.faults).0, other)
  {
    FactIsAccepted(id, env.draw, Now(s), other);
    OneFactPerKey("publish", id);
    assert FactKey("publish", other) != FactKey("publish", id);
    RecordingSucceeds(s, id, env);
    hide WellFormed, ApplyDeliveryFact, FactKey, CommitStep;
  }

  lemma FilingLeavesOthers(m: Mail, message: Message, io: IOFaults, other: Message)
    requires other.id != message.id
    ensures Deliverable(PublishStep(m, message.id, EnvelopeOf(message), io).0, other) <==> Deliverable(m, other)
  {
    hide Oversize;
  }

  /** The step for one waiting message, and what it leaves to the others. */
  lemma OneFaultFree(s: Store, m: Mail, message: Message, env: Env)
    requires WellFormed(s) && NoFaults(env) && NeedsPublishing(message) && Recordable(s, message.id)
    ensures var (s', m', err) := DeliverOne(s, m, message, env);
            && (err.None? <==> Deliverable(m, message)) && WellFormed(s')
            && forall other: Message :: other.id != message.id ==>
                 && (err.None? ==> (Deliverable(m', other) <==> Deliverable(m, other)))
                 && (err.None? && Recordable(s, other.id) ==> Recordable(s', other.id))
  {
    FiledExactly(m, message, env.io);
    RecordingSucceeds(s, message.id, env);
    hide PublishStep, CommitStep, WellFormed, Recordable, Deliverable;
    var (s', m', err) := DeliverOne(s, m, message, env);
    forall other: Message | other.id != message.id && err.None?
      ensures Deliverable(m', other) <==> Deliverable(m, other)
      ensures Recordable(s, other.id) ==> Recordable(s', other.id)
    {
      FilingLeavesOthers(m, message, env.io, other);
      if Recordable(s, other.id) {
        RecordingLeavesOthers(s, message.id, env, other.id);
      }
    }
  }

  ghost predicate AllRecordable(s: Store, messages: seq<Message>, k: nat)
    requires s.disk.Valid()
  {
    forall i :: k <= i < |messages| && NeedsPublishing(messages[i]) ==> Recordable(s, messages[i].id)
  }

  ghost predicate AllDeliverable(m: Mail, messages: seq<Message>, k: nat) {
    forall i :: k <= i < |messages| && NeedsPublishing(messages[i]) ==> Deliverable(m, messages[i])
  }

  lemma {:induction false} SucceedsFromHere(s: Store, m: Mail, messages: seq<Message>, envs: nat -> Env, k: nat)
    requires WellFormed(s) && k <= |messages| && DistinctIDs(messages) && FaultFree(envs)
             && AllRecordable(s, messages, k)
    ensures DeliverFrom(s, m, messages, envs, k).2.None? <==> AllDeliverable(m, messages, k)
    decreases |messages| - k
  {
    assert s.disk.Valid() && NoFaults(envs(k));
    hide WellFormed, Recordable, Deliverable, NeedsPublishing, NoFaults;
    if k < |messages| {
      var one := DeliverOne(s, m, messages[k], envs(k));
      if NeedsPublishing(messages[k]) {
        OneFaultFree(s, m, messages[k], envs(k));
      } else {
        assert one == (s, m, None);
      }
      hide DeliverOne;
      if one.2.None? {
        SucceedsFromHere(one.0, one.1, messages, envs, k + 1);
      }
    }
  }

  /** A message that waits has no publishing receipt: one would show it published. */
  lemma WaitingIsRecordable(w: World)
    requires Sound(w)
    ensures AllRecordable(w.store, Loaded(w.store).messages, 0) && DistinctIDs(Loaded(w.store).messages)
  {
    NowIsSound(w);
    var messages := Loaded(w.store).messages;
    assert Backed(w.store.disk.Current());
    hide WellFormed, Chained, AllInOrder;
    forall i | 0 <= i < |messages| && NeedsPublishing(messages[i])
      ensures Recordable(w.store, messages[i].id)
    {
      assert messages == Now(w.store).messages;
      FoundWhereItIs(Now(w.store), i);
    }
  }

  /** THE delivery-pass theorem: a pass that meets no fault succeeds if and only if
      every waiting message can be filed: its IDs are path segments, and no file
      that reads as another envelope stands in its place. */
  lemma FaultFreePassSucceedsExactly(w: World, envs: nat -> Env)
    requires Sound(w) && FaultFree(envs)
    ensures var messages := Loaded(w.store).messages;
            DeliverFrom(w.store, w.mail, messages, envs, 0).2.None? <==>
            forall i :: 0 <= i < |messages| && messages[i].queuedAt.Some? && messages[i].publishedAt.None? ==>
              Deliverable(w.mail, messages[i])
  {
    NowIsSound(w);
    WaitingIsRecordable(w);
    hide Sound, Deliverable, DeliverFrom;
    SucceedsFromHere(w.store, w.mail, Loaded(w.store).messages, envs, 0);
  }
}
