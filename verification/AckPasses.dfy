/** What alone can stop an acknowledgement pass that meets no fault, and what it
    leaves recorded when nothing does. */
module AckPasses {
  import opened Results
  import opened Domain
  import opened StateStore
  import opened StoreTheorems
  import opened Commands
  import opened Mailbox
  import opened Deliverer
  import opened DeliveryOutcomes
  import opened FaultFreeDelivery
  import opened MessageFacts

  predicate AcknowledgedIn(r: Records, messageID: string) {
    var i := Find(r.messages, MessageID, messageID);
    i.Some? && r.messages[i.value].acknowledgedAt.Some?
  }

  /** The record cannot be passed over and cannot be settled: its control ID was
      used for another request, or it would be taken but names no file. */
  predicate Blocks(s: Store, agent: string, ack: Acknowledgement, env: Env)
    requires s.disk.Valid()
  {
    var key, receipts := AckKey(agent, ack.controlID), s.disk.Current().receipts;
    || (key in receipts && receipts[key].fingerprint != env.fingerprint)
    || (!ValidID(ack.controlID) && (key in receipts || !Refused(Now(s), agent, ack.messageID)))
  }

  ghost predicate DistinctControls(acks: seq<Acknowledgement>) {
    forall i, j :: 0 <= i < j < |acks| ==> acks[i].controlID != acks[j].controlID
  }

  /** What the steps of other records leave alone. */
  ghost predicate Untouched(s: Store, s': Store, agent: string, controlID: string)
    requires s.disk.Valid() && s'.disk.Valid()
  {
    forall key :: key != AckKey(agent, controlID) ==>
      && (key in s'.disk.Current().receipts <==> key in s.disk.Current().receipts)
      && (key in s.disk.Current().receipts ==>
            s'.disk.Current().receipts[key].fingerprint == s.disk.Current().receipts[key].fingerprint)
  }

  ghost predicate FactsKept(r: Records, r': Records, agent: string) {
    forall id ::
      && (Refused(r', agent, id) <==> Refused(r, agent, id))
      && (AcknowledgedIn(r, id) ==> AcknowledgedIn(r', id))
  }

  /** The mutation: it succeeds if and only if the message is addressed to the
      agent, which is then on record as acknowledged. */
  lemma AcknowledgingExactly(messageID: string, agent: string, draw: Draw, r: Records)
    requires draw.eventID.Some?
    ensures var m := ApplyAcknowledge(messageID, Caller(agent, false), draw, r);
            && (m.Ok? <==> !Refused(r, agent, messageID))
            && (m.Err? ==> m.error == Denied || m.error == NotFound)
            && (m.Ok? ==> AcknowledgedIn(m.value.0, messageID) && FactsKept(r, m.value.0, agent))
  {
    var m := ApplyAcknowledge(messageID, Caller(agent, false), draw, r);
    if m.Ok? {
      var messages := m.value.0.messages;
      forall id
        ensures Find(messages, MessageID, id) == Find(r.messages, MessageID, id)
      {
        SameIDsFindSame(r.messages, messages, id);
      }
    }
  }

  /** The commit: an earlier request of this key decides it, or else the message's
      recipient does. */
  lemma AckCommits(s: Store, agent: string, ack: Acknowledgement, env: Env)
    requires WellFormed(s) && NoFaults(env)
    ensures var (s', out) := CommitStep(s, Acknowledging(agent, ack, env), env.faults);
            var key, receipts := AckKey(agent, ack.controlID), s.disk.Current().receipts;
            && WellFormed(s') && Untouched(s, s', agent, ack.controlID)
            && (if key in receipts then
                  && Now(s') == Now(s)
                  && if receipts[key].fingerprint == env.fingerprint then out.Ok? else out == Err(Conflict)
                else if Refused(Now(s), agent, ack.messageID) then
                  && s' == s && (out == Err(Denied) || out == Err(NotFound))
                else
                  && out.Ok? && Now(s') == ApplyAcknowledge(ack.messageID, Caller(agent, false), env.draw,
                                                            Now(s)).value.0)
  {
    CommitKeeps(s, Acknowledging(agent, ack, env), env.faults);
    AcknowledgingMutates(agent, ack, env, Now(s));
    AcknowledgingExactly(ack.messageID, agent, env.draw, Now(s));
    hide WellFormed, ApplyAcknowledge, Refused, AcknowledgedIn, CommitFacts, FactsKept, Stamp;
    if AckKey(agent, ack.controlID) in s.disk.Current().receipts {
      hide NextState;
    } else {
      var m := ApplyAcknowledge(ack.messageID, Caller(agent, false), env.draw, Now(s));
      assert Acknowledging(agent, ack, env).mutate(Now(s)) == m;
    }
  }

  lemma OneFaultFreeAck(s: Store, m: Mail, agent: string, ack: Acknowledgement, env: Env)
    requires WellFormed(s) && NoFaults(env) && ValidID(agent)
    ensures var (s', m', err) := AckOne(s, m, agent, ack, env);
            && (err.None? <==> !Blocks(s, agent, ack, env))
            && WellFormed(s') && Untouched(s, s', agent, ack.controlID) && FactsKept(Now(s), Now(s'), agent)
            && (AckKey(agent, ack.controlID) !in s.disk.Current().receipts && !Refused(Now(s), agent, ack.messageID) ==>
                  AcknowledgedIn(Now(s'), ack.messageID))
  {
    AckCommits(s, agent, ack, env);
    AcknowledgingExactly(ack.messageID, agent, env.draw, Now(s));
    hide WellFormed, ApplyAcknowledge, Refused, AcknowledgedIn, CommitStep, Untouched, AckKey, Acknowledging, ValidID;
  }

  lemma BlocksLater(s: Store, s': Store, agent: string, controlID: string, ack: Acknowledgement, env: Env)
    requires s.disk.Valid() && s'.disk.Valid() && ack.controlID != controlID
    requires Untouched(s, s', agent, controlID) && FactsKept(Now(s), Now(s'), agent)
    ensures Blocks(s', agent, ack, env) <==> Blocks(s, agent, ack, env)
  {
    if AckKey(agent, ack.controlID) == AckKey(agent, controlID) {
      AckKeyNamesRecord(agent, ack.controlID, controlID);
    }
    hide AckKey, Refused, AcknowledgedIn;
  }

  ghost predicate NoneBlocks(s: Store, agent: string, acks: seq<Acknowledgement>, envs: nat -> Env, k: nat)
    requires s.disk.Valid()
  {
    forall i :: k <= i < |acks| ==> !Blocks(s, agent, acks[i], envs(i))
  }

  lemma {:induction false} SucceedsFromAck(
    s: Store, m: Mail, agent: string, acks: seq<Acknowledgement>, envs: nat -> Env, k: nat)
    requires WellFormed(s) && k <= |acks| && DistinctControls(acks) && FaultFree(envs) && ValidID(agent)
    ensures AckFrom(s, m, agent, acks, envs, k).2.None? <==> NoneBlocks(s, agent, acks, envs, k)
    decreases |acks| - k
  {
    assert s.disk.Valid() && NoFaults(envs(k));
    hide FaultFree, DistinctControls;
    if k < |acks| {
      OneFaultFreeAck(s, m, agent, acks[k], envs(k));
      var (s1, m1, err) := AckOne(s, m, agent, acks[k], envs(k));
      hide WellFormed, Blocks, AckOne, Untouched, FactsKept, NoFaults, Refused, AcknowledgedIn, NoneBlocks;
      if err.None? {
        SucceedsFromAck(s1, m1, agent, acks, envs, k + 1);
        RestBlocksTheSame(s, s1, agent, acks, envs, k);
      } else {
        BlockedHere(s, agent, acks, envs, k);
      }
    }
  }

  lemma BlockedHere(s: Store, agent: string, acks: seq<Acknowledgement>, envs: nat -> Env, k: nat)
    requires s.disk.Valid() && k < |acks| && Blocks(s, agent, acks[k], envs(k))
    ensures !NoneBlocks(s, agent, acks, envs, k)
  {
  }

  lemma RestBlocksTheSame(
    s: Store, s1: Store, agent: string, acks: seq<Acknowledgement>, envs: nat -> Env, k: nat)
    requires s.disk.Valid() && s1.disk.Valid() && k < |acks| && DistinctControls(acks)
    requires Untouched(s, s1, agent, acks[k].controlID) && FactsKept(Now(s), Now(s1), agent)
    requires !Blocks(s, agent, acks[k], envs(k))
    ensures NoneBlocks(s1, agent, acks, envs, k + 1) <==> NoneBlocks(s, agent, acks, envs, k)
  {
    hide Blocks, Untouched, FactsKept;
    forall i | k + 1 <= i < |acks|
      ensures Blocks(s1, agent, acks[i], envs(i)) <==> Blocks(s, agent, acks[i], envs(i))
    {
      BlocksLater(s, s1, agent, acks[k].controlID, acks[i], envs(i));
    }
  }

  /** THE acknowledgement-pass theorem: a pass that meets no fault, over records of
      distinct control IDs, succeeds if and only if none of them blocks it. A record
      for a message that is missing or another agent's blocks nothing. */
  lemma FaultFreeAckPassSucceedsExactly(s: Store, m: Mail, agent: string, names: seq<string>, envs: nat -> Env)
    requires WellFormed(s) && FaultFree(envs) && ValidID(agent) && DistinctControls(ScannedAcks(m, agent, names))
    ensures var acks := ScannedAcks(m, agent, names);
            AckFrom(s, m, agent, acks, envs, 0).2.None? <==>
            forall i :: 0 <= i < |acks| ==> !Blocks(s, agent, acks[i], envs(i))
  {
    hide Blocks, AckFrom, FaultFree;
    SucceedsFromAck(s, m, agent, ScannedAcks(m, agent, names), envs, 0);
  }

  lemma {:induction false} AcknowledgesFrom(
    s: Store, m: Mail, agent: string, acks: seq<Acknowledgement>, envs: nat -> Env, k: nat, i: nat)
    requires WellFormed(s) && DistinctControls(acks) && FaultFree(envs) && ValidID(agent) && k <= i < |acks|
    requires AckFrom(s, m, agent, acks, envs, k).2.None?
    requires AckKey(agent, acks[i].controlID) !in s.disk.Current().receipts
    requires !Refused(Now(s), agent, acks[i].messageID)
    ensures AckFrom(s, m, agent, acks, envs, k).0.disk.Valid()
    ensures AcknowledgedIn(Now(AckFrom(s, m, agent, acks, envs, k).0), acks[i].messageID)
    decreases |acks| - k
  {
    assert s.disk.Valid() && NoFaults(envs(k));
    OneFaultFreeAck(s, m, agent, acks[k], envs(k));
    hide FaultFree, NoFaults;
    var (s1, m1, _) := AckOne(s, m, agent, acks[k], envs(k));
    hide WellFormed, AckOne, Refused, AcknowledgedIn, Blocks;
    if k == i {
      KeepsAcknowledged(s1, m1, agent, acks, envs, k + 1, acks[i].messageID);
    } else {
      if AckKey(agent, acks[i].controlID) == AckKey(agent, acks[k].controlID) {
        AckKeyNamesRecord(agent, acks[i].controlID, acks[k].controlID);
      }
      AcknowledgesFrom(s1, m1, agent, acks, envs, k + 1, i);
    }
  }

  lemma {:induction false} KeepsAcknowledged(
    s: Store, m: Mail, agent: string, acks: seq<Acknowledgement>, envs: nat -> Env, k: nat, messageID: string)
    requires WellFormed(s) && FaultFree(envs) && ValidID(agent) && AcknowledgedIn(Now(s), messageID) && k <= |acks|
    ensures AckFrom(s, m, agent, acks, envs, k).0.disk.Valid()
    ensures AcknowledgedIn(Now(AckFrom(s, m, agent, acks, envs, k).0), messageID)
    decreases |acks| - k
  {
    assert s.disk.Valid() && NoFaults(envs(k));
    hide FaultFree;
    if k < |acks| {
      OneFaultFreeAck(s, m, agent, acks[k], envs(k));
      var (s1, m1, _) := AckOne(s, m, agent, acks[k], envs(k));
      assert AcknowledgedIn(Now(s1), messageID);
      hide WellFormed, AckOne, Refused, AcknowledgedIn, FactsKept, Untouched, Blocks, NoFaults;
      KeepsAcknowledged(s1, m1, agent, acks, envs, k + 1, messageID);
    }
  }

  /** And then every message a new record of the scan names, and the agent is the
      recipient of, is on record as acknowledged. */
  lemma PassAcknowledgesAll(s: Store, m: Mail, agent: string, names: seq<string>, envs: nat -> Env, i: nat)
    requires WellFormed(s) && FaultFree(envs) && ValidID(agent) && DistinctControls(ScannedAcks(m, agent, names))
    requires i < |ScannedAcks(m, agent, names)|
    requires AckFrom(s, m, agent, ScannedAcks(m, agent, names), envs, 0).2.None?
    requires var ack := ScannedAcks(m, agent, names)[i];
             AckKey(agent, ack.controlID) !in s.disk.Current().receipts && !Refused(Now(s), agent, ack.messageID)
    ensures var acks := ScannedAcks(m, agent, names);
            && AckFrom(s, m, agent, acks, envs, 0).0.disk.Valid()
            && AcknowledgedIn(Now(AckFrom(s, m, agent, acks, envs, 0).0), acks[i].messageID)
  {
    hide AckFrom, FaultFree;
    AcknowledgesFrom(s, m, agent, ScannedAcks(m, agent, names), envs, 0, i);
  }
}
