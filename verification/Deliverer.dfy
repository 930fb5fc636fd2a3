/** The deliverer: publishes queued messages, records what it finds in inboxes,
    and feeds acknowledgement files to the engine. It keeps no state of its own. */
module Deliverer {
  import opened Results
  import opened Domain
  import opened StateStore
  import opened Commands
  import opened Mailbox

  function RequestIDForFact(fact: string, id: string): string {
    "mailbox-" + fact + "-" + id
  }

  const FACTS := {"publish", "process", "ack"}

  /** A delivery step keeps its request ID across crashes, and no two steps share one. */
  lemma FactRequestsAreDistinct(f1: string, id1: string, f2: string, id2: string)
    requires f1 in FACTS && f2 in FACTS
    requires RequestIDForFact(f1, id1) == RequestIDForFact(f2, id2)
    ensures f1 == f2 && id1 == id2
  {
    var r1, r2 := RequestIDForFact(f1, id1), RequestIDForFact(f2, id2);
    assert r1[8] == f1[0] && r2[8] == f2[0] && r1[9] == f1[1] && r2[9] == f2[1];
    assert r1[|f1| + 9..] == id1 && r2[|f2| + 9..] == id2;
  }

  function EnvelopeOf(m: Message): Envelope {
    Envelope(1, WORKSPACE, m.id, m.sender, m.recipient, m.kind, m.body, m.createdAt, m.taskID, m.replyTo)
  }

  predicate NeedsPublishing(m: Message) {
    m.queuedAt.Some? && m.publishedAt.None?
  }

  predicate NeedsProcessing(m: Message) {
    m.publishedAt.Some? && m.processedAt.None?
  }

  function RecordPublishing(id: string, env: Env): CommitRequest {
    Submit(RecordPublished(id), HOST, env.draw, WORKSPACE, RequestIDForFact("publish", id), env.fingerprint)
  }

  function RecordProcessing(id: string, env: Env): CommitRequest {
    Submit(RecordProcessed(id), HOST, env.draw, WORKSPACE, RequestIDForFact("process", id), env.fingerprint)
  }

  function Acknowledging(agent: string, ack: Acknowledgement, env: Env): CommitRequest {
    Submit(Acknowledge(ack.messageID), Caller(agent, false), env.draw, WORKSPACE,
           RequestIDForFact("ack", ack.controlID), env.fingerprint)
  }

  /** What one iteration meets: clock and IDs, the opaque fingerprint, store and
      file faults, and the listing an archive reads. */
  datatype Env = Env(draw: Draw, fingerprint: string, faults: Faults, io: IOFaults, listing: seq<string>)

  /** The directory listing one scan reads. */
  datatype Listing = Listing(names: seq<string>, faults: IOFaults)

  type Progress = (Store, Mail, Option<ErrorCode>)

  /** The records a snapshot shows. */
  function Loaded(s: Store): Records
    requires s.disk.Valid()
  {
    if s.disk.Current().snapshot.workspaceID == "" then NO_RECORDS else s.disk.Current().snapshot.records
  }

  /* ---------- What each pass does ---------- */

  /** Publish, then record, if the message still needs it. */
  function DeliverOne(s: Store, m: Mail, message: Message, env: Env): (r: Progress)
    requires s.disk.Valid()
    ensures r.0.disk.Valid()
  {
    if !NeedsPublishing(message) then (s, m, None)
    else
      var (m', unfiled) := PublishStep(m, message.id, EnvelopeOf(message), env.io);
      if unfiled.Some? then (s, m', unfiled)
      else
        var (s', out) := CommitStep(s, RecordPublishing(message.id, env), env.faults);
        (s', m', if out.Err? then Some(out.error) else None)
  }

  /** Message by message; the first error ends the pass. */
  function DeliverFrom(s: Store, m: Mail, messages: seq<Message>, envs: nat -> Env, k: nat): (r: Progress)
    requires s.disk.Valid()
    ensures r.0.disk.Valid()
    decreases |messages| - k
  {
    if k >= |messages| then (s, m, None)
    else
      var (s', m', err) := DeliverOne(s, m, messages[k], envs(k));
      if err.Some? then (s', m', err) else DeliverFrom(s', m', messages, envs, k + 1)
  }

  /** Record, then archive, if the envelope's message awaits processing. */
  function IngestOne(s: Store, m: Mail, published: set<string>, e: Envelope, env: Env): (r: Progress)
    requires s.disk.Valid()
    ensures r.0.disk.Valid()
  {
    if e.messageID !in published then (s, m, None)
    else
      var (s', out) := CommitStep(s, RecordProcessing(e.messageID, env), env.faults);
      if out.Err? then (s', m, Some(out.error))
      else
        var (m', unmoved) := ArchiveStep(m, e.messageID, env.listing, env.io);
        (s', m', unmoved)
  }

  function IngestFrom(
    s: Store, m: Mail, published: set<string>, found: seq<Envelope>, envs: nat -> Env, k: nat): (r: Progress)
    requires s.disk.Valid()
    ensures r.0.disk.Valid()
    decreases |found| - k
  {
    if k >= |found| then (s, m, None)
    else
      var (s', m', err) := IngestOne(s, m, published, found[k], envs(k));
      if err.Some? then (s', m', err) else IngestFrom(s', m', published, found, envs, k + 1)
  }

  /** One agent's inbox, scanned and ingested. */
  function IngestInbox(
    s: Store, m: Mail, published: set<string>, agent: string, scan: Listing, envs: nat -> Env): (r: Progress)
    requires s.disk.Valid()
    ensures r.0.disk.Valid()
  {
    if !ValidID(agent) then (s, m, Some(InvalidArgument))
    else if scan.faults.read then (s, m, Some(IOFailure))
    else IngestFrom(s, m, published, Scanned(m, agent, scan.names), envs, 0)
  }

  /** One agent after another, in the order the recipients map yields them. */
  function IngestAgents(
    s: Store, m: Mail, published: set<string>, order: seq<string>, scans: nat -> Listing, envs: nat -> nat -> Env,
    a: nat): (r: Progress)
    requires s.disk.Valid()
    ensures r.0.disk.Valid()
    decreases |order| - a
  {
    if a >= |order| then (s, m, None)
    else
      var (s', m', err) := IngestInbox(s, m, published, order[a], scans(a), envs(a));
      if err.Some? then (s', m', err) else IngestAgents(s', m', published, order, scans, envs, a + 1)
  }

  /** A refusal leaves the record where it is and is no error of the pass. */
  function AckOne(s: Store, m: Mail, agent: string, ack: Acknowledgement, env: Env): (r: Progress)
    requires s.disk.Valid()
    ensures r.0.disk.Valid()
  {
    var (s', out) := CommitStep(s, Acknowledging(agent, ack, env), env.faults);
    if out == Err(Denied) || out == Err(NotFound) then (s', m, None)
    else if out.Err? then (s', m, Some(out.error))
    else
      var (m', unmoved) := ArchiveAckStep(m, agent, ack.controlID, env.io);
      (s', m', unmoved)
  }

  function AckFrom(s: Store, m: Mail, agent: string, acks: seq<Acknowledgement>, envs: nat -> Env, k: nat): Progress
    requires s.disk.Valid()
    decreases |acks| - k
  {
    if k >= |acks| then (s, m, None)
    else
      var (s', m', err) := AckOne(s, m, agent, acks[k], envs(k));
      if err.Some? then (s', m', err) else AckFrom(s', m', agent, acks, envs, k + 1)
  }

  /* ---------- The deliverer object ---------- */

  class FileDeliverer {
    const mail: FileMailbox
    const store: FileStore

    constructor (mail: FileMailbox, store: FileStore)
      ensures this.mail == mail && this.store == store
    {
      this.mail, this.store := mail, store;
    }

    method DeliverPending(load: Faults, envs: nat -> Env) returns (err: Option<ErrorCode>)
      requires store.disk.Valid()
      modifies mail, store
      ensures (store.View(), mail.View(), err) ==
              if load.read then (old(store.View()), old(mail.View()), Some(IOFailure))
              else DeliverFrom(old(store.View()), old(mail.View()), Loaded(old(store.View())).messages, envs, 0)
    {
      var loaded := store.Load(WORKSPACE, load);
      if loaded.Err? {
        return Some(loaded.error);
      }
      var messages := loaded.value.records.messages;
      assert messages == Loaded(store.View()).messages;
      var k := 0;
      while k < |messages|
        invariant 0 <= k <= |messages| && store.disk.Valid()
        invariant DeliverFrom(store.View(), mail.View(), messages, envs, k) ==
                  DeliverFrom(old(store.View()), old(mail.View()), messages, envs, 0)
      {
        var msg := messages[k];
        if NeedsPublishing(msg) {
          var unfiled := mail.Publish(msg.id, EnvelopeOf(msg), envs(k).io);
          if unfiled.Some? {
            return unfiled;
          }
          var out := store.Commit(RecordPublishing(msg.id, envs(k)), envs(k).faults);
          if out.Err? {
            return Some(out.error);
          }
        }
        k := k + 1;
      }
      return None;
    }

    method IngestAgent(
      agent: string, published: set<string>, scan: Listing, envs: nat -> Env) returns (err: Option<ErrorCode>)
      requires store.disk.Valid()
      modifies mail, store
      ensures store.disk.Valid()
      ensures (store.View(), mail.View(), err) ==
              IngestInbox(old(store.View()), old(mail.View()), published, agent, scan, envs)
    {
      var scanned := mail.ScanInbox(agent, scan.names, scan.faults);
      if scanned.Err? {
        return Some(scanned.error);
      }
      var found := scanned.value;
      var k := 0;
      while k < |found|
        invariant 0 <= k <= |found| && store.disk.Valid()
        invariant IngestFrom(store.View(), mail.View(), published, found, envs, k) ==
                  IngestFrom(old(store.View()), old(mail.View()), published, found, envs, 0)
      {
        var id := found[k].messageID;
        if id in published {
          var out := store.Commit(RecordProcessing(id, envs(k)), envs(k).faults);
          if out.Err? {
            return Some(out.error);
          }
          var unmoved := mail.Archive(id, envs(k).listing, envs(k).io);
          if unmoved.Some? {
            return unmoved;
          }
        }
        k := k + 1;
      }
      return None;
    }

    /** `order` is the order in which iteration visits the recipients, each once. */
    method IngestPending(load: Faults, order: seq<string>, scans: nat -> Listing, envs: nat -> nat -> Env)
      returns (err: Option<ErrorCode>)
      requires store.disk.Valid()
      requires Visits(order, Recipients(Loaded(store.View()).messages))
      modifies mail, store
      ensures (store.View(), mail.View(), err) ==
              if load.read then (old(store.View()), old(mail.View()), Some(IOFailure))
              else IngestAgents(old(store.View()), old(mail.View()), Awaiting(Loaded(old(store.View())).messages),
                                order, scans, envs, 0)
    {
      var loaded := store.Load(WORKSPACE, load);
      if loaded.Err? {
        return Some(loaded.error);
      }
      var messages := loaded.value.records.messages;
      var published, recipients := ToProcess(messages);
      assert Visits(order, recipients);
      var a := 0;
      while a < |order|
        invariant 0 <= a <= |order| && store.disk.Valid()
        invariant IngestAgents(store.View(), mail.View(), published, order, scans, envs, a) ==
                  IngestAgents(old(store.View()), old(mail.View()), published, order, scans, envs, 0)
      {
        err := IngestAgent(order[a], published, scans(a), envs(a));
        if err.Some? {
          return;
        }
        a := a + 1;
      }
      return None;
    }

    method IngestAcks(agent: string, scan: Listing, envs: nat -> Env) returns (err: Option<ErrorCode>)
      requires store.disk.Valid()
      modifies mail, store
      ensures (store.View(), mail.View(), err) ==
              if !ValidID(agent) then (old(store.View()), old(mail.View()), Some(InvalidArgument))
              else if scan.faults.read then (old(store.View()), old(mail.View()), Some(IOFailure))
              else AckFrom(old(store.View()), old(mail.View()), agent,
                  ScannedAcks(old(mail.View()), agent, scan.names), envs, 0)
    {
      var scanned := mail.ScanAcks(agent, scan.names, scan.faults);
      if scanned.Err? {
        return Some(scanned.error);
      }
      var acks := scanned.value;
      var k := 0;
      while k < |acks|
        invariant 0 <= k <= |acks| && store.disk.Valid()
        invariant AckFrom(store.View(), mail.View(), agent, acks, envs, k) ==
                  AckFrom(old(store.View()), old(mail.View()), agent, acks, envs, 0)
      {
        var out := store.Commit(Acknowledging(agent, acks[k], envs(k)), envs(k).faults);
        if out == Err(Denied) || out == Err(NotFound) {
          k := k + 1;
          continue;
        }
        if out.Err? {
          return Some(out.error);
        }
        var unmoved := mail.ArchiveAck(agent, acks[k].controlID, envs(k).io);
        if unmoved.Some? {
          return unmoved;
        }
        k := k + 1;
      }
      return None;
    }
  }

  function Awaiting(messages: seq<Message>): set<string> {
    set i | 0 <= i < |messages| && NeedsProcessing(messages[i]) :: messages[i].id
  }

  function Recipients(messages: seq<Message>): set<string> {
    set i | 0 <= i < |messages| && NeedsProcessing(messages[i]) :: messages[i].recipient
  }

  /** The IDs and recipients of the messages that await processing. */
  method ToProcess(messages: seq<Message>) returns (published: set<string>, recipients: set<string>)
    ensures published == Awaiting(messages) && recipients == Recipients(messages)
  {
    published, recipients := {}, {};
    for i := 0 to |messages|
      invariant published == Awaiting(messages[..i]) && recipients == Recipients(messages[..i])
    {
      assert messages[..i + 1] == messages[..i] + [messages[i]];
      if NeedsProcessing(messages[i]) {
        published, recipients := published + {messages[i].id}, recipients + {messages[i].recipient};
      }
    }
    assert messages[..|messages|] == messages;
  }

  ghost predicate Visits(order: seq<string>, agents: set<string>) {
    && (forall a :: a in order <==> a in agents)
    && (forall i, j :: 0 <= i < j < |order| ==> order[i] != order[j])
  }
}
