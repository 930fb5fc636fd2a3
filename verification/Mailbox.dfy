/** The file mailbox: one JSON file per envelope or acknowledgement, in
    per-agent directories that outsiders may also write to. */
module Mailbox {
  import opened Results
  import opened Domain
  import opened JsonText

  datatype Envelope = Envelope(
    schemaVersion: int, workspaceID: string, messageID: string, sender: string, recipient: string,
    kind: MessageKind, body: string, createdAt: int, taskID: Option<string>, replyTo: Option<string>)

  datatype Acknowledgement = Acknowledgement(
    schemaVersion: int, workspaceID: string, controlID: string, messageID: string, recipient: string)

  /** What a reader makes of one file: a decoded document, readable bytes that do
      not decode, or something over the size bound or not a regular file. */
  datatype Content<T> = Document(value: T) | Junk | Unread

  /** `<agent>/<directory>/<name>.json`. */
  datatype Path = Path(agent: string, name: string)

  datatype Mail = Mail(
    inbox: map<Path, Content<Envelope>>, archive: map<Path, Content<Envelope>>,
    acks: map<Path, Content<Acknowledgement>>, acksArchive: map<Path, Content<Acknowledgement>>)

  const NO_MAIL := Mail(map[], map[], map[], map[])

  /** Which I/O fails during one call: reading a file or a listing, or the
      temp-file-and-rename. */
  datatype IOFaults = IOFaults(read: bool, write: bool)

  /* ---------- Checks ---------- */

  predicate ValidID(id: string) {
    id != "" && id != "." && id != ".." && '/' !in id && '\\' !in id
  }

  predicate ValidEnvelope(e: Envelope) {
    && e.schemaVersion == 1
    && e.messageID != "" && e.sender != "" && e.recipient != ""
    && !e.kind.UnknownKind?
  }

  predicate ValidAck(a: Acknowledgement, agent: string) {
    a.schemaVersion == 1 && a.controlID != "" && a.messageID != "" && a.recipient == agent
  }

  /** The code's `prior == envelope`: the optional IDs are pointers, and a decoded
      one is never the caller's own. */
  predicate SameEnvelope(prior: Envelope, sent: Envelope) {
    prior == sent && sent.taskID.None? && sent.replyTo.None?
  }

  /* ---------- The read bound ---------- */

  const MAX_ENVELOPE_BYTES := 256 * 1024

  function KindText(kind: MessageKind): string {
    match kind
    case Request => "Request"
    case Inform => "Inform"
    case Outcome => "Result"
    case UnknownKind(name) => name
  }

  /** The file a written envelope, of version 1, makes. */
  function EncodedSize(e: Envelope): nat {
    AROUND + LineSize("SchemaVersion", 1) + LineSize("WorkspaceID", TextSize(e.workspaceID))
    + LineSize("MessageID", TextSize(e.messageID)) + LineSize("SenderAgentID", TextSize(e.sender))
    + LineSize("RecipientAgentID", TextSize(e.recipient)) + LineSize("Kind", TextSize(KindText(e.kind)))
    + LineSize("Body", TextSize(e.body)) + LineSize("CreatedAt", TimeSize(e.createdAt))
    + LineSize("TaskID", OptionalSize(e.taskID)) + LineSize("ReplyToMessageID", OptionalSize(e.replyTo))
  }

  /** Writing has no bound, reading has: nobody reads such a file back. */
  predicate Oversize(e: Envelope) {
    EncodedSize(e) > MAX_ENVELOPE_BYTES
  }

  /** What a reader makes of the file this envelope is written to. */
  function Written(e: Envelope): Content<Envelope> {
    if Oversize(e) then Unread else Document(e)
  }

  function EncodedAckSize(a: Acknowledgement): nat {
    AROUND + LineSize("SchemaVersion", 1) + LineSize("WorkspaceID", TextSize(a.workspaceID))
    + LineSize("ControlRecordID", TextSize(a.controlID)) + LineSize("OriginalMessageID", TextSize(a.messageID))
    + LineSize("RecipientAgentID", TextSize(a.recipient))
  }

  function WrittenAck(a: Acknowledgement): Content<Acknowledgement> {
    if EncodedAckSize(a) > MAX_ENVELOPE_BYTES then Unread else Document(a)
  }

  /** A body over the bound is enough. */
  lemma LongBodyIsOversize(e: Envelope)
    requires |e.body| > MAX_ENVELOPE_BYTES
    ensures Oversize(e)
  {
    NoCharIsFree(e.body);
  }

  /* ---------- What each operation does ---------- */

  function PublishStep(m: Mail, messageID: string, envelope: Envelope, faults: IOFaults): (Mail, Option<ErrorCode>) {
    var sent := if envelope.schemaVersion == 0 then envelope.(schemaVersion := 1) else envelope;
    var path := Path(sent.recipient, messageID);
    if !ValidID(messageID) || envelope.messageID != messageID || !ValidEnvelope(sent) || !ValidID(sent.recipient)
    then (m, Some(InvalidArgument))
    else if faults.read then (m, Some(IOFailure))
    else if path in m.inbox && !m.inbox[path].Unread? then
      (m, if m.inbox[path].Document? && SameEnvelope(m.inbox[path].value, sent) then None else Some(Conflict))
    else if faults.write then (m, Some(IOFailure))
    else (m.(inbox := m.inbox[path := Written(sent)]), None)
  }

  /** The first listed agent whose inbox holds a file of this name. */
  function Holder(m: Mail, name: string, listing: seq<string>): (r: Option<string>)
    ensures r.None? <==> forall k :: 0 <= k < |listing| ==> Path(listing[k], name) !in m.inbox
    ensures r.Some? ==> exists k :: 0 <= k < |listing| && r.value == listing[k] && Path(r.value, name) in m.inbox
                          && forall j :: 0 <= j < k ==> Path(listing[j], name) !in m.inbox
  {
    if listing == [] then None
    else if Path(listing[0], name) in m.inbox then Some(listing[0])
    else Holder(m, name, listing[1..])
  }

  function MoveToArchive(m: Mail, path: Path): Mail
    requires path in m.inbox
  {
    m.(inbox := m.inbox - {path}, archive := m.archive[path := m.inbox[path]])
  }

  function ArchiveStep(m: Mail, messageID: string, listing: seq<string>, faults: IOFaults): (Mail, Option<ErrorCode>) {
    if !ValidID(messageID) then (m, Some(InvalidArgument))
    else if faults.read then (m, Some(IOFailure))
    else
      match Holder(m, messageID, listing)
      case None => (m, None)
      case Some(agent) =>
        if faults.write then (m, Some(IOFailure)) else (MoveToArchive(m, Path(agent, messageID)), None)
  }

  function WriteAckStep(m: Mail, agent: string, ack: Acknowledgement, faults: IOFaults): (Mail, Option<ErrorCode>) {
    var sent := if ack.schemaVersion == 0 then ack.(schemaVersion := 1) else ack;
    if !ValidID(agent) || !ValidID(ack.controlID) || ack.recipient != agent || ack.messageID == ""
    then (m, Some(InvalidArgument))
    else if faults.write then (m, Some(IOFailure))
    else (m.(acks := m.acks[Path(agent, ack.controlID) := WrittenAck(sent)]), None)
  }

  function ArchiveAckStep(m: Mail, agent: string, controlID: string, faults: IOFaults): (Mail, Option<ErrorCode>) {
    var path := Path(agent, controlID);
    if !ValidID(agent) || !ValidID(controlID) then (m, Some(InvalidArgument))
    else if path !in m.acks then (m, None)
    else if faults.write then (m, Some(IOFailure))
    else (m.(acks := m.acks - {path}, acksArchive := m.acksArchive[path := m.acks[path]]), None)
  }

  /** A file of this agent's inbox that holds this valid envelope. */
  predicate Holds(m: Mail, agent: string, name: string, e: Envelope) {
    Path(agent, name) in m.inbox && m.inbox[Path(agent, name)] == Document(e)
    && e.schemaVersion == 1 && e.messageID != "" && e.sender != "" && e.recipient != ""
    && (e.kind == Request || e.kind == Inform || e.kind == Outcome)
  }

  /** The valid envelopes among the listed files; everything else is passed over. */
  function Read(m: Mail, agent: string, names: seq<string>): seq<Envelope> {
    if names == [] then []
    else
      var last := Path(agent, names[|names| - 1]);
      Read(m, agent, names[..|names| - 1]) +
      if last in m.inbox && m.inbox[last].Document? && ValidEnvelope(m.inbox[last].value) then [m.inbox[last].value]
      else []
  }

  function Insert(sorted: seq<Envelope>, e: Envelope): seq<Envelope> {
    if sorted == [] || sorted[|sorted| - 1].createdAt <= e.createdAt then sorted + [e]
    else Insert(sorted[..|sorted| - 1], e) + [sorted[|sorted| - 1]]
  }

  /** Oldest first. The sort leaves ties in any order; so does the listing. */
  function ByTime(envelopes: seq<Envelope>): seq<Envelope> {
    if envelopes == [] then [] else Insert(ByTime(envelopes[..|envelopes| - 1]), envelopes[|envelopes| - 1])
  }

  function Scanned(m: Mail, agent: string, names: seq<string>): seq<Envelope> {
    ByTime(Read(m, agent, names))
  }

  function ScannedAcks(m: Mail, agent: string, names: seq<string>): seq<Acknowledgement> {
    if names == [] then []
    else
      var last := Path(agent, names[|names| - 1]);
      ScannedAcks(m, agent, names[..|names| - 1]) +
      if last in m.acks && m.acks[last].Document? && ValidAck(m.acks[last].value, agent) then [m.acks[last].value]
      else []
  }

  /* ---------- The mailbox object ---------- */

  class FileMailbox {
    var inbox: map<Path, Content<Envelope>>
    var archive: map<Path, Content<Envelope>>
    var acks: map<Path, Content<Acknowledgement>>
    var acksArchive: map<Path, Content<Acknowledgement>>

    ghost function View(): Mail
      reads this
    {
      Mail(inbox, archive, acks, acksArchive)
    }

    constructor (found: Mail)
      ensures View() == found
    {
      inbox, archive, acks, acksArchive := found.inbox, found.archive, found.acks, found.acksArchive;
    }

    method Publish(messageID: string, envelope: Envelope, faults: IOFaults) returns (err: Option<ErrorCode>)
      modifies this`inbox
      ensures (View(), err) == PublishStep(old(View()), messageID, envelope, faults)
    {
      if !ValidID(messageID) {
        return Some(InvalidArgument);
      }
      if envelope.messageID != messageID {
        return Some(InvalidArgument);
      }
      var sent := envelope;
      if sent.schemaVersion == 0 {
        sent := sent.(schemaVersion := 1);
      }
      if !ValidEnvelope(sent) || !ValidID(sent.recipient) {
        return Some(InvalidArgument);
      }
      if faults.read {
        return Some(IOFailure);
      }
      var path := Path(sent.recipient, messageID);
      if path in inbox && !inbox[path].Unread? {
        if inbox[path].Document? && SameEnvelope(inbox[path].value, sent) {
          return None;
        }
        return Some(Conflict);
      }
      if faults.write {
        return Some(IOFailure);
      }
      inbox := inbox[path := Written(sent)];
      return None;
    }

    /** Looks through the agent directories in listing order and moves the first
        file found. */
    method Archive(messageID: string, listing: seq<string>, faults: IOFaults) returns (err: Option<ErrorCode>)
      modifies this`inbox, this`archive
      ensures (View(), err) == ArchiveStep(old(View()), messageID, listing, faults)
    {
      if !ValidID(messageID) {
        return Some(InvalidArgument);
      }
      if faults.read {
        return Some(IOFailure);
      }
      var k := 0;
      assert listing[0..] == listing;
      while k < |listing|
        invariant 0 <= k <= |listing|
        invariant Holder(View(), messageID, listing) == Holder(View(), messageID, listing[k..])
        invariant View() == old(View())
      {
        var path := Path(listing[k], messageID);
        if path in inbox {
          if faults.write {
            return Some(IOFailure);
          }
          archive := archive[path := inbox[path]];
          inbox := inbox - {path};
          return None;
        }
        assert listing[k..][1..] == listing[k + 1..];
        k := k + 1;
      }
      return None;
    }

    method ScanInbox(agent: string, names: seq<string>, faults: IOFaults) returns (r: Result<seq<Envelope>, ErrorCode>)
      ensures r == if !ValidID(agent) then Err(InvalidArgument)
                   else if faults.read then Err(IOFailure)
                   else Ok(Scanned(View(), agent, names))
    {
      if !ValidID(agent) {
        return Err(InvalidArgument);
      }
      if faults.read {
        return Err(IOFailure);
      }
      var envelopes := [];
      for k := 0 to |names|
        invariant envelopes == Read(View(), agent, names[..k])
      {
        assert names[..k + 1][..k] == names[..k];
        var path := Path(agent, names[k]);
        if path in inbox && inbox[path].Document? && ValidEnvelope(inbox[path].value) {
          envelopes := envelopes + [inbox[path].value];
        }
      }
      assert names[..|names|] == names;
      return Ok(ByTime(envelopes));
    }

    method WriteAck(agent: string, ack: Acknowledgement, faults: IOFaults) returns (err: Option<ErrorCode>)
      modifies this`acks
      ensures (View(), err) == WriteAckStep(old(View()), agent, ack, faults)
    {
      if !ValidID(agent) || !ValidID(ack.controlID) || ack.recipient != agent {
        return Some(InvalidArgument);
      }
      var sent := ack;
      if sent.schemaVersion == 0 {
        sent := sent.(schemaVersion := 1);
      }
      if ack.messageID == "" {
        return Some(InvalidArgument);
      }
      if faults.write {
        return Some(IOFailure);
      }
      acks := acks[Path(agent, ack.controlID) := WrittenAck(sent)];
      return None;
    }

    method ScanAcks(
      agent: string, names: seq<string>, faults: IOFaults) returns (r: Result<seq<Acknowledgement>, ErrorCode>)
      ensures r == if !ValidID(agent) then Err(InvalidArgument)
                   else if faults.read then Err(IOFailure)
                   else Ok(ScannedAcks(View(), agent, names))
    {
      if !ValidID(agent) {
        return Err(InvalidArgument);
      }
      if faults.read {
        return Err(IOFailure);
      }
      var found := [];
      for k := 0 to |names|
        invariant found == ScannedAcks(View(), agent, names[..k])
      {
        assert names[..k + 1][..k] == names[..k];
        var path := Path(agent, names[k]);
        if path in acks && acks[path].Document? && ValidAck(acks[path].value, agent) {
          found := found + [acks[path].value];
        }
      }
      assert names[..|names|] == names;
      return Ok(found);
    }

    method ArchiveAck(agent: string, controlID: string, faults: IOFaults) returns (err: Option<ErrorCode>)
      modifies this`acks, this`acksArchive
      ensures (View(), err) == ArchiveAckStep(old(View()), agent, controlID, faults)
    {
      if !ValidID(agent) || !ValidID(controlID) {
        return Some(InvalidArgument);
      }
      var path := Path(agent, controlID);
      if path !in acks {
        return None;
      }
      if faults.write {
        return Some(IOFailure);
      }
      acksArchive := acksArchive[path := acks[path]];
      acks := acks - {path};
      return None;
    }
  }

  /* ---------- What the operations promise ---------- */

  const NO_FAULTS := IOFaults(false, false)

  ghost predicate Oldest(envelopes: seq<Envelope>) {
    forall i, j :: 0 <= i < j < |envelopes| ==> envelopes[i].createdAt <= envelopes[j].createdAt
  }

  lemma {:induction false} InsertAdds(sorted: seq<Envelope>, e: Envelope)
    ensures multiset(Insert(sorted, e)) == multiset(sorted) + multiset{e}
  {
    if sorted != [] {
      var init, last := sorted[..|sorted| - 1], sorted[|sorted| - 1];
      assert sorted == init + [last];
      InsertAdds(init, e);
    }
  }

  lemma {:induction false} InsertSorts(sorted: seq<Envelope>, e: Envelope)
    requires Oldest(sorted)
    ensures Oldest(Insert(sorted, e))
  {
    if sorted != [] && sorted[|sorted| - 1].createdAt > e.createdAt {
      var init, last := sorted[..|sorted| - 1], sorted[|sorted| - 1];
      InsertSorts(init, e);
      InsertAdds(init, e);
      LatestGoesLast(Insert(init, e), init, e, last);
    }
  }

  lemma LatestGoesLast(longer: seq<Envelope>, init: seq<Envelope>, e: Envelope, last: Envelope)
    requires Oldest(longer) && multiset(longer) == multiset(init) + multiset{e}
    requires e.createdAt <= last.createdAt && forall k :: 0 <= k < |init| ==> init[k].createdAt <= last.createdAt
    ensures Oldest(longer + [last])
  {
    forall k | 0 <= k < |longer|
      ensures longer[k].createdAt <= last.createdAt
    {
      assert longer[k] in multiset(longer);
    }
  }

  lemma {:induction false} ByTimeSorts(envelopes: seq<Envelope>)
    ensures Oldest(ByTime(envelopes)) && multiset(ByTime(envelopes)) == multiset(envelopes)
  {
    if envelopes != [] {
      var init, last := envelopes[..|envelopes| - 1], envelopes[|envelopes| - 1];
      assert envelopes == init + [last];
      ByTimeSorts(init);
      InsertSorts(ByTime(init), last);
      InsertAdds(ByTime(init), last);
    }
  }

  lemma {:induction false} ReadIsExact(m: Mail, agent: string, names: seq<string>, e: Envelope)
    ensures e in Read(m, agent, names) <==> exists k :: 0 <= k < |names| && Holds(m, agent, names[k], e)
  {
    if names != [] {
      var init, last := names[..|names| - 1], |names| - 1;
      ReadIsExact(m, agent, init, e);
      if exists k :: 0 <= k < |names| && Holds(m, agent, names[k], e) {
        var k :| 0 <= k < |names| && Holds(m, agent, names[k], e);
        assert k < last ==> Holds(m, agent, init[k], e);
      }
      if e in Read(m, agent, init) {
        var k :| 0 <= k < |init| && Holds(m, agent, init[k], e);
        assert Holds(m, agent, names[k], e);
      }
    }
  }

  /** A scan returns a valid envelope exactly when some listed file holds it, one
      bad file hiding no other, once per file and oldest first. */
  lemma ScanIsExact(m: Mail, agent: string, names: seq<string>, e: Envelope)
    ensures e in Scanned(m, agent, names) <==> exists k :: 0 <= k < |names| && Holds(m, agent, names[k], e)
    ensures Oldest(Scanned(m, agent, names))
    ensures multiset(Scanned(m, agent, names)) == multiset(Read(m, agent, names))
  {
    ReadIsExact(m, agent, names, e);
    ByTimeSorts(Read(m, agent, names));
    assert e in Scanned(m, agent, names) <==> e in multiset(Scanned(m, agent, names));
    assert e in Read(m, agent, names) <==> e in multiset(Read(m, agent, names));
  }

  /** A file of this agent's acknowledgements that holds this valid record. */
  predicate HoldsAck(m: Mail, agent: string, name: string, a: Acknowledgement) {
    Path(agent, name) in m.acks && m.acks[Path(agent, name)] == Document(a)
    && a.schemaVersion == 1 && a.controlID != "" && a.messageID != "" && a.recipient == agent
  }

  /** A scan returns a record exactly when some listed file holds it and it is
      valid for the scanned agent. */
  lemma {:induction false} AckScanIsExact(m: Mail, agent: string, names: seq<string>, a: Acknowledgement)
    ensures a in ScannedAcks(m, agent, names) <==> exists k :: 0 <= k < |names| && HoldsAck(m, agent, names[k], a)
  {
    if names != [] {
      var init, last := names[..|names| - 1], |names| - 1;
      AckScanIsExact(m, agent, init, a);
      if exists k :: 0 <= k < |names| && HoldsAck(m, agent, names[k], a) {
        var k :| 0 <= k < |names| && HoldsAck(m, agent, names[k], a);
        assert k < last ==> HoldsAck(m, agent, init[k], a);
      }
      if a in ScannedAcks(m, agent, init) {
        var k :| 0 <= k < |init| && HoldsAck(m, agent, init[k], a);
        assert HoldsAck(m, agent, names[k], a);
      }
    }
  }

  /** An acknowledgement is written exactly when its IDs are path segments, it
      names its writer and a message, and the file can be written; it is then what
      its agent's scan returns unless it is over the read bound. */
  lemma WrittenAckIsScannedExactly(m: Mail, agent: string, ack: Acknowledgement, faults: IOFaults, names: seq<string>)
    requires ack.controlID in names && (ack.schemaVersion == 0 || ack.schemaVersion == 1)
    ensures var (m', err) := WriteAckStep(m, agent, ack, faults);
            var sent := ack.(schemaVersion := 1);
            && (err.None? <==> && ValidID(agent) && ValidID(ack.controlID) && ack.recipient == agent
                               && ack.messageID != "" && !faults.write)
            && (err.Some? ==> m' == m)
            && (err.None? && EncodedAckSize(sent) <= MAX_ENVELOPE_BYTES ==> sent in ScannedAcks(m', agent, names))
            && (err.None? && EncodedAckSize(sent) > MAX_ENVELOPE_BYTES ==>
                  m'.acks == m.acks[Path(agent, ack.controlID) := Unread])
  {
    hide EncodedAckSize, ScannedAcks;
    var m' := WriteAckStep(m, agent, ack, faults).0;
    var sent := ack.(schemaVersion := 1);
    AckScanIsExact(m', agent, names, sent);
    var k :| 0 <= k < |names| && names[k] == ack.controlID;
    if WriteAckStep(m, agent, ack, faults).1.None? && EncodedAckSize(sent) <= MAX_ENVELOPE_BYTES {
      assert HoldsAck(m', agent, names[k], sent);
    }
  }

  /** Whatever the scan returns was submitted under the scanned agent's own name. */
  lemma {:induction false} ScannedAcksStayInScope(m: Mail, agent: string, names: seq<string>, k: nat)
    requires k < |ScannedAcks(m, agent, names)|
    ensures ScannedAcks(m, agent, names)[k].recipient == agent
    ensures exists j :: 0 <= j < |names| && Path(agent, names[j]) in m.acks
              && m.acks[Path(agent, names[j])] == Document(ScannedAcks(m, agent, names)[k])
  {
    var init := names[..|names| - 1];
    if k < |ScannedAcks(m, agent, init)| {
      ScannedAcksStayInScope(m, agent, init, k);
      var j :| 0 <= j < |init| && Path(agent, init[j]) in m.acks
        && m.acks[Path(agent, init[j])] == Document(ScannedAcks(m, agent, init)[k]);
      assert names[j] == init[j];
    }
  }

  /** The envelope as `Publish` writes it. */
  function Versioned(e: Envelope): Envelope {
    if e.schemaVersion == 0 then e.(schemaVersion := 1) else e
  }

  /** Publishing again what was just published changes nothing, and succeeds
      exactly when the envelope is over the read bound or names neither a task nor
      a message it answers; otherwise it is refused as a conflict. */
  lemma RepublishSucceedsExactly(m: Mail, messageID: string, envelope: Envelope, faults: IOFaults)
    requires PublishStep(m, messageID, envelope, faults).1.None?
    ensures var once := PublishStep(m, messageID, envelope, faults).0;
            var again := PublishStep(once, messageID, envelope, NO_FAULTS);
            && again.0 == once
            && (again.1.None? <==> Oversize(Versioned(envelope)) || (envelope.taskID.None? && envelope.replyTo.None?))
            && (again.1.Some? ==> again.1 == Some(Conflict))
  {
    hide EncodedSize;
    var sent := Versioned(envelope);
    var once := PublishStep(m, messageID, envelope, faults).0;
    var path := Path(sent.recipient, messageID);
    assert path in once.inbox && (once.inbox[path] == Written(sent) || once.inbox[path] == Document(sent));
    assert once.inbox[path := once.inbox[path]] == once.inbox;
  }

  /** After a publish that succeeded, the recipient's scan returns the envelope
      exactly when it is within the read bound, or was there to read before. */
  lemma PublishedIsScannedExactly(m: Mail, messageID: string, envelope: Envelope, faults: IOFaults, names: seq<string>)
    requires PublishStep(m, messageID, envelope, faults).1.None? && messageID in names
    ensures var sent := Versioned(envelope);
            sent in Scanned(PublishStep(m, messageID, envelope, faults).0, envelope.recipient, names)
            <==> !Oversize(sent) || sent in Scanned(m, envelope.recipient, names)
  {
    var sent, m' := Versioned(envelope), PublishStep(m, messageID, envelope, faults).0;
    forall name
      ensures Holds(m', sent.recipient, name, sent) <==>
              Holds(m, sent.recipient, name, sent) || (name == messageID && !Oversize(sent))
    {
      HoldsAfterPublish(m, messageID, envelope, faults, name);
    }
    hide Oversize, Scanned, PublishStep, Holds;
    ScanIsExact(m, sent.recipient, names, sent);
    ScanIsExact(m', sent.recipient, names, sent);
    var k :| 0 <= k < |names| && names[k] == messageID;
    assert !Oversize(sent) ==> Holds(m', sent.recipient, names[k], sent);
  }

  lemma HoldsAfterPublish(m: Mail, messageID: string, envelope: Envelope, faults: IOFaults, name: string)
    requires PublishStep(m, messageID, envelope, faults).1.None?
    ensures var sent, m' := Versioned(envelope), PublishStep(m, messageID, envelope, faults).0;
            Holds(m', sent.recipient, name, sent) <==>
            Holds(m, sent.recipient, name, sent) || (name == messageID && !Oversize(sent))
  {
    hide EncodedSize;
  }

  /** Such an envelope: a fresh one whose body is over the bound is published
      without error, published again without error whatever it names, and never
      returned to its recipient. */
  lemma OversizeIsPublishedUnread(e: Envelope, names: seq<string>)
    requires |e.body| > MAX_ENVELOPE_BYTES && ValidEnvelope(e) && ValidID(e.messageID) && ValidID(e.recipient)
    requires e.messageID in names
    ensures var (m, err) := PublishStep(NO_MAIL, e.messageID, e, NO_FAULTS);
            && err == None && m.inbox == map[Path(e.recipient, e.messageID) := Unread]
            && PublishStep(m, e.messageID, e, NO_FAULTS) == (m, None)
            && e !in Scanned(m, e.recipient, names)
  {
    LongBodyIsOversize(e);
    RepublishSucceedsExactly(NO_MAIL, e.messageID, e, NO_FAULTS);
    PublishedIsScannedExactly(NO_MAIL, e.messageID, e, NO_FAULTS, names);
    ScanIsExact(NO_MAIL, e.recipient, names, e);
  }

  /** Archiving moves, it never loses: over both directories no file disappears. */
  lemma ArchiveLosesNothing(m: Mail, messageID: string, listing: seq<string>, faults: IOFaults, path: Path)
    requires path in m.inbox || path in m.archive
    ensures var m' := ArchiveStep(m, messageID, listing, faults).0;
            && (path in m'.inbox || path in m'.archive)
            && Live(m', path) == Live(m, path)
  {
  }

  /** How an archiving ends: refused for its ID, failed by the disk with nothing
      moved, or with the first listed inbox that held the name no longer holding it
      and its archive holding the file. */
  lemma ArchiveEndsExactly(m: Mail, messageID: string, listing: seq<string>, faults: IOFaults)
    ensures var (m', err) := ArchiveStep(m, messageID, listing, faults);
            var held := exists k :: 0 <= k < |listing| && Path(listing[k], messageID) in m.inbox;
            && (err == Some(InvalidArgument) <==> !ValidID(messageID))
            && (err == Some(IOFailure) <==> ValidID(messageID) && (faults.read || (faults.write && held)))
            && (err.Some? ==> (err == Some(InvalidArgument) || err == Some(IOFailure)) && m' == m)
            && (err.None? && !held ==> m' == m)
            && (err.None? && held ==>
                  exists k :: 0 <= k < |listing| && Path(listing[k], messageID) in m.inbox
                    && (forall j :: 0 <= j < k ==> Path(listing[j], messageID) !in m.inbox)
                    && m'.inbox.Keys == m.inbox.Keys - {Path(listing[k], messageID)}
                    && m'.archive == m.archive[Path(listing[k], messageID) := m.inbox[Path(listing[k], messageID)]]
                    && m' == m.(inbox := m'.inbox, archive := m'.archive))
  {
  }

  /** How a publication ends: refused for what it names, failed by the disk, in
      conflict with another readable file in its place, or done. Only a new file
      changes anything, and only its own place. */
  lemma PublishEndsExactly(m: Mail, messageID: string, e: Envelope, faults: IOFaults)
    ensures var (m', err) := PublishStep(m, messageID, e, faults);
            var path, sent := Path(e.recipient, messageID), if e.schemaVersion == 0 then e.(schemaVersion := 1) else e;
            var named := && e.messageID == messageID && ValidID(messageID) && ValidID(e.recipient) && e.sender != ""
                         && sent.schemaVersion == 1 && !e.kind.UnknownKind?;
            var taken := path in m.inbox && m.inbox[path] != Unread;
            var same := taken && m.inbox[path] == Document(sent) && e.taskID.None? && e.replyTo.None?;
            && (err == Some(InvalidArgument) <==> !named)
            && (err == Some(Conflict) <==> named && !faults.read && taken && !same)
            && (err == Some(IOFailure) <==> named && (faults.read || (!taken && faults.write)))
            && (err.None? <==> named && !faults.read && (same || (!taken && !faults.write)))
            && (err.Some? || same ==> m' == m)
            && (err.None? && !same ==> m' == m.(inbox := m.inbox[path := Written(sent)]))
  {
    hide Oversize;
  }

  /** An archived acknowledgement is the file as it was, and no other moves. */
  lemma AckArchiveLosesNothing(m: Mail, agent: string, controlID: string, faults: IOFaults, path: Path)
    requires path in m.acks
    ensures var (m', err) := ArchiveAckStep(m, agent, controlID, faults);
            if err.None? && path == Path(agent, controlID)
            then path !in m'.acks && path in m'.acksArchive && m'.acksArchive[path] == m.acks[path]
            else path in m'.acks && m'.acks[path] == m.acks[path]
  {
  }

  /** The copy that counts: the inbox one while there is one. */
  function Live(m: Mail, path: Path): Content<Envelope>
    requires path in m.inbox || path in m.archive
  {
    if path in m.inbox then m.inbox[path] else m.archive[path]
  }
}
