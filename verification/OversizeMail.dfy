/** A message whose envelope is over the read bound: it is published, and its
    recipient's passes never see it, in any history. */
module OversizeMail {
  import opened Results
  import opened Domain
  import opened StateStore
  import opened StoreTheorems
  import opened Commands
  import opened Mailbox
  import opened Deliverer
  import opened MessageFacts
  import opened DeliveryOrder

  /** The message this command would send is over the bound. */
  predicate SendsOversize(cmd: Command, draw: Draw)
    requires cmd.SendMessage?
  {
    Oversize(Envelope(1, WORKSPACE, cmd.messageID, cmd.sender, cmd.recipient, cmd.kind, cmd.body, draw.now,
                      cmd.aboutTask, cmd.replyTo))
  }

  /** Every message sent under this ID is oversize, and no outsider writes an
      envelope that names it. */
  predicate OnlyOversize(move: Move, id: string) {
    && (move.OtherCommit? && move.cmd.SendMessage? && move.cmd.messageID == id ==> SendsOversize(move.cmd, move.draw))
    && (move.Drop? && move.content.Document? ==> move.content.value.messageID != id)
  }

  predicate OversizeMessage(m: Message, id: string) {
    m.id == id ==> Oversize(EnvelopeOf(m))
  }

  /** No version has processed it, and all show it oversize. */
  ghost predicate NeverShown(r: Records, id: string) {
    forall k :: 0 <= k < |r.messages| && r.messages[k].id == id ==>
      Oversize(EnvelopeOf(r.messages[k])) && r.messages[k].processedAt.None?
  }

  predicate NamesOther(content: Content<Envelope>, id: string) {
    content.Document? ==> content.value.messageID != id
  }

  predicate PassMisses(p: Pass, id: string) {
    match p
    case Delivering(messages, _) => forall k :: 0 <= k < |messages| ==> OversizeMessage(messages[k], id)
    case Ingesting(_, _, found, _) => forall k :: 0 <= k < |found| ==> found[k].messageID != id
  }

  ghost predicate VersionsHide(s: Store, id: string) {
    forall i :: 0 <= i < |s.disk.versions| ==> NeverShown(RecordsAt(s, i), id)
  }

  predicate MailHides(m: Mail, id: string) {
    forall path :: path in m.inbox ==> NamesOther(m.inbox[path], id)
  }

  ghost predicate Hidden(w: World, id: string) {
    && w.store.disk.Valid() && VersionsHide(w.store, id) && MailHides(w.mail, id)
    && forall i :: i in w.passes ==> PassMisses(w.passes[i], id)
  }

  /* ---------- Commits ---------- */

  lemma FactKeepsHidden(messageID: string, processed: bool, draw: Draw, r: Records, id: string)
    requires NeverShown(r, id) && (processed ==> messageID != id)
    requires ApplyDeliveryFact(messageID, processed, draw, r).Ok?
    ensures NeverShown(ApplyDeliveryFact(messageID, processed, draw, r).value.0, id)
  {
    hide Oversize;
    var r' := ApplyDeliveryFact(messageID, processed, draw, r).value.0;
    assert forall k :: 0 <= k < |r'.messages| ==> EnvelopeOf(r'.messages[k]) == EnvelopeOf(r.messages[k]);
  }

  lemma SendKeepsHidden(cmd: Command, actor: Caller, draw: Draw, r: Records, id: string)
    requires NeverShown(r, id) && cmd.SendMessage? && (cmd.messageID == id ==> SendsOversize(cmd, draw))
    requires ApplySend(cmd, actor, draw, r).Ok?
    ensures NeverShown(ApplySend(cmd, actor, draw, r).value.0, id)
  {
    hide Oversize;
  }

  lemma AcknowledgeKeepsHidden(messageID: string, actor: Caller, draw: Draw, r: Records, id: string)
    requires NeverShown(r, id) && ApplyAcknowledge(messageID, actor, draw, r).Ok?
    ensures NeverShown(ApplyAcknowledge(messageID, actor, draw, r).value.0, id)
  {
    hide Oversize;
    var r' := ApplyAcknowledge(messageID, actor, draw, r).value.0;
    assert forall k :: 0 <= k < |r'.messages| ==> EnvelopeOf(r'.messages[k]) == EnvelopeOf(r.messages[k]);
  }

  lemma OtherKeepsHidden(cmd: Command, actor: Caller, draw: Draw, r: Records, id: string)
    requires NeverShown(r, id) && !cmd.RecordPublished? && !cmd.RecordProcessed?
    requires cmd.SendMessage? && cmd.messageID == id ==> SendsOversize(cmd, draw)
    requires Apply(cmd, actor, draw, r).Ok?
    ensures NeverShown(Apply(cmd, actor, draw, r).value.0, id)
  {
    if cmd.SendMessage? {
      assert Apply(cmd, actor, draw, r) == ApplySend(cmd, actor, draw, r);
      SendKeepsHidden(cmd, actor, draw, r, id);
    } else if cmd.Acknowledge? {
      assert Apply(cmd, actor, draw, r) == ApplyAcknowledge(cmd.messageID, actor, draw, r);
      AcknowledgeKeepsHidden(cmd.messageID, actor, draw, r, id);
    } else {
      Footprint(cmd, actor, draw, r);
      assert Apply(cmd, actor, draw, r).value.0.messages == r.messages;
    }
    hide NeverShown, SendsOversize;
  }

  lemma CommitKeepsHidden(s: Store, req: CommitRequest, faults: Faults, id: string)
    requires s.disk.Valid() && VersionsHide(s, id)
    requires req.mutate(Now(s)).Ok? ==> NeverShown(req.mutate(Now(s)).value.0, id)
    ensures VersionsHide(CommitStep(s, req, faults).0, id)
  {
    hide NeverShown;
    var s' := CommitStep(s, req, faults).0;
    forall i | 0 <= i < |s'.disk.versions|
      ensures NeverShown(RecordsAt(s', i), id)
    {
      if i < |s.disk.versions| {
        assert RecordsAt(s', i) == RecordsAt(s, i);
      }
    }
  }

  lemma OtherCommitKeepsHidden(w: World, move: Move, id: string)
    requires Hidden(w, id) && move.OtherCommit? && Permitted(move) && OnlyOversize(move, id)
    ensures Hidden(Next(w, move), id)
  {
    if Apply(move.cmd, move.actor, move.draw, Now(w.store)).Ok? {
      OtherKeepsHidden(move.cmd, move.actor, move.draw, Now(w.store), id);
    }
    hide NeverShown, Apply, MailHides, PassMisses;
    CommitKeepsHidden(w.store, Submit(move.cmd, move.actor, move.draw, WORKSPACE, move.requestID, move.fingerprint),
                      move.faults, id);
  }

  lemma RecordingKeepsHidden(s: Store, messageID: string, processed: bool, env: Env, id: string)
    requires s.disk.Valid() && VersionsHide(s, id) && (processed ==> messageID != id)
    ensures var req := if processed then RecordProcessing(messageID, env) else RecordPublishing(messageID, env);
            VersionsHide(CommitStep(s, req, env.faults).0, id)
  {
    var req := if processed then RecordProcessing(messageID, env) else RecordPublishing(messageID, env);
    assert req.mutate(Now(s)) == ApplyDeliveryFact(messageID, processed, env.draw, Now(s));
    if ApplyDeliveryFact(messageID, processed, env.draw, Now(s)).Ok? {
      FactKeepsHidden(messageID, processed, env.draw, Now(s), id);
    }
    hide NeverShown, ApplyDeliveryFact;
    CommitKeepsHidden(s, req, env.faults, id);
  }

  /* ---------- Passes ---------- */

  lemma PublishKeepsHidden(m: Mail, message: Message, io: IOFaults, id: string)
    requires MailHides(m, id) && OversizeMessage(message, id)
    ensures MailHides(PublishStep(m, message.id, EnvelopeOf(message), io).0, id)
  {
    hide Oversize;
  }

  /** Nothing scanned is about it. */
  lemma ScanMisses(m: Mail, agent: string, names: seq<string>, id: string)
    requires MailHides(m, id)
    ensures forall k :: 0 <= k < |Scanned(m, agent, names)| ==> Scanned(m, agent, names)[k].messageID != id
  {
    hide Scanned;
    forall k | 0 <= k < |Scanned(m, agent, names)|
      ensures Scanned(m, agent, names)[k].messageID != id
    {
      var e := Scanned(m, agent, names)[k];
      ScanIsExact(m, agent, names, e);
      var j :| 0 <= j < |names| && Holds(m, agent, names[j], e);
      assert NamesOther(m.inbox[Path(agent, names[j])], id);
    }
  }

  lemma LoadedMisses(s: Store, id: string)
    requires s.disk.Valid() && VersionsHide(s, id)
    ensures PassMisses(Delivering(Loaded(s).messages, false), id)
  {
    assert NeverShown(Now(s), id);
    hide Oversize;
  }

  lemma DeliverKeepsHidden(w: World, move: Move, id: string)
    requires Hidden(w, id) && (move.BeginDeliver? || move.FileNext? || move.RecordFiled?)
    ensures Hidden(Next(w, move), id)
  {
    if move.BeginDeliver? {
      LoadedMisses(w.store, id);
    } else if move.id in w.passes && w.passes[move.id].Delivering? && w.passes[move.id].messages != [] {
      var p := w.passes[move.id];
      assert PassMisses(p, id) && OversizeMessage(p.messages[0], id);
      if move.FileNext? {
        PublishKeepsHidden(w.mail, p.messages[0], move.io, id);
      } else {
        RecordingKeepsHidden(w.store, p.messages[0].id, false, move.env, id);
      }
    }
    hide Oversize, OversizeMessage, NeverShown, MailHides, VersionsHide, PublishStep, CommitStep;
  }

  lemma IngestKeepsHidden(w: World, move: Move, id: string)
    requires Hidden(w, id) && (move.BeginIngest? || move.ScanNext? || move.RecordFound? || move.PutAway?)
    ensures Hidden(Next(w, move), id)
  {
    if move.id in w.passes && w.passes[move.id].Ingesting? {
      var p := w.passes[move.id];
      assert PassMisses(p, id);
      if move.ScanNext? {
        ScanMisses(w.mail, move.agent, move.scan.names, id);
      } else if move.RecordFound? && p.found != [] {
        RecordingKeepsHidden(w.store, p.found[0].messageID, true, move.env, id);
      } else if move.PutAway? && p.found != [] {
        ArchiveHides(w.mail, p.found[0].messageID, move.listing, move.io, id);
      }
    }
    hide NeverShown, MailHides, VersionsHide, ArchiveStep, CommitStep, Scanned;
  }

  lemma ArchiveHides(m: Mail, messageID: string, listing: seq<string>, io: IOFaults, id: string)
    requires MailHides(m, id)
    ensures MailHides(ArchiveStep(m, messageID, listing, io).0, id)
  {
  }

  /* ---------- Whole histories ---------- */

  lemma MoveKeepsHidden(w: World, move: Move, id: string)
    requires Hidden(w, id) && Permitted(move) && OnlyOversize(move, id)
    ensures Hidden(Next(w, move), id)
  {
    if move.OtherCommit? {
      OtherCommitKeepsHidden(w, move, id);
    } else if move.BeginDeliver? || move.FileNext? || move.RecordFiled? {
      DeliverKeepsHidden(w, move, id);
    } else if move.BeginIngest? || move.ScanNext? || move.RecordFound? || move.PutAway? {
      IngestKeepsHidden(w, move, id);
    } else {
      OutsideKeepsHidden(w, move, id);
    }
  }

  lemma OutsideKeepsHidden(w: World, move: Move, id: string)
    requires Hidden(w, id) && OnlyOversize(move, id) && (move.Resolve? || move.Drop? || move.Crash?)
    ensures Hidden(Next(w, move), id)
  {
    hide NeverShown;
    var s := Next(w, move).store;
    assert forall i :: 0 <= i < |s.disk.versions| ==> RecordsAt(s, i) == RecordsAt(w.store, i);
  }

  lemma {:induction false} EveryWorldHides(moves: seq<Move>, id: string)
    requires forall k :: 0 <= k < |moves| ==> OnlyOversize(moves[k], id)
    ensures Hidden(WorldAfter(moves), id)
  {
    hide Hidden, Next, OnlyOversize;
    if moves == [] {
      NewWorldHides(id);
    } else {
      var before, move := WorldAfter(moves[..|moves| - 1]), moves[|moves| - 1];
      EveryWorldHides(moves[..|moves| - 1], id);
      if Permitted(move) {
        MoveKeepsHidden(before, move, id);
      }
    }
  }

  lemma NewWorldHides(id: string)
    ensures Hidden(NEW_WORLD, id)
  {
  }

  /** THE size theorem: if every message sent under an ID is over the read bound
      and no outsider writes an envelope naming it, then in every version of every
      history of passes, commands, files and crashes it is unprocessed, and no
      inbox file can be read back as it: publishing it succeeds, ingesting never. */
  lemma OversizeIsNeverIngested(moves: seq<Move>, id: string, i: nat)
    requires forall k :: 0 <= k < |moves| ==> OnlyOversize(moves[k], id)
    requires i < |WorldAfter(moves).store.disk.versions|
    ensures !ProcessedIn(RecordsAt(WorldAfter(moves).store, i), id)
    ensures forall path :: path in WorldAfter(moves).mail.inbox && WorldAfter(moves).mail.inbox[path].Document? ==>
              WorldAfter(moves).mail.inbox[path].value.messageID != id
  {
    EveryWorldHides(moves, id);
    var w := WorldAfter(moves);
    assert NeverShown(RecordsAt(w.store, i), id);
    assert forall path :: path in w.mail.inbox ==> NamesOther(w.mail.inbox[path], id);
  }
}
