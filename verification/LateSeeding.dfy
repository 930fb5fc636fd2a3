/** A floor seeded late, from a revision loaded early, in a process whose commits
    could not load the floor themselves. */
module LateSeeding {
  import opened Results
  import opened Domain
  import opened StateStore
  import opened StoreTheorems
  import opened Publication
  import opened Cursors
  import EventBus

  /** `n` commits were announced, each without a floor. */
  ghost predicate Floorless(p: Process, n: nat) {
    && Sound(p) && p.held.None? && p.openedAt == 0 && |p.store.disk.versions| == n + 1
    && p.bus == EventBus.Unseeded(n)
    && forall v :: 1 <= v <= n ==> v in p.successes
  }

  /** The next such commit is held, about to be announced. */
  ghost predicate Begun(p: Process, n: nat) {
    && Sound(p) && p.held == Some(Held(n + 1, [Event("", "", [], n + 1)], true))
    && p.openedAt == 0 && |p.store.disk.versions| == n + 2 && p.bus == EventBus.Unseeded(n)
    && forall v :: 1 <= v <= n ==> v in p.successes
  }

  lemma BeginFloorless(p: Process, n: nat, req: CommitRequest)
    requires Floorless(p, n) && req.workspaceID != "" && Applies(p.store, req, NO_FAULTS)
    requires forall r :: req.mutate(r) == Ok((r, [ANY_EVENT]))
    ensures Begun(Next(p, Begin(req, true, NO_FAULTS)), n)
  {
    BeginMoveKeeps(p, req, true, NO_FAULTS);
    SoundStore(p);
    BeginHolds(p, n, req);
    var held := Next(p, Begin(req, true, NO_FAULTS));
    assert held.successes == p.successes && held.openedAt == p.openedAt;
    hide Sound, Next, EventBus.Unseeded;
  }

  lemma BeginHolds(p: Process, n: nat, req: CommitRequest)
    requires WellFormed(p.store) && |p.store.disk.versions| == n + 1 && p.held.None?
    requires Applies(p.store, req, NO_FAULTS) && forall r :: req.mutate(r) == Ok((r, [ANY_EVENT]))
    ensures var held := Next(p, Begin(req, true, NO_FAULTS));
            && held.held == Some(Held(n + 1, [Event("", "", [], n + 1)], true))
            && |held.store.disk.versions| == n + 2
            && held.bus == p.bus && held.successes == p.successes && held.openedAt == p.openedAt
  {
    hide WellFormed, CommitStep, Stamp;
    OneEventCommit(p.store, req, n);
  }

  lemma OneEventCommit(s: Store, req: CommitRequest, n: nat)
    requires WellFormed(s) && |s.disk.versions| == n + 1 && Applies(s, req, NO_FAULTS)
    requires forall r :: req.mutate(r) == Ok((r, [ANY_EVENT]))
    ensures |CommitStep(s, req, NO_FAULTS).0.disk.versions| == n + 2
    ensures CommitStep(s, req, NO_FAULTS).1 == Ok((Receipt(req.requestID, n + 1), [Event("", "", [], n + 1)]))
    ensures Stamp([Event("", "", [], n + 1)], n + 1) == [Event("", "", [], n + 1)]
  {
    VersionsCountRevisions(s, n);
    hide WellFormed;
    assert Stamp([ANY_EVENT], n + 1) == [Event("", "", [], n + 1)];
    assert Stamp([Event("", "", [], n + 1)], n + 1) == [Event("", "", [], n + 1)];
  }

  lemma FinishFloorless(p: Process, n: nat)
    requires Begun(p, n)
    ensures Floorless(Next(p, Finish), n + 1)
  {
    FinishKeeps(p);
    SoundStore(p);
    hide Sound, EventBus.Unseeded, EventBus.Publish;
    EventBus.OneMoreCommit(n);
    assert Next(p, Finish).bus == EventBus.Unseeded(n + 1);
  }

  lemma OneMoreFloorless(p: Process, n: nat, req: CommitRequest)
    requires Floorless(p, n) && p.store.disk.Valid() && req.workspaceID != "" && Applies(p.store, req, NO_FAULTS)
    requires forall r :: req.mutate(r) == Ok((r, [ANY_EVENT]))
    ensures Floorless(Next(Next(p, Begin(req, true, NO_FAULTS)), Finish), n + 1)
  {
    hide Floorless, Begun, Next;
    BeginFloorless(p, n, req);
    FinishFloorless(Next(p, Begin(req, true, NO_FAULTS)), n);
  }

  /** Any number of such commits can happen. */
  lemma {:induction false} FloorlessCommits(n: nat) returns (moves: seq<Move>)
    ensures Floorless(ProcessAfter(Open(NEW_STORE), moves), n)
  {
    hide Next, Sound;
    if n == 0 {
      moves := [];
      NothingAnnounced();
    } else {
      moves := FloorlessCommits(n - 1);
      var p := ProcessAfter(Open(NEW_STORE), moves);
      var req := FreshRequest(p.store);
      OneMoreFloorless(p, n - 1, req);
      OneMore(Open(NEW_STORE), moves, Begin(req, true, NO_FAULTS));
      OneMore(Open(NEW_STORE), moves + [Begin(req, true, NO_FAULTS)], Finish);
      moves := moves + [Begin(req, true, NO_FAULTS)] + [Finish];
    }
  }

  lemma NothingAnnounced()
    ensures Floorless(Open(NEW_STORE), 0)
  {
    OpenIsSound(NEW_STORE);
    assert EventBus.Commits(0) == [];
  }

  /** In such a process a floor seeded from an early load lets a subscriber in
      whose cursor is below the evicted commits: it is accepted, stays live, and
      was not sent a commit that took effect here, succeeded, and is above it. */
  lemma LateSeedLosesCommits(n: nat, revision: nat, id: nat, cursor: string) returns (moves: seq<Move>)
    requires revision < EventBus.Evicted(n) && EventBus.ParseCursor(cursor) == Some(revision)
    ensures var p := ProcessAfter(Open(NEW_STORE), moves);
            var late := Next(p, SeedLate(revision));
            var q := Next(late, Subscribe(id, cursor));
            && Sound(p) && !p.bus.seeded && p.openedAt <= revision < |p.store.disk.versions|
            && EventBus.Subscribe(late.bus, id, cursor).1 == None && q.bus.subscribers[id].live
            && revision + 1 in q.successes && At(q.bus.subscribers[id].sent, revision + 1) != q.successes[revision + 1]
  {
    moves := FloorlessCommits(n);
    var p := ProcessAfter(Open(NEW_STORE), moves);
    assert revision + 1 in p.successes && p.successes[revision + 1] != [];
    assert p.bus == EventBus.Unseeded(n);
    BufferIsLate(n, revision);
    hide ProcessAfter, Sound, EventBus.Commits;
  }

  /** What is left in the buffer is above every evicted commit. */
  lemma BufferIsLate(n: nat, revision: nat)
    requires revision < EventBus.Evicted(n)
    ensures At(EventBus.Above(EventBus.Unseeded(n).buffer, revision), revision + 1) == []
  {
    var buffer := EventBus.Unseeded(n).buffer;
    forall i | 0 <= i < |buffer|
      ensures buffer[i].revision > EventBus.Evicted(n)
    {
      assert buffer[i] == EventBus.Commits(n)[EventBus.Evicted(n) + i];
    }
    EventBus.AboveOfHigher(buffer, revision);
    AtNothing(buffer, revision + 1);
  }
}
