# Harnessing 101: verified model

Harnessing 101 coordinates tasks, messages and agent processes for one
workspace, and promises to survive crashes at any moment. This project models
its core in Dafny and proves what the parts promise together:

- the durable state store: one state file replaced by rename, a receipt ledger
  inside it, a directory fsync that alone makes a rename survive a power loss;
- the command engine over that ledger: tasks and review, messages, runs, each
  command a sequence of commits with a possible crash between any two;
- the event bus, and publication under the commit mutex;
- the process supervisor's termination race, its polling loops, and the Linux
  group-membership scan;
- the file mailbox, its read bound on encoded sizes, and the deliverer that
  drives delivery facts;
- the run output journal and its paging.

A disk is a sequence of state-file versions with a durable index: a rename
appends a version, a directory fsync moves the index to the end, and a crash
falls back to any version at or after it. Objects the program updates in place
(`FileStore`, `EventBus`, both `Engine` classes, `FileMailbox`,
`FileDeliverer`, `RunJournal`) are classes whose methods are tied to
specification functions; what is promised is then proved of those functions
over every history. Interleavings are state machines whose moves are single
commits, single file operations, or (for the supervisor) single statements.
System calls, clocks, random IDs, fsync results, directory listings and
membership scans are inputs of the moves.

`dafny verify dfyconfig.toml` checks everything. A reader may start from the
theorems: `StoreTheorems.AcknowledgedReceiptSurvives`,
`ExactlyOnce.StoreRefinesService`, `Publication.ObserverSeesEverySuccess`,
`StreamExactness.StreamEndsExactly`, `ToldChanges.ChangeReachesStreams`,
`Cursors.CursorIsServedExactly`, `EngineStreams.EngineResumeIsSeamless`,
`CommandEffects.SucceedsExactly`, `CommandEvents.CommandCarriesItsEvent`,
`TaskLifecycle.EveryVersionIsReviewSound`,
`Accountability.DoneWasReportedAndAccepted`, `RunDispatch.StartedAtMostOnce`,
`RunOutcomes.StartRecordsItsOutcome`, `RunOutcomes.StopRecordsItsOutcome`,
`RunLifecycle.OneActiveRunPerAgent`, `Reconciliation.WholePassSettlesEveryRun`,
`SupervisorSafety.RaceHasOneWinner`, `SupervisorOutcome.VerdictIsExact`,
`SupervisorOutcome.EscalatesExactly`, `SupervisorLiveness.ClaimingStopFinalizes`,
`DeliveryOrder.FactsFollowFiles`, `DeliveryPaths.SuccessfulPassIngestsAll`,
`Journal.PageIsFull` and `Journal.PagingReassembles`.

Where the code does less than its comments say, the code is followed, and the
exact condition under which the stronger claim holds is proved, with an input
that fails it:

- receipt keys scope a request to its caller only while no caller ID holds a
  NUL (`StateStore.SharedKeyExactlyWhenOverlapping`);
- a cursor from an earlier process is not always reported expired, and one kept
  from a history a power loss took away hides later commits: an accepted cursor
  is served if and only if it is not above the store's revision
  (`Cursors.CursorIsServedExactly`, `Cursors.LostCursorIsAccepted`);
- seeding the floor after publications have started keeps the bus sound only
  from a revision no lower than what evictions raised the floor to
  (`EventBus.SeedKeepsExactly`, `LateSeeding.LateSeedLosesCommits`);
- resuming from the last received revision repeats or skips nothing only when
  no multi-event batch was cut (`EventBus.ResumeContinuesExactly`), which no
  command of the engine can cause (`EngineStreams.EngineResumeIsSeamless`);
- a replay that confirms an uncertain commit publishes its events only if
  nothing newer was published first; otherwise no stream ever receives them
  (`LateConfirmation.ConfirmedLateIsPublishedExactly`,
  `LateConfirmation.LateConfirmationIsLost`);
- a replayed `StopRun` runs none of its checks and overwrites the run's state
  unseen (`RunLifecycle.ReplayedStopKeepsOneActiveExactly`,
  `RunLifecycle.RestartExposesReplay`);
- an event does not always mean a change: a command that writes again what was
  there announces it all the same (`CommandEvents.ChangesAreAnnounced`,
  `CommandEvents.RenamedToItself`);
- a repeated `StopRun` opens a second stop operation of the same ID, and its
  outcome closes the first one again and leaves its own running
  (`RunOutcomes.StopRecordsItsOutcome`);
- a `Stop` that looks the record up before `Start` has forgotten a fast exit can
  signal a leader that `Start` has reaped, even if nobody had called before the
  reap (`SupervisorStart.SilentExactly`, `SupervisorStart.ReapOpensWindow`,
  `SupervisorStart.StopInWindowSignals`);
- an envelope over the read bound is published without error and read by nobody,
  so its message is never processed (`Mailbox.PublishedIsScannedExactly`,
  `OversizeMail.OversizeIsNeverIngested`);
- republishing an identical envelope succeeds only without optional IDs or over
  the read bound, so a crash between writing a file and recording it can stop
  delivery for good (`Mailbox.RepublishSucceedsExactly`,
  `DeliveryOutcomes.InterruptedDeliveryStaysStuck`); so can a message whose IDs
  are no path segments (`FaultFreeDelivery.FaultFreePassSucceedsExactly`,
  `DeliveryOutcomes.SlashIDIsAdmitted`);
- an acknowledgement in a file not named by its control ID stays pending after it
  was taken (`DeliveryOutcomes.AckFileStaysExactly`);
- an acknowledged journal append is readable only when the file ended in a
  newline, and one whose sync or close failed is readable without being
  acknowledged (`Journal.AcknowledgedIsReadableExactly`,
  `Journal.UnsyncedIsReadButNotAcknowledged`, `Journal.CapturedExactly`).

## Model

| member | source | states |
|---|---|---|
| StateStore.SharedKeyExactlyWhenOverlapping | internal/adapters/statestore/file.go:169-174 | two callers can share a ledger key if and only if one caller ID, ended by NUL, begins the other |
| StateStore.NulFreeCallersAreIsolated | internal/adapters/statestore/file.go:169-174 | distinct caller IDs without NUL never reach one another's receipts |
| StateStore.ReceiptKeyScopesRequests | internal/adapters/statestore/file.go:169-174 | under one caller, distinct request IDs never share a receipt |
| StateStore.FileStore.Load | internal/adapters/statestore/file.go:176-188 | an unnamed state file reads as the empty snapshot, any other as it is on disk |
| StateStore.FileStore.WriteLocked | internal/adapters/statestore/file.go:362-408 | an error means nothing was renamed; otherwise the result says exactly whether the rename is known to be durable |
| StateStore.FileStore.ConfirmDurable | internal/adapters/statestore/file.go:272-290 | a replay syncs only above the process's own durable revision and reports uncertainty rather than an unsynced receipt |
| StateStore.FileStore.Commit | internal/adapters/statestore/file.go:190-263 | replay, conflict, refusal, failed write, uncertain and durable commit each leave exactly the specified disk and reply |
| StateStore.FileStore.ResolveRequest | internal/adapters/statestore/file.go:308-323 | a known request is answered only after its receipt is confirmed durable, an unknown one is NotFound |
| StoreTheorems.VersionsCountRevisions | internal/adapters/statestore/file.go:226-238 | in every version the ledger size equals the revision and receipt revisions lie in 1..revision |
| StoreTheorems.RevisionsAreDistinct | internal/adapters/statestore/file.go:226-238 | no two ledger keys hold the same revision |
| StoreTheorems.EveryRevisionHasAReceipt | internal/adapters/statestore/file.go:226-238 | every revision from 1 up has a receipt, so receipts biject with revisions |
| StoreTheorems.ReceiptsPersist | internal/adapters/statestore/file.go:200-238 | a receipt is in every version from its own revision on, unchanged, and in none before |
| StoreTheorems.CommitKeeps | internal/adapters/statestore/file.go:190-263 | one commit adds at most one version, success implies the receipt is durable, and an applied commit that fails reports the uncertain revision |
| StoreTheorems.RejectedMutationLeavesDisk | internal/adapters/statestore/file.go:213-240 | a mutation that fails, or whose file never lands, changes nothing |
| StoreTheorems.ResolveKeeps | internal/adapters/statestore/file.go:308-323 | resolving never changes a version, and its receipt is durable when it is returned |
| StoreTheorems.DurablePrefixSurvives | internal/adapters/statestore/file.go:392-407 | every version at or below the durable index outlives any further calls and crashes |
| StoreTheorems.DurableRevisionIsSound | internal/adapters/statestore/file.go:53-86 | within one process `durableRevision` never falls and never exceeds what the disk guarantees, so skipping the fsync below it is sound |
| StoreTheorems.AcknowledgedReceiptSurvives | internal/adapters/statestore/file.go:244-323 | a receipt returned without error, fresh, replayed or resolved, survives every later crash with every version up to it |
| ExactlyOnce.StoreIsFoldOfLog | internal/adapters/statestore/file.go:190-262 | in every history each version's records are the in-order fold of the requests that took effect, and acknowledged ones are durable |
| ExactlyOnce.NoKeyAppliesTwice | internal/adapters/statestore/file.go:200-238 | no ledger key takes effect twice in one surviving history |
| ExactlyOnce.LedgerIsLog | internal/adapters/statestore/file.go:226-238 | a version's ledger holds exactly the first effects of the log, with the replies they were given |
| ExactlyOnce.DurableRevisionIsTold | internal/adapters/statestore/file.go:244-290 | in every history the durable revision a process keeps in memory is exactly the newest revision it has told some caller about since it opened |
| ExactlyOnce.StoreRefinesService | internal/adapters/statestore/file.go:190-323 | every call and crash is a step of an exactly-once service whose log, and what it has told, decide each answer: a known key gets its one reply, a conflict exactly when the fingerprint differs, and uncertainty exactly when the sync fails and nobody was told of it or anything newer; an unknown one gets the mutation's refusal or a new entry |
| ExactlyOnce.WorkspaceIsFirstNamed | internal/adapters/statestore/file.go:215-219 | in every history every version is for the first workspace its requests named |
| EventBus.EventBus.EnsureFloor | internal/core/task/events.go:82-102 | the floor is seeded once, from the loaded revision, and a failed load changes nothing |
| EventBus.EventBus.Evict | internal/core/task/events.go:137-143 | exactly the oldest excess events leave and the floor rises over each of them |
| EventBus.EventBus.FanOut | internal/core/task/events.go:144-167 | one subscriber gets the batch above its cursor until its queue of 256 is full, and is then disconnected |
| EventBus.EventBus.PublishEvents | internal/core/task/events.go:110-167 | buffer, floor, last revision and every subscriber end as the specification says, and a batch at or below the last revision changes nothing |
| StreamExactness.DeliversExactly | internal/core/task/events.go:144-167 | a live stream is offered exactly the batch's events above its cursor, in order, stays live if and only if they and its undrained events together number at most 256, and is otherwise left with a full queue |
| StreamExactness.StreamEndsExactly | internal/core/task/events.go:20-167 | in every history a live stream ends if and only if it is cancelled or an accepted batch offers it more than its queue has room for |
| StreamExactness.ReceiveTakesNext | internal/core/task/events.go:192-212 | receiving takes the one next event off that stream and changes nothing else |
| StreamExactness.EveryBusIsRecent | internal/core/task/events.go:134-143 | in every history the buffer is the newest 256 events of the log and the floor the newest revision no longer among them |
| StreamExactness.CursorAcceptedExactly | internal/core/task/events.go:176-212 | a cursor is accepted if and only if it parses, is not below the seed, and every event above it is still among the newest 256 |
| EventBus.EventBus.SubscribeAfter | internal/core/task/events.go:176-212 | a malformed or expired cursor is refused, an accepted one is seeded with the buffered events above it |
| EventBus.PublishKeeps | internal/core/task/events.go:110-167 | publishing keeps the floor over every evicted event and every stream equal to the filter of the log |
| EventBus.DeliverAgrees | internal/core/task/events.go:144-167 | a live subscriber stays sent exactly the log above its cursor, a disconnected one a prefix of it, within its queue capacity |
| EventBus.SeedKeepsExactly | internal/core/task/events.go:82-102 | seeding keeps the bus sound if and only if the floor that evictions have raised is not above the loaded revision |
| EventBus.LateSeedLosesEvents | internal/core/task/events.go:82-199 | a bus that evicted before being seeded from an earlier revision accepts a cursor whose next events are gone |
| LateSeeding.LateSeedLosesCommits | internal/core/task/events.go:82-199 | a process whose commits could not load the floor, seeded late from an early load, accepts a cursor and leaves its live stream without a commit above it that succeeded |
| EventBus.AcceptedCursorMissesNothing | internal/core/task/events.go:186-199 | an accepted cursor's backlog is the whole log above it and fits the queue, whatever was evicted |
| EventBus.EveryStreamAgrees | internal/core/task/events.go:110-212 | in every history of a bus seeded first, each stream agrees with the filter of the publication log |
| EventBus.ResumeContinuesExactly | internal/core/task/events.go:186-212 | resuming from the last received revision has no gap and no repeat if and only if no batch was cut |
| EventBus.SingletonBatchesAreNeverCut | internal/core/task/events.go:186-212 | with one event per commit no batch can be cut |
| EventBus.ResumeIsSeamless | internal/core/task/events.go:176-212 | with one event per commit, resubscribing after a drained disconnect is either refused as expired or continues exactly |
| EngineStreams.CommandEmitsOne | internal/core/task/engine.go:122-1286 | whatever the command and whatever it changed, its commit carries at most one event |
| CommandEffects.SucceedsExactly | internal/core/task/engine.go:122-1286 | a command succeeds if and only if none of its listed obstacles stands in the records or its arguments, and its error names one that does, or a failed ID source |
| CommandEvents.CommandCarriesItsEvent | internal/core/task/engine.go:122-1412 | a successful command whose fact was there already changes nothing and is silent; any other makes exactly its own change to the records and carries exactly one event, with the drawn ID, its own kind and the subjects of that change |
| CommandEvents.ChangesAreAnnounced | internal/core/task/engine.go:122-1412 | no change is silent and no silence a change; an event without a change comes only from a command that wrote again what was there |
| CommandEvents.RenamedToItself | internal/core/task/engine.go:536-574 | such an event: an agent renamed to its own name at the instant of its last update |
| CommandEvents.EventNamesEdge | internal/core/task/engine.go:160-353 | the kind of event and its subjects are those of the edge the task took: accepted and rejected name the decided result, reported the new one, the rest only the task |
| EngineStreams.EveryLedgerIsSingle | internal/adapters/statestore/file.go:226-238 | every ledger that any history of engine commits and crashes leaves holds at most one event an entry, so replays carry no more |
| EngineStreams.EngineResumeIsSeamless | internal/core/task/events.go:176-212 | in any process of a workspace only the engine writes, resubscribing after a drained disconnect is refused as expired or continues exactly |
| Publication.Engine.Commit | internal/core/task/engine.go:1414-1465 | floor, store commit and publication of the stamped events happen in that order, and only a success with events is published |
| Publication.CommitIsBeginThenFinish | internal/core/task/engine.go:1414-1465 | an uninterrupted `commit` is its two moves in a row, so the interleavings only add what others do between the store commit and the publication |
| Publication.FloorIsLoadedOnce | internal/core/task/engine.go:1414-1430 | the first commit whose load succeeds puts the floor exactly at the revision the store then has, and nothing later lowers it |
| Publication.MoveKeeps | internal/core/task/engine.go:1414-1465 | every move of committers and observers keeps store, bus and announced successes consistent |
| Publication.EveryProcessIsSound | internal/core/task/engine.go:1414-1465 | every interleaving in one process keeps announced successes equal to the log at their revisions |
| Publication.ObserverSeesEverySuccess | internal/core/task/engine.go:1414-1465 | in every interleaving a live stream is in commit order and holds every event of every fresh success above its cursor |
| ToldChanges.ChangeReachesStreams | internal/core/task/engine.go:1400-1465 | when a fresh engine commit succeeds and changed the records, then in every interleaving and continuation a stream live below its revision was sent, for that revision, exactly the one event that tells of the change |
| Cursors.CursorIsServedExactly | internal/core/task/events.go:176-212 | a subscriber with an accepted cursor is sent every later success in every continuation if and only if the cursor is not above the store's revision at that moment |
| Cursors.LostCursorIsAccepted | internal/core/task/events.go:186-199 | the cursor of a commit whose sync failed, and which a power loss then took, is accepted by the reopened process and not served |
| Publication.CursorNamesRevision | internal/adapters/statestore/file.go:226-238 | the cursor stored in a version parses back to that version's revision |
| Publication.SnapshotCursorResumes | internal/core/task/events.go:176-199 | subscribing from a snapshot's cursor starts at its revision unless the bus says it expired |
| Publication.ReplayAddsNothing | internal/core/task/events.go:129-132 | a replay of a success, or of a request from before this process opened, adds nothing to any stream |
| LateConfirmation.ConfirmedLateIsPublishedExactly | internal/core/task/engine.go:1431-1463 | for a commit this process left uncertain at revision v and has not published, a later replay that succeeds publishes its events if and only if nothing above v was published first, and otherwise leaves the log as it was |
| LateConfirmation.PassedOverIsNeverSent | internal/core/task/events.go:129-132 | a revision passed over by a newer publication is sent to no stream, however the process goes on |
| LateConfirmation.LateConfirmationIsLost | internal/core/task/engine.go:1431-1463 | a run in which a commit loses its sync, a newer one is published, and the replay of the first returns success and is never published |
| Publication.OutOfOrderPublicationLoses | internal/core/task/engine.go:1415-1420 | without the commit mutex, publishing out of order loses the earlier commit's events |
| Commands.Find | internal/core/task/engine.go:1355-1371 | a lookup returns the first record with the ID, and fails only when there is none |
| Commands.FindActiveRun | internal/core/task/engine.go:1140-1151 | the agent's first run in Starting, Running, Stopping or RecoveryRequired is reported, exactly when it has one |
| Accountability.EveryStatusChangeIsAuthorized | internal/core/task/engine.go:122-349 | between any two consecutive versions of any history a task changes only along one of the seven edges of the status diagram, by the command for that edge on this task, under the caller it calls for, one revision on, recorded with its claimed author |
| Accountability.DoneWasReportedAndAccepted | internal/core/task/engine.go:226-349 | the result a Done task shows was reported by its assignee with artifacts, stood unchanged until a human reviewer accepted that very result, and nothing has changed since |
| Accountability.EveryVerdictHasItsReviewer | internal/core/task/engine.go:289-353 | every decided result was decided once, while pending, by a reviewer's own command, and carries that verdict, reason and author ever since |
| Accountability.EveryMessageWasSent | internal/core/task/engine.go:619-674 | every message in every version was sent by one commit when its ID was new and its parties and references existed, and still says exactly what was asked |
| Accountability.EveryProfileWasApproved | internal/core/task/engine.go:710-740 | every profile was approved by a human reviewer with exactly these arguments |
| Accountability.EveryRunWasAdmitted | internal/core/task/engine.go:773-851 | every run was admitted by its own agent while that agent had no active run, under a profile that a human reviewer had approved before, for the executable that profile names |
| TaskLifecycle.TransitionKeeps | internal/core/task/engine.go:167-220 | a generic transition cannot reach review states, so it keeps tasks and results paired and moves one task by one revision |
| TaskLifecycle.ReportKeeps | internal/core/task/engine.go:226-280 | reporting adds the one pending result its task now awaits |
| TaskLifecycle.DecisionKeeps | internal/core/task/engine.go:289-353 | a decision settles the result its task awaits, by a reviewer, and never one already decided |
| TaskLifecycle.CommandKeeps | internal/core/task/engine.go:122-349 | every admitted command keeps review soundness and moves a task by at most one revision |
| TaskLifecycle.EveryVersionIsReviewSound | internal/core/task/engine.go:167-353 | in every version of every history a waiting task shows a pending result, a Done one a result a reviewer accepted, and every pending result is awaited |
| TaskLifecycle.PendingMatchesWaiting | internal/core/task/engine.go:1329-1353 | the pairing of pending results and waiting tasks is one to one |
| TaskLifecycle.HistoryDeterminesTask | internal/core/task/engine.go:205-213 | along one history a task with unchanged revision is unchanged, and a decided result never changes |
| TaskLifecycle.RevisionDeterminesTask | internal/core/task/engine.go:142-151 | in one surviving history task ID and revision together determine the whole task record |
| TaskLifecycle.DecisionBindsWhatWasSeen | internal/core/task/engine.go:1334-1339 | a decision bound to revision v decides exactly the pending result anyone saw at v |
| RunDispatch.CommandKeepsRuns | internal/core/task/engine.go:836-1059 | no command removes a run, changes whose it is or its profile, or clears its dispatch marker |
| RunDispatch.MarkerSucceeded | internal/core/task/engine.go:863-901 | a marker commit with a fresh ID that succeeds marked the run for the first time, durably |
| RunDispatch.MoveKeeps | internal/core/task/engine.go:808-965 | every step of any `StartRun`, replay, other commit, lost sync or crash keeps at most one right to start per run |
| RunDispatch.EveryWorldIsSound | internal/core/task/engine.go:808-965 | in every history each Start made, and each still to be made, has its own durable marker |
| RunDispatch.StartedAtMostOnce | internal/core/task/engine.go:808-917 | in every history the supervisor's Start is called at most once per run ID, after a marker no later crash can lose |
| Environments.DispatchLeavesNobodyOut | internal/adapters/statestore/file.go:190-323 | every history of commands, look-ups and crashes a store can have is one of the histories this holds of |
| RunDispatch.SpawnFollowsDurableMarker | internal/core/task/engine.go:901-917 | at the moment of the Start call the marker is already durable |
| RunCommands.Engine.StartRun | internal/core/task/engine.go:773-973 | an uninterrupted `StartRun` is a path through the dispatch protocol, early returns included |
| RunOutcomes.StartRecordsItsOutcome | internal/core/task/engine.go:773-973 | after an admitted `StartRun` that meets no fault, the store holds one more run and one more operation and nothing else new: Exited with the reason and Failed if Start failed, Running and Succeeded otherwise; Start was called once and the call returns nil if and only if it succeeded |
| StartSerialized.StartIsSerialized | internal/core/task/engine.go:773-973 | whatever its commits, the ID source and Start answer, an uninterrupted `StartRun` leaves the store as its moves do in the model of one command at a time |
| RunCommands.Engine.DispatchRun | internal/core/task/engine.go:858-917 | after the intent, Start is reached only past a successful marker commit |
| RunCommands.Engine.Observe | internal/core/task/engine.go:923-973 | the observation records the Start outcome and the call reports it, or the commit's own failure |
| RunCommands.Engine.StopRun | internal/core/task/engine.go:987-1069 | Stop is called exactly when the intent commit succeeded, and the error is exactly the first of refusal, intent commit, ID source, outcome commit and failed Stop |
| RunOutcomes.StopRecordsItsOutcome | internal/core/task/engine.go:987-1069 | after an accepted `StopRun` that meets no fault, the run is Exited as stopped if Stop confirmed it and RecoveryRequired otherwise, and the first stop operation of its ID says so, which on a repeated stop is not its own |
| RunOutcomes.EveryLogNamesOperations | internal/core/task/engine.go:839-1010 | in every history of engine commands each operation belongs to a run and bears its start or stop ID, so a new run has none |
| RunLifecycle.StopObservedKeepsOneActiveExactly | internal/core/task/engine.go:1029-1050 | the unguarded stop outcome keeps one active run per agent if and only if it succeeded, the run was active, or no other run is |
| RunLifecycle.StartObservedKeepsOneActiveExactly | internal/core/task/engine.go:929-963 | the unguarded start observation keeps it if and only if Start failed, the run was active, or no other run is |
| RunLifecycle.ReplayedStopSkipsChecks | internal/core/task/engine.go:996-1026 | a `StopRun` whose request the ledger already holds changes no version and goes on to the outcome whatever state the run is in, exactly when the store can answer |
| RunLifecycle.ReplayedStopKeepsOneActiveExactly | internal/core/task/engine.go:996-1069 | after a replayed `StopRun` the agent has at most one active run if and only if the stop was confirmed, the run was still active, or the agent has no other active run |
| RunLifecycle.RestartExposesReplay | internal/core/task/engine.go:808-1069 | once a stopped run's agent has started another run, a failed replay of that stop leaves it with two active runs |
| RunLifecycle.GuardedKeeps | internal/core/task/engine.go:808-1238 | every other commit keeps one active run per agent and moves runs only along the legal transitions |
| RunLifecycle.MoveKeeps | internal/adapters/transport/host.go:78-105 | with commands one at a time, every step and crash keeps every version sound and the next overwrite guarded |
| RunLifecycle.EveryHostIsSound | internal/adapters/transport/host.go:78-105 | every history of serialized commands, abandoned commands and crashes keeps run soundness |
| RunLifecycle.OneActiveRunPerAgent | internal/core/task/engine.go:817-819 | in every version each agent has at most one run that is not Exited, and Exited or RecoveryRequired is never left |
| Environments.HostLeavesNobodyOut | internal/adapters/transport/host.go:78-105 | every history of commands and crashes a store can have, start and stop observations apart, is one of the histories this holds of |
| Reconciliation.StartOperationNamesRun | internal/core/task/engine.go:1217 | a start operation's ID names one run |
| Reconciliation.StartIsNotStop | internal/core/task/engine.go:995 | a start operation's ID is never a stop operation's |
| Reconciliation.ReconcileStuckRun | internal/core/task/engine.go:1199-1238 | the visit is one commit, its error that commit's; a successful one adds exactly this run and its open start operation to the reconciled ones |
| Reconciliation.ReconcileStuckRuns | internal/core/task/engine.go:1163-1188 | the pass is the host's moves and errs exactly when they leave it closed; a successful pass reconciles exactly the stuck runs it loaded; with none stuck, or a failed load, nothing changes |
| Reconciliation.FaultFreePassOpens | internal/core/task/engine.go:1163-1238 | a pass that meets no fault opens the workspace, whatever it finds |
| Reconciliation.WholePassSettlesEveryRun | internal/core/task/engine.go:1163-1238 | after a successful pass no run is Starting or Running, settled operations are kept, and a second pass would visit nothing |
| SupervisorSafety.EverySysIsSafe | internal/adapters/process/supervisor.go:229-662 | every interleaving reaches a safe state, and a reaped leader has its reap on record |
| SupervisorSafety.MoveKeeps | internal/adapters/process/supervisor.go:363-662 | every statement of every party, and every leader or group change, keeps mutual exclusion, the unique claim and the claimer's facts |
| SupervisorSafety.SignalsAreSafe | internal/adapters/process/supervisor.go:556-625 | no signal is sent once the record is closed or the leader reaped; at most one SIGTERM then one SIGKILL, by one caller |
| SupervisorSafety.RaceHasOneWinner | internal/adapters/process/supervisor.go:400-637 | one party claims, the leader is reaped at most once in the section that closed authority, a natural reap follows two clean scans, and both fallbacks are unreachable |
| SupervisorSafety.VerdictsAgree | internal/adapters/process/supervisor.go:627-654 | all who learn the outcome through `done` learn the same one, and nil means closed, reaped without error and the group seen empty |
| SupervisorOutcome.VerdictIsExact | internal/adapters/process/supervisor.go:363-662 | in every interleaving a finalized record's result is nil if and only if the leader was reaped once, without error, and the group was seen empty; a failed spawn if and only if SIGTERM could not be sent; recovery required otherwise |
| SupervisorOutcome.EscalatesExactly | internal/adapters/process/supervisor.go:568-603 | in every interleaving a finished `Stop` sent SIGKILL if and only if its SIGTERM was accepted and its grace wait saw no exit |
| SupervisorOutcome.StopFindsRunExactly | internal/adapters/process/supervisor.go:545-552 | once `Start` has returned nil, `Stop` finds the run if and only if its leader is unreaped or its reaper has yet to forget it, and answers NotFound otherwise |
| SupervisorOutcome.AwaitingStopLearns | internal/adapters/process/supervisor.go:639-654 | a `Stop` that found the record claimed returns the recorded verdict at its next statement after `done` is closed and waits until then, unless its context is done or its timer fires |
| SupervisorOutcome.NaturalEndSucceeds | internal/adapters/process/supervisor.go:363-426 | a run that ends by itself with nobody else about is scanned twice, reaped once without a signal, forgotten and reported a success |
| SupervisorOutcome.WatchesWhileAlive | internal/adapters/process/supervisor.go:364-373 | while the leader lives and can be observed the observer only watches |
| SupervisorOutcome.GracefulStopSucceeds | internal/adapters/process/supervisor.go:543-637 | a lone `Stop` of a leader that exits within grace sends SIGTERM once and no SIGKILL, reaps once, forgets the run and reports success |
| SupervisorLiveness.ClaimingStopFinalizes | internal/adapters/process/supervisor.go:568-637 | on every path that goes on serving it, a `Stop` that claimed the record returns the verdict it recorded, with `done` closed once |
| SupervisorLiveness.ClosingObserverFinalizes | internal/adapters/process/supervisor.go:400-425 | so does an observer that closed the record |
| SupervisorLiveness.HeldMutexIsReleased | internal/adapters/process/supervisor.go:562-625 | whoever holds the mutex, every path that serves the holder sees it free again |
| SupervisorStart.SilentExactly | internal/adapters/process/supervisor.go:229-260 | at any moment after `Start` reaped a fast exit or gave up, no continuation signals a reaped leader if and only if none was signalled yet and, if the leader is reaped, no `Stop` can still reach a kill statement or still claim the record |
| SupervisorStart.FastExitIsSilentExactly | internal/adapters/process/supervisor.go:251-252 | once `Start` has reaped and then forgotten a fast exit, no continuation signals the reaped leader if and only if nobody has yet and no `Stop` that looked the record up before the forget can still reach a kill statement |
| SupervisorStart.ReapOpensWindow | internal/adapters/process/supervisor.go:251-252 | between the reap and the forget, an open and unclaimed record is never silent, whoever called before |
| SupervisorStart.StopInWindowSignals | internal/adapters/process/supervisor.go:239-575 | a run in which nobody had called when the leader is reaped, and the first `Stop` then signals the reaped leader |
| SupervisorStart.NoLookupIsSilent | internal/adapters/process/supervisor.go:229-252 | if no `Stop` looks the record up before the forget, no continuation signals a reaped leader |
| SupervisorStart.LookupArms | internal/adapters/process/supervisor.go:545-568 | a `Stop` that finds the record open and unclaimed can reach its kill statement from its first statement on |
| Polling.WaitLeaderExited | internal/adapters/process/waitid_posix.go:101-123 | true exactly when the leader's end is seen by the deadline before any other error |
| Polling.WaitLeaderExitedWithinGrace | internal/adapters/process/waitid_posix.go:130-146 | true exactly when an exit is seen within grace and before the caller cancels, errors ignored |
| Polling.WaitGroupGone | internal/adapters/process/waitid_posix.go:152-166 | true exactly when some probe finds no group in time, a permission error counting as a group |
| Polling.ConfirmOtherMembersAbsent | internal/adapters/process/waitid_posix.go:235-250 | absence is confirmed exactly by two clean scans, and an unreadable scan is uncertainty |
| Polling.GraceWaitIsPolled | internal/adapters/process/supervisor.go:578-587 | the grace wait in the termination race goes on with exactly the answer the polling loop gives |
| Polling.ExitWaitIsPolled | internal/adapters/process/supervisor.go:605-613 | the exit wait in the race goes on to reap, or reports recovery required, exactly as the polling loop answers |
| Polling.GroupWaitIsPolled | internal/adapters/process/supervisor.go:627-637 | the claimer's group wait writes success if and only if the reap succeeded and a probe found no group in time, and recovery required otherwise |
| Polling.ObserverGroupWaitIsPolled | internal/adapters/process/supervisor.go:417-425 | so does the observer's |
| Polling.ScansDecide | internal/adapters/process/supervisor.go:371-397 | the observer goes on to close exactly after two clean scans, leaves exactly when the scan that decides cannot be read, and otherwise looks again |
| ProcStat.OtherMembersAbsent | internal/adapters/process/membership_linux.go:24-56 | absent exactly when every process was judged a non-member, present or an error exactly by which came first |
| ProcStat.ParseSkipsCommand | internal/adapters/process/membership_linux.go:62-78 | only what follows the last parenthesis decides the parse |
| ProcStat.ParseRecoversGroup | internal/adapters/process/membership_linux.go:62-78 | printing a stat line and parsing it returns the group, for every command name |
| Decimal.AtoiRoundTrip | internal/adapters/process/membership_linux.go:73-77 | a printed 64-bit integer, negative or not, parses back to itself |
| Decimal.ParseUintRoundTrip | internal/core/task/events.go:176-190 | a printed unsigned revision parses back to itself |
| Mailbox.FileMailbox.Publish | internal/adapters/mailbox/file.go:171-212 | refusals, the identical no-op, the conflict, the failed write and the new file, readable or over the bound, are each exactly as specified |
| Mailbox.PublishEndsExactly | internal/adapters/mailbox/file.go:171-212 | invalid exactly for what the envelope names, in conflict exactly with another readable file in its place, failed exactly by the disk; only a new file changes anything, and only its own place |
| Mailbox.FileMailbox.Archive | internal/adapters/mailbox/file.go:224-257 | the first listed inbox holding the name is moved to its archive, and nothing else changes |
| Mailbox.ArchiveEndsExactly | internal/adapters/mailbox/file.go:224-257 | invalid exactly for its ID, failed exactly by a listing or a move the disk refuses, with nothing moved; otherwise the first listed holder's file is in its archive |
| Mailbox.Holder | internal/adapters/mailbox/file.go:238-256 | the first listed agent whose inbox holds the name is chosen, and none exactly when there is none |
| Mailbox.FileMailbox.ScanInbox | internal/adapters/mailbox/file.go:93-121 | exactly the valid envelopes of the listed files are returned, oldest first, bad files passed over |
| Mailbox.ScanIsExact | internal/adapters/mailbox/file.go:98-121 | a valid envelope is returned if and only if some listed file holds it, once per file, and the result is ordered by creation time |
| Mailbox.FileMailbox.WriteAck | internal/adapters/mailbox/file.go:269-299 | an acknowledgement is written only under the agent it names, and replaces an earlier record of its ID |
| Mailbox.FileMailbox.ScanAcks | internal/adapters/mailbox/file.go:309-341 | exactly the well-formed records naming the scanned agent are returned |
| Mailbox.ScannedAcksStayInScope | internal/adapters/mailbox/file.go:309-341 | whatever a scan returns names the scanned agent and comes from a file in its own directory |
| Mailbox.AckScanIsExact | internal/adapters/mailbox/file.go:309-341 | a record is returned if and only if some listed file holds it and it is of version 1, names its control ID and message, and is for the scanned agent |
| Mailbox.WrittenAckIsScannedExactly | internal/adapters/mailbox/file.go:269-341 | a write succeeds exactly when its IDs are path segments, it names its message and the agent, and the disk allows it; the next scan that lists it returns it unless it is over the read bound |
| Mailbox.FileMailbox.ArchiveAck | internal/adapters/mailbox/file.go:347-366 | the named record is moved if present, otherwise nothing changes |
| Mailbox.RepublishSucceedsExactly | internal/adapters/mailbox/file.go:195-211 | publishing again what was published changes nothing, and succeeds if and only if the envelope is over the read bound or both optional IDs are absent, else it is a conflict |
| Mailbox.PublishedIsScannedExactly | internal/adapters/mailbox/file.go:98-212 | after a successful publish the recipient's scan returns the envelope if and only if it is within the read bound or was there to read before |
| Mailbox.OversizeIsPublishedUnread | internal/adapters/mailbox/file.go:195-212 | an envelope with a body over the bound is published, published again whatever it names, and never returned by a scan |
| Mailbox.ArchiveLosesNothing | internal/adapters/mailbox/file.go:224-257 | archiving moves files: none disappears and the copy that counts keeps its content |
| Mailbox.AckArchiveLosesNothing | internal/adapters/mailbox/file.go:347-366 | an archived acknowledgement is the file as it was, and every other one stays |
| MessageFacts.CommandKeepsMessages | internal/core/task/engine.go:619-704 | every command keeps message IDs unique, messages unchanged, recorded facts as they are, and acknowledgement to the recipient |
| MessageFacts.FactsAreWrittenOnce | internal/core/task/engine.go:1246-1286 | over every history a message stays the same message and each fact keeps its first time |
| Deliverer.FactRequestsAreDistinct | internal/adapters/mailbox/deliverer.go:178-180 | no two delivery steps share a request ID |
| Deliverer.FileDeliverer.DeliverPending | internal/adapters/mailbox/deliverer.go:56-88 | every queued, unpublished message is filed and then recorded in snapshot order, and the first error ends the pass |
| Deliverer.FileDeliverer.IngestAgent | internal/adapters/mailbox/deliverer.go:113-131 | the pass over one inbox ends in the specified store, mailbox and error, which the path and outcome theorems are about |
| Deliverer.FileDeliverer.IngestPending | internal/adapters/mailbox/deliverer.go:98-133 | exactly the recipients of published, unprocessed messages are scanned, each once, and the first error ends the pass |
| Deliverer.FileDeliverer.IngestAcks | internal/adapters/mailbox/deliverer.go:149-171 | a refused acknowledgement is left in place and the pass goes on, any other error ends it |
| DeliveryOrder.MoveKeeps | internal/adapters/mailbox/deliverer.go:56-133 | every half step of any number of passes, other commits, outside files and crashes keeps facts behind files |
| DeliveryOrder.EveryWorldIsSound | internal/adapters/mailbox/deliverer.go:56-133 | every history of passes, commands, outside files and crashes keeps delivery facts behind their files |
| DeliveryOrder.FactsFollowFiles | internal/adapters/mailbox/deliverer.go:56-133 | in every version of every history processed implies published, published implies the envelope's file, saying what the message says or unreadable exactly when over the read bound, archived implies durably processed |
| Environments.DeliveryLeavesNobodyOut | internal/adapters/statestore/file.go:190-323 | every history of commands, look-ups and crashes a store can have, but the deliverer's own records, is one of the histories this holds of |
| OversizeMail.OversizeIsNeverIngested | internal/adapters/mailbox/deliverer.go:98-133 | a message whose every send is over the read bound is unprocessed in every version of every history, unless an outsider writes an envelope naming it |
| DeliveryOrder.ReceiptMeansDurablyProcessed | internal/adapters/mailbox/deliverer.go:119-127 | a processing receipt returned without error names a fact no crash can lose |
| DeliveryPaths.DeliverPendingIsPath | internal/adapters/mailbox/deliverer.go:56-88 | an uninterrupted deliver pass, early returns included, is a path through the interleaved protocol by its own steps |
| DeliveryPaths.IngestPendingIsPath | internal/adapters/mailbox/deliverer.go:98-133 | so is an uninterrupted ingest pass over all recipients |
| DeliveryPaths.SuccessfulPassPublishesAll | internal/adapters/mailbox/deliverer.go:56-88 | a deliver pass that reports success left every waiting message with its file in the recipient's inbox and its published time in every version a crash could fall back to |
| FaultFreeDelivery.FaultFreePassSucceedsExactly | internal/adapters/mailbox/deliverer.go:56-88 | a deliver pass that meets no fault succeeds if and only if every waiting message's IDs can be path segments and no file that reads as another envelope stands in its place |
| DeliveryPaths.SuccessfulPassIngestsAll | internal/adapters/mailbox/deliverer.go:98-133 | an ingest pass that reports success durably recorded as processed every awaited envelope its scans listed, and archived each that was the only inbox file of its name |
| DeliveryPaths.AwaitedMessageIsProcessed | internal/adapters/mailbox/deliverer.go:98-133 | for each published and unprocessed message, such a pass visited its recipient, and if that inbox listed its envelope it is durably processed |
| DeliveryPaths.UnawaitedFileStays | internal/adapters/mailbox/deliverer.go:98-133 | a file named by a message that is processed already or not published outlasts every pass, successful or not, as it was, and an agent for whom nothing is awaited is not scanned |
| DeliveryOutcomes.InterruptedDeliveryResumesExactly | internal/adapters/mailbox/deliverer.go:50-86 | after a crash between filing and recording, the next pass goes on if and only if the file is over the read bound or the message has no optional ID; otherwise it stops there in a conflict |
| DeliveryOutcomes.OversizeResumes | internal/adapters/mailbox/deliverer.go:61-86 | with a body over the bound it goes on although the message names a task |
| DeliveryOutcomes.InterruptedDeliveryStaysStuck | internal/adapters/mailbox/deliverer.go:50-86 | once stopped there, however many passes follow and whatever their faults, none succeeds and none changes anything |
| DeliveryOutcomes.UndeliverableStaysStuck | internal/adapters/mailbox/deliverer.go:56-88 | so it is with any first waiting message that cannot be filed, so no message after it is ever delivered |
| DeliveryOutcomes.SlashIDIsAdmitted | internal/core/task/engine.go:619-674 | a message ID with a path separator is admitted and can never be filed |
| DeliveryOutcomes.PublishedIsNeverRefiled | internal/adapters/mailbox/deliverer.go:61-64 | a message recorded as published is never filed again |
| DeliveryOutcomes.AckFileStaysExactly | internal/adapters/mailbox/deliverer.go:149-171 | after a successful acknowledgement pass a file is still pending if and only if it was there and no scanned record whose control ID is the file's name was taken, now or before |
| DeliveryOutcomes.MisnamedAckStays | internal/adapters/mailbox/deliverer.go:149-171 | a record in a file not named by its control ID stays pending, taken or not |
| AckPasses.FaultFreeAckPassSucceedsExactly | internal/adapters/mailbox/deliverer.go:149-171 | a pass that meets no fault over records of distinct control IDs succeeds if and only if no control ID was used with another fingerprint and every record to be archived has a control ID that can be a path segment; a record the engine refuses blocks nothing |
| AckPasses.PassAcknowledgesAll | internal/adapters/mailbox/deliverer.go:149-171 | after it every message that a new record names and the agent is the recipient of is on record as acknowledged |
| Journal.RunJournal.Append | internal/adapters/journal/journal.go:38-79 | the entry gets the running end offset and is acknowledged exactly when it was written whole and then synced and closed without error |
| Journal.RunJournal.ReadAfter | internal/adapters/journal/journal.go:81-124 | the page is the run of readable chunks from the offset on, its bytes within a positive limit, and ends at the last chunk or where the next would pass the limit; limit 0 returns all the rest |
| Journal.PageIsFull | internal/adapters/journal/journal.go:96-115 | so is every page, of every file, offset and limit |
| Journal.OneFullPage | internal/adapters/journal/journal.go:96-115 | and no other page is |
| Journal.EndsAfterLastLine | internal/adapters/journal/journal.go:44-63 | whatever wrote the file, the next append begins at the end of the last line that parses, counting what decodes of a faulty one |
| Journal.AppendKeepsSound | internal/adapters/journal/journal.go:44-79 | whatever writes tear or fail to sync, readable offsets stay gap free and the next append starts where they end |
| Journal.UnsyncedIsReadButNotAcknowledged | internal/adapters/journal/journal.go:67-78 | an append whose sync or close fails onto a file that ends in a newline returns an error, yet its bytes can be read back |
| Journal.AcknowledgedIsReadableExactly | internal/adapters/journal/journal.go:44-79 | an acknowledged append can be read back if and only if the file ended in a newline |
| Journal.EveryFileIsSound | internal/adapters/journal/journal.go:38-79 | in every file any sequence of appends leaves, each readable offset is the sum of the earlier readable lengths |
| Journal.PageAdvances | internal/adapters/journal/journal.go:96-115 | a page is the run of chunks up to the next page's start, and is empty only at the end |
| Journal.CapturedExactly | internal/adapters/journal/journal.go:38-79 | the readable bytes are exactly those of the successful appends, whatever they were, if and only if each success found the file ending in a newline, no append whose sync failed did, and the file does not end in an entry that lacks only the newline |
| Journal.PagingReassembles | internal/adapters/journal/journal.go:81-124 | paging from offset 0 ends and yields every readable chunk exactly once in order, every captured byte and no other when that condition holds |

## Left out

- SupervisorSafety.MoveKeeps: the run record is a value stepped statement by statement, not a class, because several parties interleave inside one method; update in place and the Go memory model are not captured, the mutex is explicit.
- SupervisorSafety.SignalsAreSafe: assumes `Stop` is called only after `Start` returned nil; `SupervisorStart.SilentExactly` says what happens otherwise. How the record is spawned, its pipes and its context file are not modelled. A kill error that the source treats as benign counts as a kill that did not fail.
- SupervisorSafety.RaceHasOneWinner: what a membership scan reports is any observation; that two clean scans mean an empty group is the kernel's business, and a process may join between scan and reap.
- SupervisorLiveness.ClaimingStopFinalizes: a schedule must keep giving the claimer statements that no other critical section blocks, which a fair scheduler and mutex do; a `wait4` on a leader that has exited returns.
- RunDispatch.StartedAtMostOnce: assumes a marker's internal request ID is new to the ledger, which is the ID source's promise.
- RunLifecycle.OneActiveRunPerAgent: assumes commands run one at a time and `StopRun` request IDs are fresh; both failing conditions are proved exactly.
- Reconciliation.ReconcileStuckRuns: `Recover` always answers RecoveryRequired, as the only supervisor does; the branch for other answers and a failing ID source before the first commit are not modelled.
- ExactlyOnce.StoreRefinesService: mutations act on the records and not on the snapshot header, as every mutation of the engine does; JSON is a faithful encoding and revisions are unbounded.
- CommandEffects.SucceedsExactly: which of several obstacles a command reports first is fixed by its body and not restated.
- AckPasses.FaultFreeAckPassSucceedsExactly: two records of one control ID in one pass, which only a misnamed file allows, are not covered; the second is answered as a replay or a conflict of the first.
- RunOutcomes.StartRecordsItsOutcome: a call that meets a fault or a crash ends in one of the protocol's stages, of which only the safety theorems speak.
- StateStore.FileStore.Load: workspace IDs are non-empty where a snapshot is used; reads of a corrupt file count as read failures.
- Publication.ObserverSeesEverySuccess: an uncertain commit is not among the successes, since the engine does not publish it, and a late floor seeding must not be below an evicted event.
- DeliveryOrder.FactsFollowFiles: assumes the deliverer is the sole recorder of delivery facts and sole user of its request IDs; no mailbox directory is ever fsynced, so a power loss may take a published file, which the statement excepts by name; a power loss that undoes only the move to the archive is not modelled.
- DeliveryPaths.SuccessfulPassIngestsAll: that inboxes drain over time is not claimed; a crash between recording and archiving leaves the envelope in the inbox for good.
- Mailbox.FileMailbox.Publish: encoded sizes take text as valid Unicode and times as UTC nanoseconds of four-digit years; limits on file name lengths are write failures.
- Mailbox.FileMailbox.ScanInbox: creation times are compared as instants; envelopes of one instant come in listing order, which is arbitrary, since the source's sort is not stable.
- Journal.PagingReassembles: chunks are non-empty and no larger than a positive limit, lines stay under the scanner's token bound, and a torn line joined by a later write is taken to parse as nothing; power loss after a failed sync is not modelled.
- ProcStat.ParseRecoversGroup: fields are split at ASCII white space only.
- Fingerprints are opaque strings: their use of pointer operands is not modelled, so neither stability nor injectivity is assumed.
- The UTF-8 check on message bodies, the unsupported answer without a supervisor, and operation IDs returned beside receipts are single-branch additions.
- The lifecycle events an observer hook may record, capture status files and output draining do not take part in run completion; the mutex taken to record one is modelled.
- Queries, clone functions, the transport, host and assembly forwarding, the CLI, the Python runner and scripts are presentation or forwarding.
