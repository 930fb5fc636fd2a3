/** The records of one workspace, as `domain/records.go` declares them. IDs are
    opaque strings and times are integers. */
module Domain {
  import opened Results

  datatype TaskStatus = Todo | Doing | Blocked | AwaitingReview | Done

  datatype Decision = Pending | Accepted | Rejected

  datatype MessageKind = Request | Inform | Outcome | UnknownKind(name: string)

  datatype RunState = Starting | Running | Stopping | Exited | RecoveryNeeded

  datatype OperationState = OpPending | OpRunning | OpSucceeded | OpFailed | OpRecoveryNeeded

  /** Who claimed to make a change, and when. */
  datatype Provenance = Provenance(claimedAgent: string, recordedAt: int)

  datatype StatusChange = StatusChange(
    taskRevision: nat, fromStatus: Option<TaskStatus>, toStatus: TaskStatus, provenance: Provenance)

  datatype Agent = Agent(
    id: string, displayName: string, profileID: string, provenance: Provenance, lastUpdated: Option<Provenance>)

  datatype Task = Task(
    id: string, title: string, assignee: string, status: TaskStatus, revision: nat,
    currentResult: Option<string>, provenance: Provenance, lastStatusChange: Option<StatusChange>)

  datatype TaskResult = TaskResult(
    id: string, taskID: string, summary: string, artifacts: seq<string>, provenance: Provenance,
    decision: Decision, decisionReason: string, decisionProvenance: Option<Provenance>)

  datatype Message = Message(
    id: string, sender: string, recipient: string, kind: MessageKind, body: string, createdAt: int,
    taskID: Option<string>, replyTo: Option<string>, provenance: Provenance,
    queuedAt: Option<int>, publishedAt: Option<int>, processedAt: Option<int>,
    acknowledgedBy: string, acknowledgedAt: Option<int>)

  datatype Profile = Profile(id: string, args: seq<string>, provenance: Provenance)

  datatype Run = Run(
    id: string, agentID: string, profileID: string, state: RunState, provenance: Provenance,
    dispatchAttemptedAt: Option<int>, startedAt: Option<int>, exitedAt: Option<int>, exitReason: string)

  datatype Operation = Operation(
    id: string, runID: string, kind: string, state: OperationState, createdAt: int,
    completedAt: Option<int>, outcome: string)

  /** Everything a command may read or change. */
  datatype Records = Records(
    agents: seq<Agent>, tasks: seq<Task>, results: seq<TaskResult>, messages: seq<Message>,
    profiles: seq<Profile>, runs: seq<Run>, operations: seq<Operation>)

  const NO_RECORDS := Records([], [], [], [], [], [], [])

  /** One committed transition; the store stamps `revision`. */
  datatype Event = Event(id: string, kind: string, subjects: seq<string>, revision: nat)

  /** The header the store owns, around the records commands own. */
  datatype Snapshot = Snapshot(workspaceID: string, revision: nat, cursor: string, records: Records)
}
