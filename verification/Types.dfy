/** The HumanAgent domain values: identities, records, commands and answers.

Identifiers stay strings, as in the system. Three encodings are abstracted to
injective constructors: a command's intent digest is the command itself, a
payload or Artifact digest is the digested value, and a computed Workspace
revision is a constructor over its base, so revision chains are acyclic.
*/
module Types {
  datatype Option<+T> = None | Some(value: T)

  datatype Result<+T> = Ok(value: T) | Err(error: Error) {
    function Extract(): T
      requires Ok?
    {
      value
    }
  }

  datatype Error =
    | InvalidArgument | NotFound | IdempotencyConflict | RevisionConflict
    | InvalidTransition | TerminalTask | TaskConflict | MessageConflict
    | SubmissionConflict | ArtifactNotFound | ArtifactConflict | ArtifactStateError
    | WorkspaceConflict | WorkspaceNotFound | ReceiptNotFound | ReceiptConflict
    | LeaseNotFound | LeaseUnavailable | StaleLease | LeaseFenceExhausted
    | CorruptStore | StoreConflict | StoreCommitUnknown | RecordTooLarge | Closed

  const MAX_INT64: nat := 0x7fff_ffff_ffff_ffff
  const MIN_INT64: int := -0x8000_0000_0000_0000
  const MAX_PART_BYTES: nat := 0x20_0000
  const MAX_PAGE_BYTES: nat := 0x40_0000
  const ABSOLUTE_ARTIFACT_MAX: nat := 0x400_0000
  const MAX_STORED_ARTIFACT_BYTES: nat := 0xAD0_0000
  const MAX_PAGE_SIZE: nat := 100

  type Id = string

  /** Nanoseconds since the Unix epoch. The zero instant of the clock library
  lies far outside the storable 64-bit range. */
  type Time = int
  const ZERO_TIME: Time := -62_135_596_800_000_000_000

  predicate ValidTime(t: Time) {
    MIN_INT64 <= t <= MAX_INT64
  }

  function AtLeast(t: Time, floor: Time): Time {
    if t < floor then floor else t
  }

  datatype ContextRef = ContextRef(authority: Id, id: Id)
  datatype WorkspaceRef = WorkspaceRef(authority: Id, id: Id)
  datatype TaskRef = TaskRef(workspace: WorkspaceRef, id: Id)
  datatype ArtifactRef = ArtifactRef(workspace: WorkspaceRef, id: Id)

  datatype TaskState =
    | TaskSubmitted | TaskWorking | TaskInputRequired
    | TaskCompleted | TaskCanceled | TaskRejected | TaskFailed
  {
    predicate Terminal() {
      TaskCompleted? || TaskCanceled? || TaskRejected? || TaskFailed?
    }
  }

  datatype Author = AuthorCaller | AuthorAgent

  datatype Part = Part(mediaType: string, data: seq<bv8>)
  datatype MessageInput = MessageInput(id: Id, parts: seq<Part>)

  datatype Payload = Payload(mediaType: string, data: seq<bv8>)

  /** An opaque revision supplied by a caller, or the revision the system
  computes for one Artifact frozen on top of a base. */
  datatype Revision =
    | Text(text: string)
    | NextRevision(base: Revision, artifact: ArtifactRef, payload: Digest)

  datatype Digest =
    | ForeignDigest(text: string)
    | PayloadDigest(content: Payload)
    | ArtifactDigest(ref: ArtifactRef, task: TaskRef, base: Revision, result: Revision,
                     payload: Digest, mediaType: string)

  datatype Submission = Submission(
    id: Id, task: TaskRef, finalMessage: Id, artifact: Option<ArtifactRef>, publishedAt: Time)

  datatype Task = Task(
    ref: TaskRef, context: ContextRef, state: TaskState,
    revision: nat, messageCount: nat, eventCount: nat,
    artifact: Option<ArtifactRef>, submission: Option<Submission>,
    createdAt: Time, updatedAt: Time)

  datatype EventType =
    | EventTaskSubmitted | EventTaskAccepted | EventTaskRejected
    | EventInputRequired | EventCallerReplied | EventTaskCanceled
    | EventTaskFailed | EventTaskCompleted | EventArtifactFrozen

  /** `message`, `submission` and `artifact` are empty when absent. */
  datatype Event = Event(
    task: TaskRef, sequence: nat, kind: EventType, state: TaskState, revision: nat,
    message: Id, submission: Id, artifact: Id, occurredAt: Time)

  datatype ArtifactState = ArtifactFrozen | ArtifactPublished | ArtifactDiscarded

  datatype Artifact = Artifact(
    ref: ArtifactRef, task: TaskRef, state: ArtifactState,
    baseRevision: Revision, resultRevision: Revision,
    digest: Digest, payloadDigest: Digest, payloadSize: nat, mediaType: string,
    frozenAt: Time, publishedAt: Option<Time>, discardedAt: Option<Time>)

  datatype ApplyDecision = ApplySuccess | ApplyConflict | ApplyRejected | ApplyIndeterminate

  datatype ApplyReceipt = ApplyReceipt(
    id: Id, artifact: ArtifactRef, artifactDigest: Digest,
    baseRevision: Revision, resultRevision: Revision,
    decision: ApplyDecision, observedRevision: Revision,
    code: string, message: string, recordedAt: Time)

  datatype WorkspaceHead = WorkspaceHead(
    workspace: WorkspaceRef, confirmedRevision: Revision, updatedAt: Time)

  datatype LeaseGrant = LeaseGrant(task: TaskRef, worker: Id, fence: nat)
  datatype LeaseAssignment = LeaseAssignment(grant: LeaseGrant, task: Task, grantedAt: Time)

  datatype Meta = Meta(id: Id, expectedRevision: nat)
  datatype WorkerMeta = WorkerMeta(id: Id, expectedRevision: nat, grant: LeaseGrant)

  datatype Command =
    | CreateTask(create: Meta, task: TaskRef, context: ContextRef, message: MessageInput)
    | AcceptTask(meta: WorkerMeta, task: TaskRef)
    | RejectTask(meta: WorkerMeta, task: TaskRef)
    | FailTask(meta: WorkerMeta, task: TaskRef)
    | RequestInput(meta: WorkerMeta, task: TaskRef, message: MessageInput)
    | ReplyTask(caller: Meta, task: TaskRef, message: MessageInput)
    | CancelTask(caller: Meta, task: TaskRef)
    | CompleteTask(meta: WorkerMeta, task: TaskRef, submission: Id, message: MessageInput,
                   artifact: Option<ArtifactRef>)
    | FreezeArtifact(meta: WorkerMeta, task: TaskRef, artifactId: Id,
                     expectedBase: Revision, payload: Payload)
    | AcquireLease(id: Id, task: TaskRef, worker: Id)
    | ClaimLease(id: Id, authority: Id, worker: Id)
    | FenceLease(id: Id, grant: LeaseGrant)
    | RecordApplyReceipt(id: Id, receipt: Id, artifactRef: ArtifactRef, artifactDigest: Digest,
                         baseRevision: Revision, resultRevision: Revision,
                         decision: ApplyDecision, observedRevision: Revision,
                         code: string, note: string)

  /** The durable answer kept in a command receipt. */
  datatype Answer =
    | TaskAnswer(result: Task)
    | FreezeAnswer(result: Task, frozen: Artifact)
    | AssignmentAnswer(assignment: LeaseAssignment)
    | GrantAnswer(grant: LeaseGrant)
    | ReceiptAnswer(receipt: ApplyReceipt)

  datatype CommandKey = CommandKey(authority: Id, id: Id)

  function KeyOf(c: Command): CommandKey {
    match c
    case CreateTask(m, t, _, _) => CommandKey(t.workspace.authority, m.id)
    case AcceptTask(m, t) => CommandKey(t.workspace.authority, m.id)
    case RejectTask(m, t) => CommandKey(t.workspace.authority, m.id)
    case FailTask(m, t) => CommandKey(t.workspace.authority, m.id)
    case RequestInput(m, t, _) => CommandKey(t.workspace.authority, m.id)
    case ReplyTask(m, t, _) => CommandKey(t.workspace.authority, m.id)
    case CancelTask(m, t) => CommandKey(t.workspace.authority, m.id)
    case CompleteTask(m, t, _, _, _) => CommandKey(t.workspace.authority, m.id)
    case FreezeArtifact(m, t, _, _, _) => CommandKey(t.workspace.authority, m.id)
    case AcquireLease(id, t, _) => CommandKey(t.workspace.authority, id)
    case ClaimLease(id, a, _) => CommandKey(a, id)
    case FenceLease(id, g) => CommandKey(g.task.workspace.authority, id)
    case RecordApplyReceipt(id, _, a, _, _, _, _, _, _, _) => CommandKey(a.workspace.authority, id)
  }
}
