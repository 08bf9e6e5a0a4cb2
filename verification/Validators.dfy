/** The argument checks on commands and the fail-closed checks on stored records. */
module Validators {
  import opened Types

  predicate Alphanumeric(c: char) {
    'A' <= c <= 'Z' || 'a' <= c <= 'z' || '0' <= c <= '9'
  }

  /** The stable identifier shape `[A-Za-z0-9][A-Za-z0-9._:-]{0,127}`. */
  predicate ValidId(id: Id) {
    && 1 <= |id| <= 128
    && Alphanumeric(id[0])
    && forall i | 0 <= i < |id| :: Alphanumeric(id[i]) || id[i] in "._:-"
  }

  predicate NoneOf(text: string, banned: string) {
    forall i | 0 <= i < |text| :: text[i] !in banned
  }

  predicate ValidMediaType(m: string) {
    && 1 <= |m| <= 128
    && m[0] != ' ' && m[|m| - 1] != ' '
    && NoneOf(m, "\r\n\0")
  }

  predicate ValidWorkspaceRef(w: WorkspaceRef) { ValidId(w.authority) && ValidId(w.id) }
  predicate ValidContextRef(c: ContextRef) { ValidId(c.authority) && ValidId(c.id) }
  predicate ValidTaskRef(t: TaskRef) { ValidWorkspaceRef(t.workspace) && ValidId(t.id) }
  predicate ValidArtifactRef(a: ArtifactRef) { ValidWorkspaceRef(a.workspace) && ValidId(a.id) }

  function TotalBytes(parts: seq<Part>): nat {
    if parts == [] then 0 else |parts[0].data| + TotalBytes(parts[1..])
  }

  predicate ValidMessageInput(m: MessageInput) {
    && ValidId(m.id)
    && 1 <= |m.parts| <= 32
    && (forall i | 0 <= i < |m.parts| :: ValidMediaType(m.parts[i].mediaType) && m.parts[i].data != [])
    && TotalBytes(m.parts) <= MAX_PART_BYTES
  }

  predicate ValidRevision(r: Revision) {
    r.Text? ==> 1 <= |r.text| <= 512 && NoneOf(r.text, "\0\r\n")
  }

  predicate ValidDigest(d: Digest) {
    d.ForeignDigest? ==>
      && |d.text| == 71 && d.text[..7] == "sha256:"
      && forall i | 7 <= i < 71 :: '0' <= d.text[i] <= '9' || 'a' <= d.text[i] <= 'f' || 'A' <= d.text[i] <= 'F'
  }

  predicate ValidPayload(p: Payload) {
    ValidMediaType(p.mediaType) && 1 <= |p.data| <= ABSOLUTE_ARTIFACT_MAX
  }

  predicate ValidGrant(g: LeaseGrant) {
    ValidTaskRef(g.task) && ValidId(g.worker) && 1 <= g.fence <= MAX_INT64
  }

  predicate ValidMeta(m: Meta) {
    ValidId(m.id) && 1 <= m.expectedRevision <= MAX_INT64
  }

  predicate ValidWorkerMeta(m: WorkerMeta, task: TaskRef) {
    && ValidMeta(Meta(m.id, m.expectedRevision))
    && ValidGrant(m.grant) && m.grant.task == task
  }

  predicate ValidReceiptFields(
    id: Id, artifact: ArtifactRef, digest: Digest, base: Revision, result: Revision,
    decision: ApplyDecision, observed: Revision, code: string, note: string)
  {
    && ValidId(id) && ValidArtifactRef(artifact) && ValidDigest(digest)
    && ValidRevision(base) && ValidRevision(result)
    && (observed != Text("") ==> ValidRevision(observed))
    && (decision == ApplySuccess ==> observed == result)
    && (decision == ApplyConflict ==> observed != Text(""))
    && |code| <= 128 && NoneOf(code, "\0\r\n")
    && |note| <= 4096 && NoneOf(note, "\0")
  }

  /** Every argument check a command passes before it touches the store. */
  predicate ValidCommand(c: Command) {
    match c
    case CreateTask(m, t, x, msg) =>
      && ValidId(m.id) && m.expectedRevision == 0 && ValidTaskRef(t) && ValidContextRef(x)
      && t.workspace.authority == x.authority && ValidMessageInput(msg)
    case AcceptTask(m, t) => ValidWorkerMeta(m, t) && ValidTaskRef(t)
    case RejectTask(m, t) => ValidWorkerMeta(m, t) && ValidTaskRef(t)
    case FailTask(m, t) => ValidWorkerMeta(m, t) && ValidTaskRef(t)
    case RequestInput(m, t, msg) => ValidWorkerMeta(m, t) && ValidTaskRef(t) && ValidMessageInput(msg)
    case ReplyTask(m, t, msg) => ValidMeta(m) && ValidTaskRef(t) && ValidMessageInput(msg)
    case CancelTask(m, t) => ValidMeta(m) && ValidTaskRef(t)
    case CompleteTask(m, t, sub, msg, art) =>
      && ValidWorkerMeta(m, t) && ValidTaskRef(t) && ValidId(sub) && ValidMessageInput(msg)
      && (art.Some? ==> ValidArtifactRef(art.value) && art.value.workspace == t.workspace)
    case FreezeArtifact(m, t, a, base, p) =>
      && ValidWorkerMeta(m, t) && ValidTaskRef(t) && ValidId(a) && ValidRevision(base) && ValidPayload(p)
    case AcquireLease(id, t, w) => ValidId(id) && ValidTaskRef(t) && ValidId(w)
    case ClaimLease(id, a, w) => ValidId(id) && ValidId(a) && ValidId(w)
    case FenceLease(id, g) => ValidId(id) && ValidGrant(g)
    case RecordApplyReceipt(id, r, a, d, b, res, dec, o, code, note) =>
      ValidId(id) && ValidReceiptFields(r, a, d, b, res, dec, o, code, note)
  }

  // ---- Stored records

  predicate ValidStoredTask(t: Task) {
    && ValidTaskRef(t.ref)
    && ValidContextRef(t.context) && t.context.authority == t.ref.workspace.authority
    && 1 <= t.revision <= MAX_INT64 && 1 <= t.messageCount <= t.revision
    && t.revision == t.eventCount
    && t.createdAt != ZERO_TIME && t.createdAt <= t.updatedAt
    && (t.state == TaskCompleted <==> t.submission.Some?)
    && (t.artifact.Some? ==> ValidArtifactRef(t.artifact.value) && t.artifact.value.workspace == t.ref.workspace)
    && (t.submission.Some? ==>
          var b := t.submission.value;
          && b.task == t.ref && ValidId(b.id) && ValidId(b.finalMessage)
          && b.publishedAt != ZERO_TIME && b.publishedAt == t.updatedAt
          && b.artifact == t.artifact)
  }

  predicate ValidStoredMessage(id: Id, task: TaskRef, sequence: nat, author: Author,
                               parts: seq<Part>, createdAt: Time)
  {
    && ValidTaskRef(task)
    && 1 <= sequence <= MAX_INT64
    && author == (if sequence % 2 == 1 then AuthorCaller else AuthorAgent)
    && createdAt != ZERO_TIME
    && ValidMessageInput(MessageInput(id, parts))
  }

  function EventState(kind: EventType): TaskState {
    match kind
    case EventTaskSubmitted => TaskSubmitted
    case EventTaskAccepted => TaskWorking
    case EventTaskRejected => TaskRejected
    case EventInputRequired => TaskInputRequired
    case EventCallerReplied => TaskWorking
    case EventTaskCanceled => TaskCanceled
    case EventTaskFailed => TaskFailed
    case EventTaskCompleted => TaskCompleted
    case EventArtifactFrozen => TaskWorking
  }

  predicate WantsMessage(kind: EventType) {
    kind.EventTaskSubmitted? || kind.EventInputRequired? || kind.EventCallerReplied? || kind.EventTaskCompleted?
  }

  predicate ValidStoredEvent(e: Event) {
    && ValidTaskRef(e.task)
    && 1 <= e.sequence <= MAX_INT64 && e.sequence == e.revision
    && e.occurredAt != ZERO_TIME
    && e.state == EventState(e.kind)
    && (WantsMessage(e.kind) <==> e.message != "")
    && (e.kind == EventTaskCompleted <==> e.submission != "")
    && (e.kind == EventArtifactFrozen ==> e.artifact != "")
    && (e.artifact != "" ==> e.kind == EventArtifactFrozen || e.kind == EventTaskCompleted)
  }

  predicate ValidArtifactTimes(a: Artifact) {
    match a.state
    case ArtifactFrozen => a.publishedAt.None? && a.discardedAt.None?
    case ArtifactPublished => a.publishedAt.Some? && a.discardedAt.None? && a.frozenAt <= a.publishedAt.value
    case ArtifactDiscarded => a.publishedAt.None? && a.discardedAt.Some? && a.frozenAt <= a.discardedAt.value
  }

  predicate ValidStoredArtifact(a: Artifact) {
    && ValidArtifactRef(a.ref) && ValidTaskRef(a.task) && a.task.workspace == a.ref.workspace
    && 1 <= a.payloadSize <= ABSOLUTE_ARTIFACT_MAX && a.frozenAt != ZERO_TIME
    && ValidRevision(a.baseRevision) && ValidRevision(a.resultRevision)
    && ValidDigest(a.digest) && ValidDigest(a.payloadDigest)
    && a.baseRevision != a.resultRevision
    && ValidArtifactTimes(a)
    && a.resultRevision == NextRevision(a.baseRevision, a.ref, a.payloadDigest)
    && a.digest == ArtifactDigest(a.ref, a.task, a.baseRevision, a.resultRevision, a.payloadDigest, a.mediaType)
  }

  predicate ValidStoredReceipt(r: ApplyReceipt) {
    && ValidReceiptFields(r.id, r.artifact, r.artifactDigest, r.baseRevision, r.resultRevision,
                          r.decision, r.observedRevision, r.code, r.message)
    && r.recordedAt != ZERO_TIME
  }

  predicate ValidFreezeResult(t: Task, a: Artifact) {
    && ValidStoredTask(t) && t.artifact == Some(a.ref) && a.state == ArtifactFrozen
    && a.task == t.ref && a.payloadSize > 0
    && a.frozenAt != ZERO_TIME && a.frozenAt == t.updatedAt
    && a.publishedAt.None? && a.discardedAt.None?
    && ValidRevision(a.baseRevision) && ValidRevision(a.resultRevision)
    && ValidDigest(a.digest) && ValidDigest(a.payloadDigest)
  }

  predicate ValidAssignment(a: LeaseAssignment) {
    && ValidGrant(a.grant)
    && ValidStoredTask(a.task) && a.task.ref == a.grant.task && !a.task.state.Terminal()
    && ValidTime(a.grantedAt) && a.task.createdAt <= a.grantedAt
  }

  predicate SameArtifactIdentity(a: Artifact, b: Artifact) {
    && a.ref == b.ref && a.task == b.task
    && a.baseRevision == b.baseRevision && a.resultRevision == b.resultRevision
    && a.digest == b.digest && a.payloadDigest == b.payloadDigest
    && a.payloadSize == b.payloadSize && a.mediaType == b.mediaType
    && a.frozenAt == b.frozenAt
  }

  predicate SameReceiptDecision(a: ApplyReceipt, b: ApplyReceipt) {
    a == b.(recordedAt := a.recordedAt)
  }
}
