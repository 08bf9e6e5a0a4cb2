/** The worker protocol values: events, deliveries and receipts. */
module Transport {
  import opened Types
  import opened Validators
  import opened Commands

  datatype EventKind = KindAccept | KindReject | KindRequestInput | KindFail | KindFreeze | KindComplete | KindOther(name: string)

  datatype Freeze = Freeze(artifact: Id, expectedBase: Revision, payload: Payload)

  /** Input to one worker-authorized command. The worker itself is not part of the
  event: the connection supplies it. */
  datatype WorkerEvent = WorkerEvent(
    id: Id, kind: EventKind, task: TaskRef, fence: nat, expectedRevision: nat,
    message: Option<MessageInput>, submission: Id, artifact: Option<ArtifactRef>, freeze: Option<Freeze>)

  datatype Delivery = Delivery(id: Id, event: WorkerEvent)

  datatype Decision = Ack | Nack

  datatype Code = NoCode | RejectInvalid | RejectForbidden | RejectNotFound | RejectStaleLease
    | RejectRevision | RejectState | RejectCommandConflict

  datatype Receipt = Receipt(delivery: Id, event: Id, decision: Decision, code: Code, message: string)

  datatype Principal = Principal(authority: Id, worker: Id)

  predicate PlainEvent(e: WorkerEvent) {
    e.message.None? && e.submission == "" && e.artifact.None? && e.freeze.None?
  }

  predicate ValidEvent(e: WorkerEvent) {
    && ValidId(e.id) && ValidTaskRef(e.task)
    && 1 <= e.fence <= MAX_INT64 && 1 <= e.expectedRevision <= MAX_INT64
    && match e.kind
       case KindAccept => PlainEvent(e)
       case KindReject => PlainEvent(e)
       case KindFail => PlainEvent(e)
       case KindRequestInput =>
         e.message.Some? && e.submission == "" && e.artifact.None? && e.freeze.None? && ValidMessageInput(e.message.value)
       case KindFreeze =>
         && e.message.None? && e.submission == "" && e.artifact.None? && e.freeze.Some?
         && ValidId(e.freeze.value.artifact) && ValidRevision(e.freeze.value.expectedBase) && ValidPayload(e.freeze.value.payload)
       case KindComplete =>
         && e.message.Some? && e.submission != "" && e.freeze.None?
         && ValidMessageInput(e.message.value) && ValidId(e.submission)
         && (e.artifact.Some? ==> ValidArtifactRef(e.artifact.value) && e.artifact.value.workspace == e.task.workspace)
       case KindOther(_) => false
  }

  predicate ValidDelivery(d: Delivery) {
    ValidId(d.id) && ValidEvent(d.event)
  }

  predicate ValidDeliveryFor(d: Delivery, p: Principal) {
    ValidDelivery(d) && d.event.task.workspace.authority == p.authority
  }

  /** Which receipts may settle a delivery: the identities match, and only a
  well-formed event can be acknowledged as committed. */
  predicate ReceiptFits(r: Receipt, d: Delivery) {
    && ValidId(d.id) && r.delivery == d.id && r.event == d.event.id
    && match r.decision
       case Ack => ValidDelivery(d) && r.code == NoCode && r.message == ""
       case Nack => r.code != NoCode && |r.message| <= 4096 && NoneOf(r.message, "\0")
  }

  /** The command an event asks for, on behalf of the connection's worker. */
  function CommandOf(e: WorkerEvent, worker: Id): Command
    requires ValidEvent(e)
  {
    var meta := WorkerMeta(e.id, e.expectedRevision, LeaseGrant(e.task, worker, e.fence));
    match e.kind
    case KindAccept => AcceptTask(meta, e.task)
    case KindReject => RejectTask(meta, e.task)
    case KindFail => FailTask(meta, e.task)
    case KindRequestInput => RequestInput(meta, e.task, e.message.value)
    case KindFreeze =>
      FreezeArtifact(meta, e.task, e.freeze.value.artifact, e.freeze.value.expectedBase, e.freeze.value.payload)
    case KindComplete => CompleteTask(meta, e.task, e.submission, e.message.value, e.artifact)
  }

  /** A well-formed event of a known worker is always a well-formed command. */
  lemma {:induction false} EventCommandValid(e: WorkerEvent, worker: Id)
    requires ValidEvent(e) && ValidId(worker)
    ensures ValidCommand(CommandOf(e, worker))
    ensures KeyOf(CommandOf(e, worker)) == CommandKey(e.task.workspace.authority, e.id)
  {}

  /** Nothing of an event is lost on the way to its command. */
  lemma {:induction false} EventCommandInjective(a: WorkerEvent, b: WorkerEvent, worker: Id)
    requires ValidEvent(a) && ValidEvent(b) && CommandOf(a, worker) == CommandOf(b, worker)
    ensures a == b
  {
    if a.freeze.Some? && b.freeze.Some? {
      assert a.freeze.value == b.freeze.value;
    }
  }

  /** Deterministic refusals are terminal for the delivery; every other error
  settles nothing. */
  function RejectionCode(e: Error): Option<Code> {
    match e
    case InvalidArgument => Some(RejectInvalid)
    case NotFound => Some(RejectNotFound)
    case ArtifactNotFound => Some(RejectNotFound)
    case LeaseNotFound => Some(RejectNotFound)
    case WorkspaceNotFound => Some(RejectNotFound)
    case StaleLease => Some(RejectStaleLease)
    case RevisionConflict => Some(RejectRevision)
    case IdempotencyConflict => Some(RejectCommandConflict)
    case TaskConflict => Some(RejectCommandConflict)
    case MessageConflict => Some(RejectCommandConflict)
    case SubmissionConflict => Some(RejectCommandConflict)
    case ReceiptConflict => Some(RejectCommandConflict)
    case InvalidTransition => Some(RejectState)
    case TerminalTask => Some(RejectState)
    case ArtifactConflict => Some(RejectState)
    case ArtifactStateError => Some(RejectState)
    case WorkspaceConflict => Some(RejectState)
    case LeaseUnavailable => Some(RejectState)
    case LeaseFenceExhausted => Some(RejectState)
    case _ => None
  }
}
