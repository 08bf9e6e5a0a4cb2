/** What each public command commits.

`Refusal` gives the first failing check, in the order the system makes them;
`Decide` gives the whole set of writes (a `Delta`) that one transaction makes
visible together when no check fails.
`Execute` adds the command receipt: an exact repetition of a committed command
returns its original answer and writes nothing.
*/
module Commands {
  import opened Types
  import opened Validators
  import opened Store

  /** What the environment supplies to one execution: the clock reading, the size
  of the sealed content, and the configured Artifact limit. */
  datatype Env = Env(clock: Time, sealedSize: nat, maxArtifactBytes: nat)

  /** All writes of one commit. */
  datatype Delta = Delta(
    command: CommandRecord,
    task: Option<TaskRecord>,
    message: Option<MessageRecord>,
    event: Option<Event>,
    grant: Option<GrantRecord>,
    artifact: Option<ArtifactRecord>,
    submission: Option<Submission>,
    head: Option<WorkspaceHead>,
    receipt: Option<ApplyReceipt>)

  function LogAfter(events: map<TaskRef, Log>, e: Event): Log {
    (if e.task in events then events[e.task] else map[])[e.sequence := e]
  }

  function Apply(s: StoreState, d: Delta): StoreState {
    StoreState(
      s.commands[CommandKey(d.command.authority, d.command.id) := d.command],
      if d.task.Some? then s.tasks[d.task.value.task.ref := d.task.value] else s.tasks,
      if d.message.Some? then s.messages[d.message.value.Key() := d.message.value] else s.messages,
      if d.event.Some? then s.events[d.event.value.task := LogAfter(s.events, d.event.value)] else s.events,
      if d.grant.Some? then s.grants[d.grant.value.Key() := d.grant.value] else s.grants,
      if d.artifact.Some? then s.artifacts[d.artifact.value.artifact.ref := d.artifact.value] else s.artifacts,
      if d.submission.Some? then s.submissions[d.submission.value.task := d.submission.value] else s.submissions,
      if d.head.Some? then s.heads[d.head.value.workspace := d.head.value] else s.heads,
      if d.receipt.Some? then s.receipts[d.receipt.value.artifact := d.receipt.value] else s.receipts)
  }

  function RecordOf(c: Command, a: Answer, now: Time): CommandRecord {
    CommandRecord(KeyOf(c).authority, KeyOf(c).id, c, a, now)
  }

  predicate SealFits(size: nat, limit: nat) { 1 <= size <= limit }

  // ---- Create

  function InitialTask(ref: TaskRef, context: ContextRef, now: Time): Task {
    Task(ref, context, TaskSubmitted, 1, 1, 1, None, None, now, now)
  }

  ghost function CreateRefusal(s: StoreState, c: Command, env: Env): Option<Error>
    requires c.CreateTask?
  {
    if !SealFits(env.sealedSize, MAX_PAGE_BYTES) then Some(InvalidArgument)
    else if !ValidTime(env.clock) then Some(InvalidArgument)
    else if PublicIdTaken(s.tasks, c.task) then Some(TaskConflict)
    else if MessageKey(c.task.workspace.authority, c.message.id) in s.messages then Some(MessageConflict)
    else None
  }

  function CreateDelta(c: Command, env: Env): Delta
    requires c.CreateTask?
  {
    var now := env.clock;
    var task := InitialTask(c.task, c.context, now);
    Delta(
      RecordOf(c, TaskAnswer(task), now),
      Some(TaskRecord(task, LeaseState("", 0), None)),
      Some(MessageRecord(c.message.id, c.task, 1, AuthorCaller, c.message.parts, env.sealedSize, now)),
      Some(Event(c.task, 1, EventTaskSubmitted, TaskSubmitted, 1, c.message.id, "", "", now)),
      None, None, None, None, None)
  }

  // ---- The seven lifecycle transitions

  datatype Plan = Plan(
    meta: Meta, grant: Option<LeaseGrant>, task: TaskRef,
    allowed: set<TaskState>, next: TaskState, event: EventType,
    author: Author, message: Option<MessageInput>,
    submission: Id, artifact: Option<ArtifactRef>, discard: bool)

  predicate IsTransition(c: Command) {
    c.AcceptTask? || c.RejectTask? || c.FailTask? || c.RequestInput? || c.ReplyTask? || c.CancelTask? || c.CompleteTask?
  }

  function PlanOf(c: Command): Plan
    requires IsTransition(c)
  {
    match c
    case AcceptTask(m, t) =>
      Plan(Meta(m.id, m.expectedRevision), Some(m.grant), t,
           {TaskSubmitted}, TaskWorking, EventTaskAccepted, AuthorAgent, None, "", None, false)
    case RejectTask(m, t) =>
      Plan(Meta(m.id, m.expectedRevision), Some(m.grant), t,
           {TaskSubmitted}, TaskRejected, EventTaskRejected, AuthorAgent, None, "", None, false)
    case RequestInput(m, t, msg) =>
      Plan(Meta(m.id, m.expectedRevision), Some(m.grant), t,
           {TaskWorking}, TaskInputRequired, EventInputRequired, AuthorAgent, Some(msg), "", None, false)
    case ReplyTask(m, t, msg) =>
      Plan(m, None, t,
           {TaskInputRequired}, TaskWorking, EventCallerReplied, AuthorCaller, Some(msg), "", None, false)
    case CancelTask(m, t) =>
      Plan(m, None, t,
           {TaskSubmitted, TaskWorking, TaskInputRequired}, TaskCanceled, EventTaskCanceled,
           AuthorAgent, None, "", None, true)
    case FailTask(m, t) =>
      Plan(Meta(m.id, m.expectedRevision), Some(m.grant), t,
           {TaskWorking, TaskInputRequired}, TaskFailed, EventTaskFailed, AuthorAgent, None, "", None, true)
    case CompleteTask(m, t, sub, msg, art) =>
      Plan(Meta(m.id, m.expectedRevision), Some(m.grant), t,
           {TaskWorking}, TaskCompleted, EventTaskCompleted, AuthorAgent, Some(msg), sub, art, false)
  }

  /** The lease check of a worker command. A grant whose fence was given to
  another worker is reported as a corrupt store. */
  function LeaseRefusal(s: StoreState, g: LeaseGrant): Option<Error> {
    if LeaseKey(g.task, g.fence) !in s.grants then Some(StaleLease)
    else if s.grants[LeaseKey(g.task, g.fence)].grant != g then Some(CorruptStore)
    else if g.task !in s.tasks then Some(NotFound)
    else if s.tasks[g.task].lease != LeaseState(g.worker, g.fence) then Some(StaleLease)
    else None
  }

  function NextTask(p: Plan, current: Task, now: Time): Task {
    current.(
      state := p.next,
      revision := current.revision + 1,
      eventCount := current.eventCount + 1,
      messageCount := current.messageCount + (if p.message.Some? then 1 else 0),
      updatedAt := now,
      submission := if p.submission != "" then Some(SubmissionOf(p, now)) else current.submission)
  }

  function SubmissionOf(p: Plan, now: Time): Submission {
    Submission(p.submission, p.task, if p.message.Some? then p.message.value.id else "", p.artifact, now)
  }

  function NextRecord(p: Plan, current: TaskRecord, now: Time): TaskRecord {
    TaskRecord(
      NextTask(p, current.task, now),
      if p.next.Terminal() then LeaseState("", current.lease.fence) else current.lease,
      if p.artifact.Some? then Some(ArtifactPublished)
      else if p.discard && current.task.artifact.Some? then Some(ArtifactDiscarded)
      else current.artifactState)
  }

  function MessageOf(p: Plan, sequence: nat, size: nat, now: Time): MessageRecord
    requires p.message.Some?
  {
    MessageRecord(p.message.value.id, p.task, sequence, p.author, p.message.value.parts, size, now)
  }

  function EventOf(p: Plan, next: Task, now: Time): Event {
    Event(p.task, next.eventCount, p.event, next.state, next.revision,
          if p.message.Some? then p.message.value.id else "",
          p.submission,
          if p.artifact.Some? then p.artifact.value.id else "",
          now)
  }

  /** The Artifact a transition settles: published by completion, discarded by
  cancellation and failure. */
  function SettledArtifact(p: Plan, current: Task): Option<ArtifactRef> {
    if p.artifact.Some? then p.artifact
    else if p.discard then current.artifact
    else None
  }

  function SettledRow(p: Plan, row: ArtifactRecord, now: Time): ArtifactRecord {
    row.(artifact :=
      if p.artifact.Some?
      then row.artifact.(state := ArtifactPublished, publishedAt := Some(now), discardedAt := None)
      else row.artifact.(state := ArtifactDiscarded, publishedAt := None, discardedAt := Some(now)))
  }

  predicate Frozen(s: StoreState, a: ArtifactRef, task: TaskRef) {
    a in s.artifacts && s.artifacts[a].artifact.task == task && s.artifacts[a].artifact.state == ArtifactFrozen
  }

  function TransitionTime(s: StoreState, p: Plan, env: Env): Time
    requires p.task in s.tasks
  {
    AtLeast(env.clock, s.tasks[p.task].task.updatedAt)
  }

  /** The checks made before the Task row is swapped. */
  function EarlyRefusal(s: StoreState, p: Plan, env: Env): Option<Error> {
    if p.message.Some? && !SealFits(env.sealedSize, MAX_PAGE_BYTES) then Some(InvalidArgument)
    else if p.task !in s.tasks then Some(NotFound)
    else
      var current := s.tasks[p.task].task;
      if p.grant.Some? && LeaseRefusal(s, p.grant.value).Some? then LeaseRefusal(s, p.grant.value)
      else if current.revision != p.meta.expectedRevision then Some(RevisionConflict)
      else if current.state.Terminal() then Some(TerminalTask)
      else if current.state !in p.allowed then Some(InvalidTransition)
      else if current.revision >= MAX_INT64 || current.eventCount >= MAX_INT64
              || (p.message.Some? && current.messageCount >= MAX_INT64) then Some(RevisionConflict)
      else if !ValidTime(env.clock) then Some(InvalidArgument)
      else if p.submission != "" && current.artifact != p.artifact then Some(ArtifactStateError)
      else None
  }

  /** The checks the other writes make, in their order. */
  ghost function LateRefusal(s: StoreState, p: Plan, current: Task, now: Time): Option<Error> {
    var settled := SettledArtifact(p, current);
    if p.message.Some? && MessageKey(p.task.workspace.authority, p.message.value.id) in s.messages
    then Some(MessageConflict)
    else if settled.Some? && !Frozen(s, settled.value, p.task) then Some(ArtifactStateError)
    else if p.submission != "" && SubmissionTaken(s.submissions, SubmissionOf(p, now)) then Some(SubmissionConflict)
    else None
  }

  ghost function TransitionRefusal(s: StoreState, p: Plan, env: Env): Option<Error> {
    if EarlyRefusal(s, p, env).Some? then EarlyRefusal(s, p, env)
    else LateRefusal(s, p, s.tasks[p.task].task, TransitionTime(s, p, env))
  }

  function TransitionDelta(s: StoreState, p: Plan, c: Command, env: Env): Delta
    requires p.task in s.tasks
    requires var settled := SettledArtifact(p, s.tasks[p.task].task); settled.Some? ==> settled.value in s.artifacts
  {
    var record := s.tasks[p.task];
    var now := TransitionTime(s, p, env);
    var next := NextRecord(p, record, now);
    var settled := SettledArtifact(p, record.task);
    Delta(
      RecordOf(c, TaskAnswer(next.task), now),
      Some(next),
      if p.message.Some? then Some(MessageOf(p, next.task.messageCount, env.sealedSize, now)) else None,
      Some(EventOf(p, next.task, now)),
      None,
      if settled.Some? then Some(SettledRow(p, s.artifacts[settled.value], now)) else None,
      if p.submission != "" then Some(SubmissionOf(p, now)) else None,
      None, None)
  }

  // ---- Freeze

  function FrozenArtifact(c: Command, now: Time): Artifact
    requires c.FreezeArtifact?
  {
    var ref := ArtifactRef(c.task.workspace, c.artifactId);
    var digest := PayloadDigest(c.payload);
    var result := NextRevision(c.expectedBase, ref, digest);
    Artifact(ref, c.task, ArtifactFrozen, c.expectedBase, result,
             ArtifactDigest(ref, c.task, c.expectedBase, result, digest, c.payload.mediaType),
             digest, |c.payload.data|, c.payload.mediaType, now, None, None)
  }

  /** The checks on the Task row and the clock. */
  function FreezeEntryRefusal(s: StoreState, c: Command, env: Env): Option<Error>
    requires c.FreezeArtifact?
  {
    if c.task !in s.tasks then Some(NotFound)
    else
      var record := s.tasks[c.task];
      var current := record.task;
      if record.lease != LeaseState(c.meta.grant.worker, c.meta.grant.fence) then Some(StaleLease)
      else if current.revision != c.meta.expectedRevision then Some(RevisionConflict)
      else if current.state.Terminal() then Some(TerminalTask)
      else if current.state != TaskWorking then Some(InvalidTransition)
      else if current.artifact.Some? || current.submission.Some? then Some(ArtifactConflict)
      else if current.revision >= MAX_INT64 || current.eventCount >= MAX_INT64 then Some(RevisionConflict)
      else if !ValidTime(env.clock) then Some(InvalidArgument)
      else None
  }

  ghost function FreezeRefusal(s: StoreState, c: Command, env: Env): Option<Error>
    requires c.FreezeArtifact?
  {
    if |c.payload.data| > env.maxArtifactBytes then Some(InvalidArgument)
    else if !SealFits(env.sealedSize, MAX_STORED_ARTIFACT_BYTES) then Some(InvalidArgument)
    else if FreezeEntryRefusal(s, c, env).Some? then FreezeEntryRefusal(s, c, env)
    else
      var w := c.task.workspace;
      if w in s.heads && s.heads[w].confirmedRevision != c.expectedBase then Some(WorkspaceConflict)
      else if ArtifactTaken(s.artifacts, FrozenArtifact(c, AtLeast(env.clock, s.tasks[c.task].task.updatedAt)))
      then Some(ArtifactConflict)
      else None
  }

  function FrozenTask(current: Task, ref: ArtifactRef, now: Time): Task {
    current.(revision := current.revision + 1, eventCount := current.eventCount + 1,
             updatedAt := now, artifact := Some(ref))
  }

  function FreezeDelta(s: StoreState, c: Command, env: Env): Delta
    requires c.FreezeArtifact? && c.task in s.tasks
  {
    var record := s.tasks[c.task];
    var now := AtLeast(env.clock, record.task.updatedAt);
    var artifact := FrozenArtifact(c, now);
    var next := FrozenTask(record.task, artifact.ref, now);
    Delta(
      RecordOf(c, FreezeAnswer(next, artifact), now),
      Some(TaskRecord(next, record.lease, Some(ArtifactFrozen))),
      None,
      Some(Event(c.task, next.eventCount, EventArtifactFrozen, TaskWorking, next.revision,
                 "", "", artifact.ref.id, now)),
      None,
      Some(ArtifactRecord(artifact, env.sealedSize)),
      None,
      if c.task.workspace in s.heads then None else Some(WorkspaceHead(c.task.workspace, c.expectedBase, now)),
      None)
  }

  // ---- Leases

  function LastGrantedAt(s: StoreState, record: TaskRecord): Time {
    var key := LeaseKey(record.task.ref, record.lease.fence);
    if key in s.grants then s.grants[key].grantedAt else ZERO_TIME
  }

  function GrantTime(s: StoreState, record: TaskRecord, env: Env): Time {
    AtLeast(AtLeast(env.clock, record.task.updatedAt), LastGrantedAt(s, record))
  }

  /** Grants the next fence of one unleased Task. */
  function GrantDelta(s: StoreState, c: Command, record: TaskRecord, worker: Id, env: Env): Delta {
    var now := GrantTime(s, record, env);
    var grant := LeaseGrant(record.task.ref, worker, record.lease.fence + 1);
    Delta(
      RecordOf(c, AssignmentAnswer(LeaseAssignment(grant, record.task, now)), now),
      Some(record.(lease := LeaseState(worker, record.lease.fence + 1))),
      None, None,
      Some(GrantRecord(grant, now)),
      None, None, None, None)
  }

  function AcquireRefusal(s: StoreState, c: Command, env: Env): Option<Error>
    requires c.AcquireLease?
  {
    if c.task !in s.tasks then Some(NotFound)
    else
      var record := s.tasks[c.task];
      if record.task.state.Terminal() then Some(TerminalTask)
      else if record.lease.owner != "" then Some(LeaseUnavailable)
      else if record.lease.fence >= MAX_INT64 then Some(LeaseFenceExhausted)
      else if !ValidTime(env.clock) then Some(InvalidArgument)
      else None
  }

  ghost function ClaimedTask(s: StoreState, authority: Id): Option<TaskRef> {
    if exists ref :: OldestClaimable(s.tasks, authority, ref)
    then var ref :| OldestClaimable(s.tasks, authority, ref); Some(ref)
    else None
  }

  ghost function ClaimRefusal(s: StoreState, c: Command, env: Env): Option<Error>
    requires c.ClaimLease?
  {
    var claimed := ClaimedTask(s, c.authority);
    if claimed.None? then Some(LeaseNotFound)
    else if s.tasks[claimed.value].lease.fence >= MAX_INT64 then Some(LeaseFenceExhausted)
    else if !ValidTime(env.clock) then Some(InvalidArgument)
    else None
  }

  function FenceRefusal(s: StoreState, c: Command, env: Env): Option<Error>
    requires c.FenceLease?
  {
    if c.grant.task !in s.tasks then Some(NotFound)
    else if LeaseRefusal(s, c.grant).Some? then LeaseRefusal(s, c.grant)
    else if !ValidTime(env.clock) then Some(InvalidArgument)
    else None
  }

  function FenceDelta(s: StoreState, c: Command, env: Env): Delta
    requires c.FenceLease? && c.grant.task in s.tasks
  {
    Delta(
      RecordOf(c, GrantAnswer(c.grant), env.clock),
      Some(s.tasks[c.grant.task].(lease := LeaseState("", c.grant.fence))),
      None, None, None, None, None, None, None)
  }

  // ---- Apply receipts

  function ReceiptOf(c: Command, now: Time): ApplyReceipt
    requires c.RecordApplyReceipt?
  {
    ApplyReceipt(c.receipt, c.artifactRef, c.artifactDigest, c.baseRevision, c.resultRevision,
                 c.decision, c.observedRevision, c.code, c.note, now)
  }

  function ReceiptTime(a: Artifact, env: Env): Time {
    AtLeast(AtLeast(env.clock, a.frozenAt), if a.publishedAt.Some? then a.publishedAt.value else ZERO_TIME)
  }

  /** The checks on the Artifact and the clock. */
  function ReceiptEntryRefusal(s: StoreState, c: Command, env: Env): Option<Error>
    requires c.RecordApplyReceipt?
  {
    if c.artifactRef !in s.artifacts then Some(ArtifactNotFound)
    else
      var artifact := s.artifacts[c.artifactRef].artifact;
      if artifact.state != ArtifactPublished then Some(ArtifactStateError)
      else if c.artifactDigest != artifact.digest || c.baseRevision != artifact.baseRevision
              || c.resultRevision != artifact.resultRevision then Some(ReceiptConflict)
      else if !ValidTime(env.clock) then Some(InvalidArgument)
      else None
  }

  ghost function ReceiptRefusal(s: StoreState, c: Command, env: Env): Option<Error>
    requires c.RecordApplyReceipt?
  {
    if ReceiptEntryRefusal(s, c, env).Some? then ReceiptEntryRefusal(s, c, env)
    else
      var artifact := s.artifacts[c.artifactRef].artifact;
      var receipt := ReceiptOf(c, ReceiptTime(artifact, env));
      var w := artifact.ref.workspace;
      if c.artifactRef in s.receipts then
        if SameReceiptDecision(s.receipts[c.artifactRef], receipt) then None else Some(ReceiptConflict)
      else if c.decision == ApplySuccess
              && (w !in s.heads || s.heads[w].confirmedRevision != artifact.baseRevision)
      then Some(WorkspaceConflict)
      else if ReceiptTaken(s.receipts, receipt) then Some(ReceiptConflict)
      else None
  }

  function ReceiptDelta(s: StoreState, c: Command, env: Env): Delta
    requires c.RecordApplyReceipt? && c.artifactRef in s.artifacts
  {
    var artifact := s.artifacts[c.artifactRef].artifact;
    var now := ReceiptTime(artifact, env);
    if c.artifactRef in s.receipts then
      Delta(RecordOf(c, ReceiptAnswer(s.receipts[c.artifactRef]), now),
            None, None, None, None, None, None, None, None)
    else
      Delta(
        RecordOf(c, ReceiptAnswer(ReceiptOf(c, now)), now),
        None, None, None, None, None, None,
        if c.decision == ApplySuccess
        then Some(WorkspaceHead(artifact.ref.workspace, artifact.resultRevision, now)) else None,
        Some(ReceiptOf(c, now)))
  }

  // ---- One execution

  ghost function Refusal(s: StoreState, c: Command, env: Env): Option<Error> {
    if c.CreateTask? then CreateRefusal(s, c, env)
    else if c.FreezeArtifact? then FreezeRefusal(s, c, env)
    else if c.AcquireLease? then AcquireRefusal(s, c, env)
    else if c.ClaimLease? then ClaimRefusal(s, c, env)
    else if c.FenceLease? then FenceRefusal(s, c, env)
    else if c.RecordApplyReceipt? then ReceiptRefusal(s, c, env)
    else TransitionRefusal(s, PlanOf(c), env)
  }

  ghost function Decide(s: StoreState, c: Command, env: Env): Delta
    requires Refusal(s, c, env).None?
  {
    if c.CreateTask? then CreateDelta(c, env)
    else if c.FreezeArtifact? then FreezeDelta(s, c, env)
    else if c.AcquireLease? then GrantDelta(s, c, s.tasks[c.task], c.worker, env)
    else if c.ClaimLease? then GrantDelta(s, c, s.tasks[ClaimedTask(s, c.authority).value], c.worker, env)
    else if c.FenceLease? then FenceDelta(s, c, env)
    else if c.RecordApplyReceipt? then ReceiptDelta(s, c, env)
    else TransitionDelta(s, PlanOf(c), c, env)
  }

  datatype Outcome = Outcome(state: StoreState, answer: Result<Answer>)

  predicate Committed(s: StoreState, c: Command) {
    KeyOf(c) in s.commands && s.commands[KeyOf(c)].intent == c
  }

  /** The command commits now: it is new, and every check passes. */
  ghost predicate Commits(s: StoreState, c: Command, env: Env) {
    ValidCommand(c) && KeyOf(c) !in s.commands && Refusal(s, c, env).None?
  }

  ghost function Execute(s: StoreState, c: Command, env: Env): Outcome {
    if !ValidCommand(c) then Outcome(s, Err(InvalidArgument))
    else if KeyOf(c) in s.commands then
      Outcome(s, if Committed(s, c) then Ok(s.commands[KeyOf(c)].answer) else Err(IdempotencyConflict))
    else if Refusal(s, c, env).Some? then Outcome(s, Err(Refusal(s, c, env).value))
    else Outcome(Apply(s, Decide(s, c, env)), Ok(Decide(s, c, env).command.answer))
  }
}
