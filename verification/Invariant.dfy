/** What every reachable store satisfies.

The invariant is a conjunction of groups. Each group names exactly the maps it
constrains, so a commit that leaves those maps alone keeps the group.
*/
module Invariant {
  import opened Types
  import opened Validators
  import opened Store
  import opened Commands

  // ---- Task rows

  /** Caller and agent turns alternate: a Task waits for the side whose turn it is. */
  predicate TurnsAlternate(t: Task) {
    && (t.state.TaskSubmitted? || t.state.TaskWorking? || t.state.TaskRejected? ==> t.messageCount % 2 == 1)
    && (t.state.TaskInputRequired? || t.state.TaskCompleted? ==> t.messageCount % 2 == 0)
  }

  /** The row check every load repeats. */
  predicate ValidTaskRecord(r: TaskRecord) {
    && ValidStoredTask(r.task)
    && (r.lease.owner != "" ==> r.lease.fence != 0 && !r.task.state.Terminal())
    && (r.task.artifact.Some? <==> r.artifactState.Some?)
    && (r.artifactState.Some? ==>
          match r.artifactState.value
          case ArtifactFrozen => r.task.state.TaskWorking? || r.task.state.TaskInputRequired?
          case ArtifactPublished => r.task.state.TaskCompleted?
          case ArtifactDiscarded => r.task.state.TaskCanceled? || r.task.state.TaskFailed?)
  }

  predicate TaskRowOk(ref: TaskRef, r: TaskRecord) {
    && r.task.ref == ref && ValidTaskRecord(r) && TurnsAlternate(r.task)
    && ValidTime(r.task.createdAt) && ValidTime(r.task.updatedAt)
    && r.lease.fence <= MAX_INT64 && (r.lease.owner != "" ==> ValidId(r.lease.owner))
  }

  ghost predicate TasksOk(tasks: map<TaskRef, TaskRecord>) {
    forall ref | ref in tasks :: TaskRowOk(ref, tasks[ref])
  }

  ghost predicate PublicIdsUnique(tasks: map<TaskRef, TaskRecord>) {
    forall a, b | a in tasks && b in tasks :: a.workspace.authority == b.workspace.authority && a.id == b.id ==> a == b
  }

  // ---- Event logs

  /** What a reader of the event log alone knows about a Task. */
  datatype LogView = LogView(
    state: TaskState, messages: nat, artifact: Id, submission: Id, finalMessage: Id, createdAt: Time, updatedAt: Time)

  function ReadEvent(v: LogView, e: Event): LogView {
    LogView(
      e.state,
      v.messages + (if e.message != "" then 1 else 0),
      if e.kind.EventArtifactFrozen? then e.artifact else v.artifact,
      e.submission,
      if e.kind.EventTaskCompleted? then e.message else "",
      if e.kind.EventTaskSubmitted? then e.occurredAt else v.createdAt,
      e.occurredAt)
  }

  function Fold(log: Log, n: nat): LogView {
    if n == 0 || n !in log then LogView(TaskSubmitted, 0, "", "", "", 0, 0)
    else ReadEvent(Fold(log, n - 1), log[n])
  }

  function ViewOf(t: Task): LogView {
    LogView(t.state, t.messageCount,
            if t.artifact.Some? then t.artifact.value.id else "",
            if t.submission.Some? then t.submission.value.id else "",
            if t.submission.Some? then t.submission.value.finalMessage else "",
            t.createdAt, t.updatedAt)
  }

  /** The lifecycle: which event may follow which observed state, never
  earlier than the event before it. */
  predicate MayFollow(v: LogView, e: Event) {
    if e.kind.EventTaskSubmitted? then e.sequence == 1
    else
      && e.sequence > 1 && v.updatedAt <= e.occurredAt
      && match e.kind
         case EventTaskAccepted => v.state.TaskSubmitted?
         case EventTaskRejected => v.state.TaskSubmitted?
         case EventInputRequired => v.state.TaskWorking?
         case EventCallerReplied => v.state.TaskInputRequired?
         case EventTaskCanceled => !v.state.Terminal()
         case EventTaskFailed => v.state.TaskWorking? || v.state.TaskInputRequired?
         case EventTaskCompleted => v.state.TaskWorking? && e.artifact == v.artifact
         case EventArtifactFrozen => v.state.TaskWorking? && v.artifact == ""
         case EventTaskSubmitted => true
  }

  predicate EventRowOk(ref: TaskRef, n: nat, e: Event) {
    ValidStoredEvent(e) && e.task == ref && e.sequence == n && ValidTime(e.occurredAt)
  }

  predicate LogRowOk(ref: TaskRef, log: Log, n: nat)
    requires n in log && n >= 1
  {
    EventRowOk(ref, n, log[n]) && MayFollow(Fold(log, n - 1), log[n])
  }

  ghost predicate LogOk(ref: TaskRef, log: Log, t: Task) {
    && (forall n :: n in log <==> 1 <= n <= t.eventCount)
    && (forall n {:trigger LogRowOk(ref, log, n)} | n in log :: LogRowOk(ref, log, n))
    && Fold(log, t.eventCount) == ViewOf(t)
  }

  ghost predicate LogsOk(tasks: map<TaskRef, TaskRecord>, events: map<TaskRef, Log>) {
    && tasks.Keys == events.Keys
    && forall ref | ref in tasks :: LogOk(ref, events[ref], tasks[ref].task)
  }

  // ---- Messages

  predicate MessageRowOk(tasks: map<TaskRef, TaskRecord>, key: MessageKey, m: MessageRecord) {
    && key == m.Key()
    && m.task in tasks && m.sequence <= tasks[m.task].task.messageCount
    && ValidStoredMessage(m.id, m.task, m.sequence, m.author, m.parts, m.createdAt)
    && SealFits(m.encodedSize, MAX_PAGE_BYTES)
    && m.createdAt <= tasks[m.task].task.updatedAt
  }

  ghost predicate HasMessage(messages: map<MessageKey, MessageRecord>, ref: TaskRef, n: nat) {
    exists key :: key in messages && messages[key].task == ref && messages[key].sequence == n
  }

  ghost predicate MessageTableOk(tasks: map<TaskRef, TaskRecord>, messages: map<MessageKey, MessageRecord>) {
    forall key | key in messages :: MessageRowOk(tasks, key, messages[key])
  }

  ghost predicate MessageOrderOk(messages: map<MessageKey, MessageRecord>) {
    forall a, b | a in messages && b in messages && messages[a].task == messages[b].task ::
      && (messages[a].sequence == messages[b].sequence ==> a == b)
      && (messages[a].sequence <= messages[b].sequence ==> messages[a].createdAt <= messages[b].createdAt)
  }

  ghost predicate MessagesComplete(tasks: map<TaskRef, TaskRecord>, messages: map<MessageKey, MessageRecord>) {
    forall ref, n | ref in tasks && 1 <= n <= tasks[ref].task.messageCount :: HasMessage(messages, ref, n)
  }

  ghost predicate MessagesOk(tasks: map<TaskRef, TaskRecord>, messages: map<MessageKey, MessageRecord>) {
    && MessageTableOk(tasks, messages)
    && MessageOrderOk(messages)
    && MessagesComplete(tasks, messages)
  }

  /** The message an event names is the one written with it. */
  predicate LinkOk(log: Log, messages: map<MessageKey, MessageRecord>, n: nat)
    requires n in log
  {
    var e := log[n];
    e.message != "" ==>
      var key := MessageKey(e.task.workspace.authority, e.message);
      && key in messages && messages[key].task == e.task
      && messages[key].sequence == Fold(log, n).messages && messages[key].createdAt == e.occurredAt
  }

  ghost predicate LinksOk(events: map<TaskRef, Log>, messages: map<MessageKey, MessageRecord>) {
    forall ref, n {:trigger LinkOk(events[ref], messages, n)} | ref in events && n in events[ref] ::
      LinkOk(events[ref], messages, n)
  }

  // ---- Leases

  predicate GrantRowOk(tasks: map<TaskRef, TaskRecord>, grants: map<LeaseKey, GrantRecord>, key: LeaseKey)
    requires key in grants
  {
    var g := grants[key];
    && key == g.Key() && ValidGrant(g.grant) && ValidTime(g.grantedAt)
    && key.task in tasks && key.fence <= tasks[key.task].lease.fence
    && tasks[key.task].task.createdAt <= g.grantedAt
    && (key.fence > 1 ==>
          var previous := LeaseKey(key.task, key.fence - 1);
          previous in grants && grants[previous].grantedAt <= g.grantedAt)
  }

  /** The lease pointer of a Task is the head of its grant history. */
  predicate LeaseHeadOk(grants: map<LeaseKey, GrantRecord>, ref: TaskRef, lease: LeaseState) {
    && (lease.fence > 0 ==> LeaseKey(ref, lease.fence) in grants)
    && (lease.owner != "" ==> lease.fence > 0 && grants[LeaseKey(ref, lease.fence)].grant.worker == lease.owner)
  }

  ghost predicate GrantTableOk(tasks: map<TaskRef, TaskRecord>, grants: map<LeaseKey, GrantRecord>) {
    forall key | key in grants :: GrantRowOk(tasks, grants, key)
  }

  ghost predicate LeaseHeadsOk(tasks: map<TaskRef, TaskRecord>, grants: map<LeaseKey, GrantRecord>) {
    forall ref | ref in tasks :: LeaseHeadOk(grants, ref, tasks[ref].lease)
  }

  ghost predicate GrantsOk(tasks: map<TaskRef, TaskRecord>, grants: map<LeaseKey, GrantRecord>) {
    GrantTableOk(tasks, grants) && LeaseHeadsOk(tasks, grants)
  }

  // ---- Artifacts, submissions, heads and receipts

  predicate ArtifactRowOk(tasks: map<TaskRef, TaskRecord>, heads: map<WorkspaceRef, WorkspaceHead>,
                          ref: ArtifactRef, r: ArtifactRecord)
  {
    && r.artifact.ref == ref && ValidStoredArtifact(r.artifact) && SealFits(r.encodedSize, MAX_STORED_ARTIFACT_BYTES)
    && ValidTime(r.artifact.frozenAt)
    && (r.artifact.publishedAt.Some? ==> ValidTime(r.artifact.publishedAt.value))
    && r.artifact.task in tasks
    && tasks[r.artifact.task].task.artifact == Some(ref)
    && tasks[r.artifact.task].artifactState == Some(r.artifact.state)
    && r.artifact.frozenAt <= tasks[r.artifact.task].task.updatedAt
    && ref.workspace in heads
  }

  ghost predicate ArtifactTableOk(tasks: map<TaskRef, TaskRecord>, artifacts: map<ArtifactRef, ArtifactRecord>,
                                  heads: map<WorkspaceRef, WorkspaceHead>)
  {
    forall ref | ref in artifacts :: ArtifactRowOk(tasks, heads, ref, artifacts[ref])
  }

  ghost predicate ArtifactLinksOk(tasks: map<TaskRef, TaskRecord>, artifacts: map<ArtifactRef, ArtifactRecord>) {
    forall t | t in tasks && tasks[t].task.artifact.Some? ::
      && tasks[t].task.artifact.value in artifacts
      && artifacts[tasks[t].task.artifact.value].artifact.task == t
  }

  ghost predicate ArtifactIdsUnique(artifacts: map<ArtifactRef, ArtifactRecord>) {
    forall a, b | a in artifacts && b in artifacts ::
      a.workspace.authority == b.workspace.authority && a.id == b.id ==> a == b
  }

  ghost predicate ArtifactsOk(tasks: map<TaskRef, TaskRecord>, artifacts: map<ArtifactRef, ArtifactRecord>,
                              heads: map<WorkspaceRef, WorkspaceHead>)
  {
    && ArtifactTableOk(tasks, artifacts, heads)
    && ArtifactLinksOk(tasks, artifacts)
    && ArtifactIdsUnique(artifacts)
  }

  ghost predicate SubmissionsOk(tasks: map<TaskRef, TaskRecord>, submissions: map<TaskRef, Submission>) {
    && (forall t | t in submissions ::
          t in tasks && submissions[t].task == t && tasks[t].task.submission == Some(submissions[t]))
    && (forall t | t in tasks && tasks[t].task.submission.Some? :: t in submissions)
    && (forall a, b | a in submissions && b in submissions ::
          a.workspace.authority == b.workspace.authority && submissions[a].id == submissions[b].id ==> a == b)
  }

  ghost predicate HeadsOk(heads: map<WorkspaceRef, WorkspaceHead>) {
    forall w | w in heads ::
      heads[w].workspace == w && ValidRevision(heads[w].confirmedRevision) && ValidTime(heads[w].updatedAt)
  }

  /** `r` lies on the chain of bases below `head`. */
  predicate OnChain(r: Revision, head: Revision) {
    r == head || (head.NextRevision? && OnChain(r, head.base))
  }

  predicate ReceiptRowOk(artifacts: map<ArtifactRef, ArtifactRecord>, heads: map<WorkspaceRef, WorkspaceHead>,
                         ref: ArtifactRef, r: ApplyReceipt)
  {
    && r.artifact == ref && ValidStoredReceipt(r) && ValidTime(r.recordedAt)
    && ref in artifacts
    && artifacts[ref].artifact.state == ArtifactPublished && artifacts[ref].artifact.publishedAt.Some?
    && r.artifactDigest == artifacts[ref].artifact.digest
    && r.baseRevision == artifacts[ref].artifact.baseRevision
    && r.resultRevision == artifacts[ref].artifact.resultRevision
    && artifacts[ref].artifact.publishedAt.value <= r.recordedAt
    && (r.decision == ApplySuccess ==>
          ref.workspace in heads && OnChain(r.resultRevision, heads[ref.workspace].confirmedRevision))
  }

  ghost predicate ReceiptsOk(artifacts: map<ArtifactRef, ArtifactRecord>, receipts: map<ArtifactRef, ApplyReceipt>,
                             heads: map<WorkspaceRef, WorkspaceHead>)
  {
    && (forall ref | ref in receipts :: ReceiptRowOk(artifacts, heads, ref, receipts[ref]))
    && (forall a, b | a in receipts && b in receipts ::
          a.workspace.authority == b.workspace.authority && receipts[a].id == receipts[b].id ==> a == b)
  }

  // ---- Command receipts

  predicate GrantRecorded(grants: map<LeaseKey, GrantRecord>, g: LeaseGrant) {
    LeaseKey(g.task, g.fence) in grants && grants[LeaseKey(g.task, g.fence)].grant == g
  }

  /** Everything a replay of this receipt re-checks. */
  predicate AnswerOk(s: StoreState, c: Command, a: Answer) {
    match c
    case CreateTask(_, t, x, _) =>
      a.TaskAnswer? && ValidStoredTask(a.result) && a.result.ref == t && a.result.context == x
    case FreezeArtifact(m, t, id, _, _) =>
      && a.FreezeAnswer? && ValidFreezeResult(a.result, a.frozen) && a.result.ref == t
      && a.frozen.ref == ArtifactRef(t.workspace, id)
      && GrantRecorded(s.grants, m.grant)
      && a.frozen.ref in s.artifacts && SameArtifactIdentity(s.artifacts[a.frozen.ref].artifact, a.frozen)
    case AcquireLease(_, t, w) =>
      && a.AssignmentAnswer? && ValidAssignment(a.assignment)
      && a.assignment.grant.task == t && a.assignment.grant.worker == w
      && GrantRecorded(s.grants, a.assignment.grant)
      && s.grants[LeaseKey(t, a.assignment.grant.fence)].grantedAt == a.assignment.grantedAt
    case ClaimLease(_, auth, w) =>
      && a.AssignmentAnswer? && ValidAssignment(a.assignment)
      && a.assignment.grant.task.workspace.authority == auth && a.assignment.grant.worker == w
      && GrantRecorded(s.grants, a.assignment.grant)
      && s.grants[LeaseKey(a.assignment.grant.task, a.assignment.grant.fence)].grantedAt == a.assignment.grantedAt
    case FenceLease(_, g) => a == GrantAnswer(g) && GrantRecorded(s.grants, g)
    case RecordApplyReceipt(_, id, ref, _, _, _, _, _, _, _) =>
      && a.ReceiptAnswer? && a.receipt.artifact == ref && a.receipt.id == id
      && ref in s.receipts && s.receipts[ref] == a.receipt
    case _ =>
      var p := PlanOf(c);
      && a.TaskAnswer? && ValidStoredTask(a.result) && a.result.ref == p.task && a.result.state == p.next
      && (p.grant.Some? ==> GrantRecorded(s.grants, p.grant.value))
  }

  predicate CommandRowOk(s: StoreState, key: CommandKey, r: CommandRecord) {
    && key == CommandKey(r.authority, r.id) && key == KeyOf(r.intent)
    && ValidCommand(r.intent) && ValidTime(r.createdAt)
    && AnswerOk(s, r.intent, r.answer)
  }

  ghost predicate CommandsOk(s: StoreState) {
    forall key | key in s.commands :: CommandRowOk(s, key, s.commands[key])
  }

  // ---- One command per event

  /** Commands that advance a Task, in one-to-one relation with events. */
  predicate Advances(c: Command) {
    c.CreateTask? || c.FreezeArtifact? || IsTransition(c)
  }

  predicate AnswersTask(a: Answer) { a.TaskAnswer? || a.FreezeAnswer? }

  predicate EventIs(e: Event, task: TaskRef, n: nat, kind: EventType, state: TaskState, message: Id, submission: Id, artifact: Id) {
    e == Event(task, n, kind, state, n, message, submission, artifact, e.occurredAt)
  }

  /** The event a command leaves behind: its kind, the state it leads to, the revision
  after the expected one, and what it names. */
  predicate EventMatches(c: Command, e: Event)
    requires Advances(c)
  {
    match c
    case CreateTask(_, t, _, m) => EventIs(e, t, 1, EventTaskSubmitted, TaskSubmitted, m.id, "", "")
    case AcceptTask(m, t) => EventIs(e, t, m.expectedRevision + 1, EventTaskAccepted, TaskWorking, "", "", "")
    case RejectTask(m, t) => EventIs(e, t, m.expectedRevision + 1, EventTaskRejected, TaskRejected, "", "", "")
    case FailTask(m, t) => EventIs(e, t, m.expectedRevision + 1, EventTaskFailed, TaskFailed, "", "", "")
    case CancelTask(m, t) => EventIs(e, t, m.expectedRevision + 1, EventTaskCanceled, TaskCanceled, "", "", "")
    case RequestInput(m, t, msg) => EventIs(e, t, m.expectedRevision + 1, EventInputRequired, TaskInputRequired, msg.id, "", "")
    case ReplyTask(m, t, msg) => EventIs(e, t, m.expectedRevision + 1, EventCallerReplied, TaskWorking, msg.id, "", "")
    case CompleteTask(m, t, b, msg, a) =>
      EventIs(e, t, m.expectedRevision + 1, EventTaskCompleted, TaskCompleted, msg.id, b, if a.Some? then a.value.id else "")
    case FreezeArtifact(m, t, a, _, _) => EventIs(e, t, m.expectedRevision + 1, EventArtifactFrozen, TaskWorking, "", "", a)
  }

  /** The command receipt `r` produced event `n` of Task `ref`. */
  predicate Produced(r: CommandRecord, ref: TaskRef, n: nat) {
    Advances(r.intent) && AnswersTask(r.answer) && r.answer.result.ref == ref && r.answer.result.revision == n
  }

  ghost predicate HasCommand(commands: map<CommandKey, CommandRecord>, ref: TaskRef, n: nat) {
    exists key :: key in commands && Produced(commands[key], ref, n)
  }

  predicate EffectRowOk(events: map<TaskRef, Log>, r: CommandRecord) {
    Advances(r.intent) ==>
      && AnswersTask(r.answer)
      && var t := r.answer.result;
         t.ref in events && t.revision in events[t.ref] && EventMatches(r.intent, events[t.ref][t.revision])
  }

  ghost predicate EffectsOk(commands: map<CommandKey, CommandRecord>, events: map<TaskRef, Log>) {
    && (forall key | key in commands :: EffectRowOk(events, commands[key]))
    && (forall a, b, ref, n | a in commands && b in commands
                              && Produced(commands[a], ref, n) && Produced(commands[b], ref, n) :: a == b)
    && (forall ref, n | ref in events && n in events[ref] :: HasCommand(commands, ref, n))
  }

  // ---- What the checks say about one row

  lemma {:induction false} TaskRowAt(s: StoreState, ref: TaskRef)
    requires TasksOk(s.tasks) && ref in s.tasks
    ensures s.tasks[ref].task.ref == ref && ValidTaskRecord(s.tasks[ref])
    ensures s.tasks[ref].lease.owner != "" ==> ValidId(s.tasks[ref].lease.owner)
    ensures s.tasks[ref].lease.fence <= MAX_INT64
  {
    assert TaskRowOk(ref, s.tasks[ref]);
  }

  lemma {:induction false} GrantRowAt(s: StoreState, key: LeaseKey)
    requires GrantsOk(s.tasks, s.grants) && key in s.grants
    ensures s.grants[key].Key() == key && ValidGrant(s.grants[key].grant) && ValidTime(s.grants[key].grantedAt)
    ensures key.task in s.tasks && s.tasks[key.task].task.createdAt <= s.grants[key].grantedAt
  {
    assert GrantRowOk(s.tasks, s.grants, key);
  }

  lemma {:induction false} GrantKeys(s: StoreState)
    requires GrantsOk(s.tasks, s.grants)
    ensures forall key | key in s.grants :: s.grants[key].Key() == key
  {
    forall key | key in s.grants ensures s.grants[key].Key() == key {
      GrantRowAt(s, key);
    }
  }

  lemma {:induction false} ArtifactKeys(s: StoreState)
    requires ArtifactsOk(s.tasks, s.artifacts, s.heads)
    ensures forall ref | ref in s.artifacts :: s.artifacts[ref].artifact.ref == ref
  {
    forall ref | ref in s.artifacts ensures s.artifacts[ref].artifact.ref == ref {
      assert ArtifactRowOk(s.tasks, s.heads, ref, s.artifacts[ref]);
    }
  }

  lemma {:induction false} TaskKeys(s: StoreState)
    requires TasksOk(s.tasks)
    ensures forall ref | ref in s.tasks :: s.tasks[ref].task.ref == ref
  {
    forall ref | ref in s.tasks ensures s.tasks[ref].task.ref == ref {
      TaskRowAt(s, ref);
    }
  }

  // ---- The invariant

  ghost predicate Inv(s: StoreState) {
    && TasksOk(s.tasks) && PublicIdsUnique(s.tasks)
    && LogsOk(s.tasks, s.events)
    && MessagesOk(s.tasks, s.messages) && LinksOk(s.events, s.messages)
    && GrantsOk(s.tasks, s.grants)
    && ArtifactsOk(s.tasks, s.artifacts, s.heads)
    && SubmissionsOk(s.tasks, s.submissions)
    && HeadsOk(s.heads)
    && ReceiptsOk(s.artifacts, s.receipts, s.heads)
    && CommandsOk(s)
    && EffectsOk(s.commands, s.events)
  }

  lemma {:induction false} EmptyInv()
    ensures Inv(EMPTY)
  {}
}
