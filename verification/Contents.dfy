/** What a committed command asked for is what the store holds: the exact message,
Submission, Artifact or receipt, unchanged by anything committed later. */
module Contents {
  import opened Types
  import opened Validators
  import opened Store
  import opened Commands
  import opened Invariant
  import opened Growth
  import opened Commit
  import opened Runs
  import F = Fencing

  predicate MessageStored(s: StoreState, task: TaskRef, m: MessageInput, sequence: nat, author: Author) {
    var key := MessageKey(task.workspace.authority, m.id);
    && key in s.messages
    && var row := s.messages[key];
       row == MessageRecord(m.id, task, sequence, author, m.parts, row.encodedSize, row.createdAt)
  }

  /** The Task exists in its context and begins with the message. */
  predicate CreationStored(s: StoreState, task: TaskRef, context: ContextRef, m: MessageInput) {
    task in s.tasks && s.tasks[task].task.context == context && MessageStored(s, task, m, 1, AuthorCaller)
  }

  lemma {:induction false} CreationStays(s: StoreState, s': StoreState, task: TaskRef, context: ContextRef, m: MessageInput)
    requires CreationStored(s, task, context, m) && Grows(s, s')
    ensures CreationStored(s', task, context, m)
  {
    hide LogsGrow, ArtifactsGrow, HeadsGrow;
    assert RecordGrows(s.tasks[task], s'.tasks[task]);
  }

  predicate EventStored(s: StoreState, task: TaskRef, n: nat, kind: EventType, state: TaskState,
                        message: Id, submission: Id, artifact: Id, at: Time)
  {
    && task in s.events && n in s.events[task]
    && EventIs(s.events[task][n], task, n, kind, state, message, submission, artifact) && s.events[task][n].occurredAt == at
  }

  /** The command took its Task to `state` at revision `n`, as its answer and the event say. */
  predicate Moved(s: StoreState, r: CommandRecord, task: TaskRef, n: nat, kind: EventType, state: TaskState,
                  message: Id, submission: Id, artifact: Id)
  {
    && r.answer.TaskAnswer? && r.answer.result.ref == task && r.answer.result.state == state
    && r.answer.result.revision == n && r.answer.result.updatedAt == r.createdAt
    && EventStored(s, task, n, kind, state, message, submission, artifact, r.createdAt)
  }

  /** The new message is the last one of the Task as answered. */
  predicate MessageAdded(s: StoreState, r: CommandRecord, task: TaskRef, m: MessageInput, author: Author) {
    r.answer.TaskAnswer? && MessageStored(s, task, m, r.answer.result.messageCount, author)
  }

  /** An Artifact the Task had is discarded with it. */
  predicate Discards(s: StoreState, r: CommandRecord) {
    r.answer.TaskAnswer? && r.answer.result.artifact.Some? ==>
      var a := r.answer.result.artifact.value;
      && a in s.artifacts && s.artifacts[a].artifact.state == ArtifactDiscarded
      && s.artifacts[a].artifact.publishedAt.None? && s.artifacts[a].artifact.discardedAt == Some(r.createdAt)
  }

  predicate Publishes(s: StoreState, r: CommandRecord, b: Submission) {
    && r.answer.TaskAnswer? && r.answer.result.submission == Some(b) && r.answer.result.artifact == b.artifact
    && b.task in s.submissions && s.submissions[b.task] == b
    && (b.artifact.Some? ==>
          var a := b.artifact.value;
          && a in s.artifacts && s.artifacts[a].artifact.state == ArtifactPublished
          && s.artifacts[a].artifact.publishedAt == Some(b.publishedAt) && s.artifacts[a].artifact.discardedAt.None?)
  }

  /** The Artifact is the frozen payload, on the base it was asked to be on. */
  predicate FrozenAs(a: Artifact, task: TaskRef, id: Id, base: Revision, p: Payload, at: Time) {
    && a.ref == ArtifactRef(task.workspace, id) && a.task == task
    && a.baseRevision == base && a.resultRevision == NextRevision(base, a.ref, PayloadDigest(p))
    && a.payloadDigest == PayloadDigest(p) && a.payloadSize == |p.data| && a.mediaType == p.mediaType
    && a.digest == ArtifactDigest(a.ref, task, base, a.resultRevision, PayloadDigest(p), p.mediaType)
    && a.frozenAt == at
  }

  predicate Freezes(s: StoreState, r: CommandRecord, task: TaskRef, n: nat, id: Id, base: Revision, p: Payload) {
    && r.answer.FreezeAnswer? && r.answer.result.ref == task && r.answer.result.state == TaskWorking
    && r.answer.result.revision == n && r.answer.result.updatedAt == r.createdAt
    && r.answer.result.artifact == Some(ArtifactRef(task.workspace, id))
    && r.answer.frozen.state == ArtifactFrozen && FrozenAs(r.answer.frozen, task, id, base, p, r.createdAt)
    && EventStored(s, task, n, EventArtifactFrozen, TaskWorking, "", "", id, r.createdAt)
    && ArtifactRef(task.workspace, id) in s.artifacts
    && FrozenAs(s.artifacts[ArtifactRef(task.workspace, id)].artifact, task, id, base, p, r.createdAt)
  }

  /** The answer is a new grant of an open Task, and stays in its grant history. */
  predicate Grants(s: StoreState, r: CommandRecord, worker: Id) {
    && r.answer.AssignmentAnswer?
    && var a := r.answer.assignment;
       && a.grant.worker == worker && a.task.ref == a.grant.task && !a.task.state.Terminal() && a.grantedAt == r.createdAt
       && LeaseKey(a.grant.task, a.grant.fence) in s.grants
       && s.grants[LeaseKey(a.grant.task, a.grant.fence)] == GrantRecord(a.grant, r.createdAt)
  }

  /** What the store keeps of one recorded command, kind by kind. */
  predicate ContentOk(s: StoreState, r: CommandRecord) {
    match r.intent
    case CreateTask(_, t, x, m) =>
      CreationStored(s, t, x, m) && Moved(s, r, t, 1, EventTaskSubmitted, TaskSubmitted, m.id, "", "")
    case AcceptTask(m, t) =>
      Moved(s, r, t, m.expectedRevision + 1, EventTaskAccepted, TaskWorking, "", "", "")
    case RejectTask(m, t) =>
      Moved(s, r, t, m.expectedRevision + 1, EventTaskRejected, TaskRejected, "", "", "")
    case RequestInput(m, t, msg) =>
      && Moved(s, r, t, m.expectedRevision + 1, EventInputRequired, TaskInputRequired, msg.id, "", "")
      && MessageAdded(s, r, t, msg, AuthorAgent)
    case ReplyTask(m, t, msg) =>
      && Moved(s, r, t, m.expectedRevision + 1, EventCallerReplied, TaskWorking, msg.id, "", "")
      && MessageAdded(s, r, t, msg, AuthorCaller)
    case CancelTask(m, t) =>
      Moved(s, r, t, m.expectedRevision + 1, EventTaskCanceled, TaskCanceled, "", "", "") && Discards(s, r)
    case FailTask(m, t) =>
      Moved(s, r, t, m.expectedRevision + 1, EventTaskFailed, TaskFailed, "", "", "") && Discards(s, r)
    case CompleteTask(m, t, id, msg, a) =>
      && Moved(s, r, t, m.expectedRevision + 1, EventTaskCompleted, TaskCompleted, msg.id, id, if a.Some? then a.value.id else "")
      && MessageAdded(s, r, t, msg, AuthorAgent)
      && Publishes(s, r, Submission(id, t, msg.id, a, r.createdAt))
    case FreezeArtifact(m, t, id, base, p) => Freezes(s, r, t, m.expectedRevision + 1, id, base, p)
    case AcquireLease(_, t, w) => Grants(s, r, w) && r.answer.assignment.grant.task == t
    case ClaimLease(_, authority, w) => Grants(s, r, w) && r.answer.assignment.grant.task.workspace.authority == authority
    case FenceLease(_, g) => r.answer == GrantAnswer(g) && F.Retired(s, g)
    case RecordApplyReceipt(_, id, ref, digest, base, result, decision, observed, code, note) =>
      && ref in s.receipts && r.answer == ReceiptAnswer(s.receipts[ref])
      && s.receipts[ref] == ApplyReceipt(id, ref, digest, base, result, decision, observed, code, note, s.receipts[ref].recordedAt)
  }

  ghost predicate ContentsOk(s: StoreState) {
    forall key | key in s.commands :: ContentOk(s, s.commands[key])
  }

  lemma {:induction false} EventStays(s: StoreState, s': StoreState, task: TaskRef, n: nat, kind: EventType, state: TaskState,
                                      message: Id, submission: Id, artifact: Id, at: Time)
    requires EventStored(s, task, n, kind, state, message, submission, artifact, at) && Grows(s, s')
    ensures EventStored(s', task, n, kind, state, message, submission, artifact, at)
  {
    hide TasksGrow, ArtifactsGrow, HeadsGrow;
    assert Extends(s.events[task], s'.events[task]);
  }

  lemma {:induction false} MovedStays(s: StoreState, s': StoreState, r: CommandRecord, task: TaskRef, n: nat, kind: EventType,
                                      state: TaskState, message: Id, submission: Id, artifact: Id)
    requires Moved(s, r, task, n, kind, state, message, submission, artifact) && Grows(s, s')
    ensures Moved(s', r, task, n, kind, state, message, submission, artifact)
  {
    hide EventStored, Grows;
    EventStays(s, s', task, n, kind, state, message, submission, artifact, r.createdAt);
  }

  lemma {:induction false} FreezesStays(s: StoreState, s': StoreState, r: CommandRecord, task: TaskRef, n: nat, id: Id, base: Revision, p: Payload)
    requires Freezes(s, r, task, n, id, base, p) && Grows(s, s')
    ensures Freezes(s', r, task, n, id, base, p)
  {
    hide EventStored, TasksGrow, LogsGrow, HeadsGrow;
    EventStays(s, s', task, n, EventArtifactFrozen, TaskWorking, "", "", id, r.createdAt);
    var ref := ArtifactRef(task.workspace, id);
    assert ArtifactGrows(s.artifacts[ref].artifact, s'.artifacts[ref].artifact);
  }

  /** Messages, settled Artifacts, Submissions, grants and receipts stay. */
  lemma {:induction false} RowsStay(s: StoreState, s': StoreState, r: CommandRecord)
    requires Grows(s, s')
    ensures forall t, m, author | MessageAdded(s, r, t, m, author) :: MessageAdded(s', r, t, m, author)
    ensures Discards(s, r) ==> Discards(s', r)
    ensures forall b | Publishes(s, r, b) :: Publishes(s', r, b)
    ensures forall w | Grants(s, r, w) :: Grants(s', r, w)
    ensures forall ref | ref in s.receipts :: ref in s'.receipts && s'.receipts[ref] == s.receipts[ref]
  {
    hide TasksGrow, LogsGrow, HeadsGrow;
  }

  lemma {:induction false} MovementStays(s: StoreState, s': StoreState, r: CommandRecord)
    requires ContentOk(s, r) && Grows(s, s') && (r.intent.CreateTask? || IsTransition(r.intent))
    ensures ContentOk(s', r)
  {
    hide Moved, MessageAdded, Discards, Publishes, CreationStored, Grows;
    RowsStay(s, s', r);
    match r.intent
    case CreateTask(_, t, x, m) =>
      CreationStays(s, s', t, x, m);
      MovedStays(s, s', r, t, 1, EventTaskSubmitted, TaskSubmitted, m.id, "", "");
    case AcceptTask(m, t) => MovedStays(s, s', r, t, m.expectedRevision + 1, EventTaskAccepted, TaskWorking, "", "", "");
    case RejectTask(m, t) => MovedStays(s, s', r, t, m.expectedRevision + 1, EventTaskRejected, TaskRejected, "", "", "");
    case RequestInput(m, t, msg) => MovedStays(s, s', r, t, m.expectedRevision + 1, EventInputRequired, TaskInputRequired, msg.id, "", "");
    case ReplyTask(m, t, msg) => MovedStays(s, s', r, t, m.expectedRevision + 1, EventCallerReplied, TaskWorking, msg.id, "", "");
    case CancelTask(m, t) => MovedStays(s, s', r, t, m.expectedRevision + 1, EventTaskCanceled, TaskCanceled, "", "", "");
    case FailTask(m, t) => MovedStays(s, s', r, t, m.expectedRevision + 1, EventTaskFailed, TaskFailed, "", "", "");
    case CompleteTask(m, t, id, msg, a) =>
      MovedStays(s, s', r, t, m.expectedRevision + 1, EventTaskCompleted, TaskCompleted, msg.id, id, if a.Some? then a.value.id else "");
  }

  lemma {:induction false} ContentStays(s: StoreState, s': StoreState, r: CommandRecord)
    requires ContentOk(s, r) && Grows(s, s')
    ensures ContentOk(s', r)
  {
    hide Moved, MessageAdded, Discards, Publishes, CreationStored, Grants, Freezes, F.Retired, Grows;
    var c := r.intent;
    RowsStay(s, s', r);
    if c.FreezeArtifact? {
      FreezesStays(s, s', r, c.task, c.meta.expectedRevision + 1, c.artifactId, c.expectedBase, c.payload);
    } else if c.FenceLease? {
      F.RetiredForever(s, s', c.grant);
    } else if c.CreateTask? || IsTransition(c) {
      MovementStays(s, s', r);
    }
  }

  // ---- One commit

  lemma {:induction false} CountsAgree(s: StoreState, ref: TaskRef)
    requires TasksOk(s.tasks) && ref in s.tasks
    ensures s.tasks[ref].task.ref == ref && s.tasks[ref].task.eventCount == s.tasks[ref].task.revision
  {
    assert TaskRowOk(ref, s.tasks[ref]);
  }

  /** A committed transition writes the event of its plan at the revision it expected. */
  lemma {:induction false} PlanMoves(s: StoreState, p: Plan, c: Command, env: Env)
    requires TasksOk(s.tasks) && TransitionRefusal(s, p, env).None?
    ensures var d := TransitionDelta(s, p, c, env);
            Moved(Apply(s, d), d.command, p.task, p.meta.expectedRevision + 1, p.event, p.next,
                  if p.message.Some? then p.message.value.id else "", p.submission,
                  if p.artifact.Some? then p.artifact.value.id else "")
  {
    hide SubmissionTaken, KeyOf, LeaseRefusal, TasksOk;
    CountsAgree(s, p.task);
  }

  ghost predicate ArtifactsKeyed(s: StoreState) {
    forall a | a in s.artifacts :: s.artifacts[a].artifact.ref == a
  }

  lemma {:induction false} PlanContent(s: StoreState, p: Plan, c: Command, env: Env)
    requires ArtifactsKeyed(s) && TransitionRefusal(s, p, env).None?
    ensures var d := TransitionDelta(s, p, c, env);
            && (p.message.Some? ==> MessageAdded(Apply(s, d), d.command, p.task, p.message.value, p.author))
            && (p.discard && p.artifact.None? ==> Discards(Apply(s, d), d.command))
  {
    hide SubmissionTaken, KeyOf, LeaseRefusal, LogAfter, SubmissionOf;
  }

  lemma {:induction false} PlanPublishes(s: StoreState, p: Plan, c: Command, env: Env)
    requires ArtifactsKeyed(s) && TransitionRefusal(s, p, env).None? && p.submission != "" && p.message.Some? && !p.discard
    ensures var d := TransitionDelta(s, p, c, env);
            Publishes(Apply(s, d), d.command, Submission(p.submission, p.task, p.message.value.id, p.artifact, d.command.createdAt))
  {
    hide SubmissionTaken, KeyOf, LeaseRefusal, LogAfter;
  }

  lemma {:induction false} TransitionContent(s: StoreState, c: Command, env: Env)
    requires TasksOk(s.tasks) && ArtifactsKeyed(s) && IsTransition(c) && TransitionRefusal(s, PlanOf(c), env).None? && (c.CompleteTask? ==> c.submission != "")
    ensures var d := TransitionDelta(s, PlanOf(c), c, env); ContentOk(Apply(s, d), d.command)
  {
    hide Moved, MessageAdded, Discards, Publishes, Apply, TransitionRefusal, KeyOf, TasksOk, ArtifactsKeyed;
    var p := PlanOf(c);
    PlanMoves(s, p, c, env);
    PlanContent(s, p, c, env);
    if c.CompleteTask? {
      PlanPublishes(s, p, c, env);
    }
    DeltaRecord(s, p, c, env);
    hide TransitionDelta;
  }

  lemma {:induction false} DeltaRecord(s: StoreState, p: Plan, c: Command, env: Env)
    requires TransitionRefusal(s, p, env).None?
    ensures TransitionDelta(s, p, c, env).command.intent == c
  {
    hide SubmissionTaken, KeyOf, LeaseRefusal;
  }

  lemma {:induction false} SubmissionNamed(c: Command)
    requires ValidCommand(c) && c.CompleteTask?
    ensures c.submission != ""
  {}

  lemma {:induction false} ReceiptContent(s: StoreState, c: Command, env: Env)
    requires c.RecordApplyReceipt? && ReceiptRefusal(s, c, env).None?
    ensures var d := ReceiptDelta(s, c, env); ContentOk(Apply(s, d), d.command)
  {
    hide ReceiptTaken, KeyOf;
  }

  lemma {:induction false} CreateContent(s: StoreState, c: Command, env: Env)
    requires c.CreateTask?
    ensures var d := CreateDelta(c, env); ContentOk(Apply(s, d), d.command)
  {
    hide KeyOf;
  }

  lemma {:induction false} FreezeAnswers(s: StoreState, c: Command, env: Env)
    requires TasksOk(s.tasks) && c.FreezeArtifact? && FreezeEntryRefusal(s, c, env).None?
    ensures var r := FreezeDelta(s, c, env).command;
            && r.intent == c && r.answer.FreezeAnswer? && r.answer.result.ref == c.task && r.answer.result.state == TaskWorking
            && r.answer.result.revision == c.meta.expectedRevision + 1 && r.answer.result.updatedAt == r.createdAt
            && r.answer.result.artifact == Some(ArtifactRef(c.task.workspace, c.artifactId))
            && r.answer.frozen.state == ArtifactFrozen
            && FrozenAs(r.answer.frozen, c.task, c.artifactId, c.expectedBase, c.payload, r.createdAt)
  {
    hide KeyOf;
    assert TaskRowOk(c.task, s.tasks[c.task]);
  }

  lemma {:induction false} FreezeEvent(s: StoreState, c: Command, env: Env)
    requires TasksOk(s.tasks) && c.FreezeArtifact? && FreezeEntryRefusal(s, c, env).None?
    ensures var d := FreezeDelta(s, c, env);
            EventStored(Apply(s, d), c.task, c.meta.expectedRevision + 1, EventArtifactFrozen, TaskWorking, "", "", c.artifactId, d.command.createdAt)
  {
    hide KeyOf, FrozenAs, TasksOk;
    CountsAgree(s, c.task);
  }

  lemma {:induction false} FreezeRow(s: StoreState, c: Command, env: Env)
    requires c.FreezeArtifact? && FreezeEntryRefusal(s, c, env).None?
    ensures var d := FreezeDelta(s, c, env);
            && ArtifactRef(c.task.workspace, c.artifactId) in Apply(s, d).artifacts
            && FrozenAs(Apply(s, d).artifacts[ArtifactRef(c.task.workspace, c.artifactId)].artifact, c.task, c.artifactId,
                        c.expectedBase, c.payload, d.command.createdAt)
  {
    hide KeyOf, LogAfter;
  }

  lemma {:induction false} FreezeContent(s: StoreState, c: Command, env: Env)
    requires TasksOk(s.tasks) && c.FreezeArtifact? && FreezeRefusal(s, c, env).None?
    ensures var d := FreezeDelta(s, c, env); ContentOk(Apply(s, d), d.command)
  {
    hide ArtifactTaken, FreezeDelta, Apply, EventStored, FrozenAs, TasksOk, FreezeEntryRefusal, FrozenArtifact;
    FreezeAnswers(s, c, env);
    FreezeEvent(s, c, env);
    FreezeRow(s, c, env);
  }

  lemma {:induction false} GrantContent(s: StoreState, c: Command, env: Env)
    requires TasksOk(s.tasks) && (c.AcquireLease? || c.ClaimLease?) && Refusal(s, c, env).None?
    ensures ContentOk(Apply(s, Decide(s, c, env)), Decide(s, c, env).command)
  {
    hide KeyOf, GrantTime, LogAfter, ValidTaskRecord;
    var ref := if c.AcquireLease? then c.task else ClaimedTask(s, c.authority).value;
    assert TaskRowOk(ref, s.tasks[ref]);
  }

  lemma {:induction false} FenceContent(s: StoreState, c: Command, env: Env)
    requires ValidCommand(c) && c.FenceLease? && TasksOk(s.tasks) && FenceRefusal(s, c, env).None?
    ensures ContentOk(Apply(s, FenceDelta(s, c, env)), FenceDelta(s, c, env).command)
  {
    hide KeyOf;
    assert TaskRowOk(c.grant.task, s.tasks[c.grant.task]);
  }

  /** A commit stores what it was asked to store. */
  lemma {:induction false} CommitStores(s: StoreState, c: Command, env: Env)
    requires Inv(s) && Commits(s, c, env)
    ensures ContentOk(Apply(s, Decide(s, c, env)), Decide(s, c, env).command)
  {
    hide ValidCommand, KeyOf, TransitionRefusal, TransitionDelta, ReceiptRefusal, ReceiptDelta, ContentOk, TasksOk, ArtifactsOk, LogsOk, MessagesOk;
    hide CreateRefusal, CreateDelta, FreezeRefusal, FreezeDelta, FenceRefusal, FenceDelta, AcquireRefusal, ClaimRefusal, GrantDelta, Apply;
    ArtifactKeys(s);
    if c.CreateTask? {
      CreateContent(s, c, env);
    } else if c.FreezeArtifact? {
      FreezeContent(s, c, env);
    } else if IsTransition(c) {
      if c.CompleteTask? {
        SubmissionNamed(c);
      }
      TransitionContent(s, c, env);
    } else if c.RecordApplyReceipt? {
      ReceiptContent(s, c, env);
    } else if c.FenceLease? {
      FenceContent(s, c, env);
    } else {
      GrantContent(s, c, env);
    }
  }

  lemma {:induction false} ExecuteStores(s: StoreState, c: Command, env: Env)
    requires Inv(s) && ContentsOk(s)
    ensures ContentsOk(Execute(s, c, env).state)
  {
    hide Inv, Grows, KeyOf, ContentOk, Refusal, Decide, ValidCommand;
    var s' := Execute(s, c, env).state;
    ExecuteKeeps(s, c, env);
    forall key | key in s'.commands ensures ContentOk(s', s'.commands[key]) {
      if key in s.commands {
        RecordKept(s, s', key);
        ContentStays(s, s', s.commands[key]);
      } else {
        F.NewRecordOnly(s, c, env, key);
        CommitStores(s, c, env);
      }
    }
  }

  lemma {:induction false} RunStores(s: StoreState, actions: seq<Action>)
    requires Inv(s) && ContentsOk(s)
    ensures ContentsOk(Run(s, actions))
    decreases |actions|
  {
    hide Inv, ContentsOk, Execute, Grows;
    if actions != [] {
      ExecuteKeeps(s, actions[0].command, actions[0].env);
      ExecuteStores(s, actions[0].command, actions[0].env);
      RunStores(Execute(s, actions[0].command, actions[0].env).state, actions[1..]);
    }
  }

  /** In every reachable store, every recorded command finds its content stored
  exactly: its message under its sequence and author, its Submission naming that
  message, its Artifact with the digests of its payload, its receipt decision. */
  lemma {:induction false} CommittedContentIsStored(s: StoreState, key: CommandKey)
    requires Reachable(s) && key in s.commands
    ensures ContentOk(s, s.commands[key])
  {
    hide Inv, ContentOk, Run;
    var actions: seq<Action> :| Run(EMPTY, actions) == s;
    EmptyInv();
    RunStores(EMPTY, actions);
  }
}
