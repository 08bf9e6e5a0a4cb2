/** What the store itself guarantees, whatever its callers do: arbitrary sequences
of its write operations in transactions that commit or roll back. */
module Transactions {
  import opened Types
  import opened Store
  import opened Commands
  import opened Invariant
  import opened Growth

  datatype Settlement = Settlement(state: ArtifactState, publishedAt: Option<Time>, discardedAt: Option<Time>)

  datatype Write =
    | AddCommand(command: CommandRecord)
    | AddTask(task: TaskRecord)
    | SwapTask(ref: TaskRef, condition: TaskCondition, task: TaskRecord)
    | AddMessage(message: MessageRecord)
    | AddEvent(event: Event)
    | AddGrant(grant: GrantRecord)
    | AddArtifact(artifact: ArtifactRecord)
    | SettleArtifact(key: ArtifactRef, owner: TaskRef, expected: ArtifactState, settlement: Settlement)
    | AddSubmission(submission: Submission)
    | AddHead(head: WorkspaceHead)
    | SwapHead(confirmed: Revision, head: WorkspaceHead)
    | AddReceipt(receipt: ApplyReceipt)

  function Settled(r: ArtifactRecord, x: Settlement): ArtifactRecord {
    r.(artifact := r.artifact.(state := x.state, publishedAt := x.publishedAt, discardedAt := x.discardedAt))
  }

  // Each table after a write, which leaves it alone when it is refused or about another table.

  function CommandsAfter(commands: map<CommandKey, CommandRecord>, w: Write): map<CommandKey, CommandRecord> {
    if w.AddCommand? && CommandKey(w.command.authority, w.command.id) !in commands
    then commands[CommandKey(w.command.authority, w.command.id) := w.command] else commands
  }

  predicate SwapAccepted(tasks: map<TaskRef, TaskRecord>, ref: TaskRef, condition: TaskCondition, next: TaskRecord) {
    && ref in tasks && next.task.ref == ref && condition.expectedRevision != 0
    && ConditionHolds(condition, tasks[ref])
    && next.task.context == tasks[ref].task.context && next.task.createdAt == tasks[ref].task.createdAt
  }

  ghost function TasksAfter(tasks: map<TaskRef, TaskRecord>, w: Write): map<TaskRef, TaskRecord> {
    match w
    case AddTask(r) => if PublicIdTaken(tasks, r.task.ref) then tasks else tasks[r.task.ref := r]
    case SwapTask(ref, condition, next) => if SwapAccepted(tasks, ref, condition, next) then tasks[ref := next] else tasks
    case _ => tasks
  }

  ghost function MessagesAfter(messages: map<MessageKey, MessageRecord>, w: Write): map<MessageKey, MessageRecord> {
    if w.AddMessage? && !MessageTaken(messages, w.message) then messages[w.message.Key() := w.message] else messages
  }

  function EventsAfter(events: map<TaskRef, Log>, w: Write): map<TaskRef, Log> {
    if w.AddEvent? && !(w.event.task in events && w.event.sequence in events[w.event.task])
    then events[w.event.task := LogAfter(events, w.event)] else events
  }

  function GrantsAfter(grants: map<LeaseKey, GrantRecord>, w: Write): map<LeaseKey, GrantRecord> {
    if w.AddGrant? && w.grant.Key() !in grants then grants[w.grant.Key() := w.grant] else grants
  }

  ghost function ArtifactsAfter(artifacts: map<ArtifactRef, ArtifactRecord>, w: Write): map<ArtifactRef, ArtifactRecord> {
    match w
    case AddArtifact(r) => if ArtifactTaken(artifacts, r.artifact) then artifacts else artifacts[r.artifact.ref := r]
    case SettleArtifact(ref, owner, expected, x) =>
      if owner.workspace == ref.workspace && ref in artifacts
         && artifacts[ref].artifact.task == owner && artifacts[ref].artifact.state == expected
      then artifacts[ref := Settled(artifacts[ref], x)] else artifacts
    case _ => artifacts
  }

  ghost function SubmissionsAfter(submissions: map<TaskRef, Submission>, w: Write): map<TaskRef, Submission> {
    if w.AddSubmission? && !SubmissionTaken(submissions, w.submission)
    then submissions[w.submission.task := w.submission] else submissions
  }

  function HeadsAfter(heads: map<WorkspaceRef, WorkspaceHead>, w: Write): map<WorkspaceRef, WorkspaceHead> {
    match w
    case AddHead(h) => if h.workspace in heads then heads else heads[h.workspace := h]
    case SwapHead(expected, h) =>
      if h.workspace in heads && heads[h.workspace].confirmedRevision == expected then heads[h.workspace := h] else heads
    case _ => heads
  }

  ghost function ReceiptsAfter(receipts: map<ArtifactRef, ApplyReceipt>, w: Write): map<ArtifactRef, ApplyReceipt> {
    if w.AddReceipt? && !ReceiptTaken(receipts, w.receipt) then receipts[w.receipt.artifact := w.receipt] else receipts
  }

  ghost function After(s: StoreState, w: Write): StoreState {
    StoreState(
      CommandsAfter(s.commands, w), TasksAfter(s.tasks, w), MessagesAfter(s.messages, w), EventsAfter(s.events, w),
      GrantsAfter(s.grants, w), ArtifactsAfter(s.artifacts, w), SubmissionsAfter(s.submissions, w),
      HeadsAfter(s.heads, w), ReceiptsAfter(s.receipts, w))
  }

  /** Every write is about one table and leaves the rest of the store alone. */
  lemma {:induction false} AfterIs(s: StoreState, w: Write)
    ensures match w
            case AddCommand(_) => After(s, w) == s.(commands := CommandsAfter(s.commands, w))
            case AddTask(_) => After(s, w) == s.(tasks := TasksAfter(s.tasks, w))
            case SwapTask(_, _, _) => After(s, w) == s.(tasks := TasksAfter(s.tasks, w))
            case AddMessage(_) => After(s, w) == s.(messages := MessagesAfter(s.messages, w))
            case AddEvent(_) => After(s, w) == s.(events := EventsAfter(s.events, w))
            case AddGrant(_) => After(s, w) == s.(grants := GrantsAfter(s.grants, w))
            case AddArtifact(_) => After(s, w) == s.(artifacts := ArtifactsAfter(s.artifacts, w))
            case SettleArtifact(_, _, _, _) => After(s, w) == s.(artifacts := ArtifactsAfter(s.artifacts, w))
            case AddSubmission(_) => After(s, w) == s.(submissions := SubmissionsAfter(s.submissions, w))
            case AddHead(_) => After(s, w) == s.(heads := HeadsAfter(s.heads, w))
            case SwapHead(_, _) => After(s, w) == s.(heads := HeadsAfter(s.heads, w))
            case AddReceipt(_) => After(s, w) == s.(receipts := ReceiptsAfter(s.receipts, w))
  {}

  /** The callback of an Update goes on after a refusal or not, as it pleases; what
  it wrote is kept when it returns without an error. */
  datatype Transaction = Transaction(writes: seq<Write>, commits: bool)

  ghost function WriteAll(s: StoreState, writes: seq<Write>): StoreState
    decreases |writes|
  {
    if writes == [] then s else WriteAll(After(s, writes[0]), writes[1..])
  }

  ghost function UpdateAll(s: StoreState, updates: seq<Transaction>): StoreState
    decreases |updates|
  {
    if updates == [] then s
    else UpdateAll(if updates[0].commits then WriteAll(s, updates[0].writes) else s, updates[1..])
  }

  // ---- Unique identifiers

  ghost predicate TaskKeysOk(tasks: map<TaskRef, TaskRecord>) {
    && (forall a | a in tasks :: tasks[a].task.ref == a)
    && PublicIdsUnique(tasks)
  }

  ghost predicate MessageKeysOk(messages: map<MessageKey, MessageRecord>) {
    && (forall a | a in messages :: messages[a].Key() == a)
    && (forall a, b | a in messages && b in messages ::
          messages[a].task == messages[b].task && messages[a].sequence == messages[b].sequence ==> a == b)
  }

  ghost predicate ArtifactKeysOk(artifacts: map<ArtifactRef, ArtifactRecord>) {
    && (forall a | a in artifacts :: artifacts[a].artifact.ref == a)
    && ArtifactIdsUnique(artifacts)
    && (forall a, b | a in artifacts && b in artifacts :: artifacts[a].artifact.task == artifacts[b].artifact.task ==> a == b)
  }

  ghost predicate SubmissionKeysOk(submissions: map<TaskRef, Submission>) {
    && (forall a | a in submissions :: submissions[a].task == a)
    && (forall a, b | a in submissions && b in submissions ::
          a.workspace.authority == b.workspace.authority && submissions[a].id == submissions[b].id ==> a == b)
  }

  ghost predicate ReceiptKeysOk(receipts: map<ArtifactRef, ApplyReceipt>) {
    && (forall a | a in receipts :: receipts[a].artifact == a)
    && (forall a, b | a in receipts && b in receipts ::
          a.workspace.authority == b.workspace.authority && receipts[a].id == receipts[b].id ==> a == b)
  }

  // The tables whose only rule is that a row stands under its own key.

  ghost predicate CommandKeysOk(commands: map<CommandKey, CommandRecord>) {
    forall k | k in commands :: CommandKey(commands[k].authority, commands[k].id) == k
  }

  ghost predicate EventKeysOk(events: map<TaskRef, Log>) {
    forall t, n | t in events && n in events[t] :: events[t][n].task == t && events[t][n].sequence == n
  }

  ghost predicate GrantKeysOk(grants: map<LeaseKey, GrantRecord>) {
    forall k | k in grants :: grants[k].Key() == k
  }

  ghost predicate HeadKeysOk(heads: map<WorkspaceRef, WorkspaceHead>) {
    forall k | k in heads :: heads[k].workspace == k
  }

  ghost predicate KeysOk(s: StoreState) {
    && TaskKeysOk(s.tasks)
    && MessageKeysOk(s.messages)
    && ArtifactKeysOk(s.artifacts)
    && SubmissionKeysOk(s.submissions)
    && ReceiptKeysOk(s.receipts)
    && CommandKeysOk(s.commands) && EventKeysOk(s.events) && GrantKeysOk(s.grants) && HeadKeysOk(s.heads)
  }

  // ---- Permanent rows

  ghost predicate SameTask(a: Task, b: Task) {
    a.ref == b.ref && a.context == b.context && a.createdAt == b.createdAt
  }

  ghost predicate TaskIdentitiesKept(a: map<TaskRef, TaskRecord>, b: map<TaskRef, TaskRecord>) {
    forall k | k in a :: k in b && SameTask(a[k].task, b[k].task)
  }

  /** All of an Artifact but how it was settled. */
  ghost predicate SameContent(a: ArtifactRecord, b: ArtifactRecord) {
    b == Settled(a, Settlement(b.artifact.state, b.artifact.publishedAt, b.artifact.discardedAt))
  }

  ghost predicate ArtifactContentKept(a: map<ArtifactRef, ArtifactRecord>, b: map<ArtifactRef, ArtifactRecord>) {
    forall k | k in a :: k in b && SameContent(a[k], b[k])
  }

  ghost predicate Kept(s: StoreState, s': StoreState) {
    && Extends(s.commands, s'.commands)
    && TaskIdentitiesKept(s.tasks, s'.tasks)
    && Extends(s.messages, s'.messages)
    && LogsGrow(s.events, s'.events)
    && Extends(s.grants, s'.grants)
    && ArtifactContentKept(s.artifacts, s'.artifacts)
    && Extends(s.submissions, s'.submissions)
    && Extends(s.receipts, s'.receipts)
  }

  lemma {:induction false} KeptReflexive(s: StoreState)
    ensures Kept(s, s)
  {}

  lemma {:induction false} KeptTransitive(a: StoreState, b: StoreState, c: StoreState)
    requires Kept(a, b) && Kept(b, c)
    ensures Kept(a, c)
  {
    hide SameContent, LogsGrow;
    LogsGrowTransitive(a.events, b.events, c.events);
    forall k | k in a.artifacts ensures k in c.artifacts && SameContent(a.artifacts[k], c.artifacts[k]) {
      SameContentTransitive(a.artifacts[k], b.artifacts[k], c.artifacts[k]);
    }
  }

  lemma {:induction false} SameContentTransitive(a: ArtifactRecord, b: ArtifactRecord, c: ArtifactRecord)
    requires SameContent(a, b) && SameContent(b, c)
    ensures SameContent(a, c)
  {}

  // ---- One write

  lemma {:induction false} WriteTasks(tasks: map<TaskRef, TaskRecord>, w: Write)
    requires TaskKeysOk(tasks)
    ensures var after := TasksAfter(tasks, w);
            TaskKeysOk(after) && TaskIdentitiesKept(tasks, after)
  {}

  lemma {:induction false} WriteMessages(messages: map<MessageKey, MessageRecord>, w: Write)
    requires MessageKeysOk(messages)
    ensures var after := MessagesAfter(messages, w);
            MessageKeysOk(after) && Extends(messages, after)
  {}

  lemma {:induction false} WriteArtifacts(artifacts: map<ArtifactRef, ArtifactRecord>, w: Write)
    requires ArtifactKeysOk(artifacts)
    ensures var after := ArtifactsAfter(artifacts, w);
            ArtifactKeysOk(after) && ArtifactContentKept(artifacts, after)
  {}

  lemma {:induction false} WriteSubmissions(submissions: map<TaskRef, Submission>, w: Write)
    requires SubmissionKeysOk(submissions)
    ensures var after := SubmissionsAfter(submissions, w);
            SubmissionKeysOk(after) && Extends(submissions, after)
  {}

  lemma {:induction false} WriteReceipts(receipts: map<ArtifactRef, ApplyReceipt>, w: Write)
    requires ReceiptKeysOk(receipts)
    ensures var after := ReceiptsAfter(receipts, w);
            ReceiptKeysOk(after) && Extends(receipts, after)
  {}

  lemma {:induction false} WriteEvents(events: map<TaskRef, Log>, w: Write)
    requires EventKeysOk(events)
    ensures EventKeysOk(EventsAfter(events, w)) && LogsGrow(events, EventsAfter(events, w))
  {}

  lemma {:induction false} WriteKeeps(s: StoreState, w: Write)
    requires KeysOk(s)
    ensures KeysOk(After(s, w)) && Kept(s, After(s, w))
  {
    hide TaskKeysOk, MessageKeysOk, EventKeysOk, ArtifactKeysOk, SubmissionKeysOk, ReceiptKeysOk;
    hide TasksAfter, MessagesAfter, EventsAfter, ArtifactsAfter, SubmissionsAfter, ReceiptsAfter;
    hide LogsGrow, TaskIdentitiesKept, ArtifactContentKept;
    WriteTasks(s.tasks, w);
    WriteMessages(s.messages, w);
    WriteEvents(s.events, w);
    WriteArtifacts(s.artifacts, w);
    WriteSubmissions(s.submissions, w);
    WriteReceipts(s.receipts, w);
  }

  // ---- Whole runs

  lemma {:induction false} WriteAllKeeps(s: StoreState, writes: seq<Write>)
    requires KeysOk(s)
    ensures KeysOk(WriteAll(s, writes)) && Kept(s, WriteAll(s, writes))
    decreases |writes|
  {
    hide KeysOk, Kept, After;
    if writes == [] {
      KeptReflexive(s);
    } else {
      var next := After(s, writes[0]);
      WriteKeeps(s, writes[0]);
      WriteAllKeeps(next, writes[1..]);
      KeptTransitive(s, next, WriteAll(next, writes[1..]));
    }
  }

  /** Whatever its callers write, in any order, with any commits and rollbacks, the
  store keeps identifiers unique and changes no row that is final once written. */
  lemma {:induction false} UpdatesKeep(s: StoreState, updates: seq<Transaction>)
    requires KeysOk(s)
    ensures KeysOk(UpdateAll(s, updates)) && Kept(s, UpdateAll(s, updates))
    decreases |updates|
  {
    hide KeysOk, Kept, WriteAll;
    KeptReflexive(s);
    if updates != [] {
      WriteAllKeeps(s, updates[0].writes);
      var next := if updates[0].commits then WriteAll(s, updates[0].writes) else s;
      UpdatesKeep(next, updates[1..]);
      KeptTransitive(s, next, UpdateAll(next, updates[1..]));
    }
  }

  /** The lookups by public identifier are functions of every store that any
  transactions can build. */
  lemma {:induction false} IdentifiersAreUnique(updates: seq<Transaction>)
    ensures KeysOk(UpdateAll(EMPTY, updates))
  {
    hide UpdateAll;
    UpdatesKeep(EMPTY, updates);
  }
}
