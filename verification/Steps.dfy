/** Every commit keeps the invariant. One section per kind of commit. */
module Steps {
  import opened Types
  import opened Validators
  import opened Store
  import opened Commands
  import opened Invariant
  import opened Tables

  lemma {:induction false} LogBelow(tasks: Tasks, events: map<TaskRef, Log>, ref: TaskRef)
    requires LogsOk(tasks, events) && ref in tasks
    ensures ref in events && forall n | n in events[ref] :: n < tasks[ref].task.eventCount + 1
  {
    assert LogOk(ref, events[ref], tasks[ref].task);
  }

  // ---- Create

  lemma {:induction false} CreateKeepsTasks(s: StoreState, c: Command, env: Env)
    requires c.CreateTask? && ValidCommand(c) && CreateRefusal(s, c, env).None?
    requires TasksOk(s.tasks) && PublicIdsUnique(s.tasks) && GrantsOk(s.tasks, s.grants)
    requires ArtifactsOk(s.tasks, s.artifacts, s.heads) && SubmissionsOk(s.tasks, s.submissions)
    ensures c.task !in s.tasks
    ensures var s' := Apply(s, CreateDelta(c, env));
            && TasksOk(s'.tasks) && PublicIdsUnique(s'.tasks) && GrantsOk(s'.tasks, s'.grants)
            && ArtifactsOk(s'.tasks, s'.artifacts, s'.heads) && SubmissionsOk(s'.tasks, s'.submissions)
  {
    var r := CreateDelta(c, env).task.value;
    assert TaskRowOk(c.task, r);
    PublicIdsAfterCreate(s.tasks, c.task, r);
    GrantsAfterTask(s.tasks, s.grants, c.task, r);
    ArtifactsAfterTask(s.tasks, s.artifacts, s.heads, c.task, r);
    SubmissionsAfterTask(s.tasks, s.submissions, c.task, r);
  }

  lemma {:induction false} CreateKeepsLogs(s: StoreState, c: Command, env: Env)
    requires c.CreateTask? && ValidCommand(c) && CreateRefusal(s, c, env).None? && c.task !in s.tasks
    requires LogsOk(s.tasks, s.events) && LinksOk(s.events, s.messages)
    ensures var s' := Apply(s, CreateDelta(c, env));
            LogsOk(s'.tasks, s'.events) && LinksOk(s'.events, s'.messages)
  {
    var d := CreateDelta(c, env);
    var r, m, e := d.task.value, d.message.value, d.event.value;
    LogsAfterCreate(s.tasks, s.events, c.task, r, e);
    var log: Log := map[1 := e];
    assert LogAfter(s.events, e) == log;
    assert Fold(log, 1) == ReadEvent(Fold(log, 0), e);
    LinksAfterAppend(s.events, s.messages, s.messages[m.Key() := m], e);
  }

  lemma {:induction false} CreateKeepsMessages(s: StoreState, c: Command, env: Env)
    requires c.CreateTask? && ValidCommand(c) && CreateRefusal(s, c, env).None? && c.task !in s.tasks
    requires MessagesOk(s.tasks, s.messages)
    ensures var s' := Apply(s, CreateDelta(c, env)); MessagesOk(s'.tasks, s'.messages)
  {
    var d := CreateDelta(c, env);
    var r, m := d.task.value, d.message.value;
    assert MessageRowOk(s.tasks[c.task := r], m.Key(), m);
    MessagesAfterInsert(s.tasks, s.messages, c.task, r, m);
  }

  lemma {:induction false} CreateKeepsCommands(s: StoreState, c: Command, env: Env)
    requires c.CreateTask? && ValidCommand(c) && CreateRefusal(s, c, env).None? && c.task !in s.tasks
    requires KeyOf(c) !in s.commands
    requires CommandsOk(s) && EffectsOk(s.commands, s.events) && LogsOk(s.tasks, s.events)
    ensures var s' := Apply(s, CreateDelta(c, env)); CommandsOk(s') && EffectsOk(s'.commands, s'.events)
  {
    var d := CreateDelta(c, env);
    CommandsAfterInsert(s, Apply(s, d), d.command);
    EffectsAfterAdvance(s.commands, s.events, KeyOf(c), d.command, d.event.value);
  }

  lemma {:induction false} CreateKeepsInv(s: StoreState, c: Command, env: Env)
    requires Inv(s) && c.CreateTask? && ValidCommand(c) && KeyOf(c) !in s.commands
    requires CreateRefusal(s, c, env).None?
    ensures Inv(Apply(s, CreateDelta(c, env)))
  {
    hide TasksOk, PublicIdsUnique, LogsOk, MessagesOk, LinksOk, GrantsOk, ArtifactsOk, SubmissionsOk, HeadsOk, ReceiptsOk;
    hide CommandsOk, EffectsOk, ValidCommand;
    CreateKeepsTasks(s, c, env);
    CreateKeepsLogs(s, c, env);
    CreateKeepsMessages(s, c, env);
    CreateKeepsCommands(s, c, env);
  }

  // ---- Lifecycle transitions

  /** The seven rows of the lifecycle table. */
  predicate PlanShape(p: Plan) {
    match p.event
    case EventTaskAccepted =>
      p.allowed == {TaskSubmitted} && p.next == TaskWorking && p.message.None? && p.submission == "" && p.artifact.None? && !p.discard
    case EventTaskRejected =>
      p.allowed == {TaskSubmitted} && p.next == TaskRejected && p.message.None? && p.submission == "" && p.artifact.None? && !p.discard
    case EventInputRequired =>
      p.allowed == {TaskWorking} && p.next == TaskInputRequired && p.message.Some? && p.author == AuthorAgent
      && p.submission == "" && p.artifact.None? && !p.discard
    case EventCallerReplied =>
      p.allowed == {TaskInputRequired} && p.next == TaskWorking && p.message.Some? && p.author == AuthorCaller
      && p.submission == "" && p.artifact.None? && !p.discard
    case EventTaskCanceled =>
      p.allowed == {TaskSubmitted, TaskWorking, TaskInputRequired} && p.next == TaskCanceled
      && p.message.None? && p.submission == "" && p.artifact.None? && p.discard
    case EventTaskFailed =>
      p.allowed == {TaskWorking, TaskInputRequired} && p.next == TaskFailed
      && p.message.None? && p.submission == "" && p.artifact.None? && p.discard
    case EventTaskCompleted =>
      p.allowed == {TaskWorking} && p.next == TaskCompleted && p.message.Some? && p.author == AuthorAgent
      && p.submission != "" && !p.discard
    case _ => false
  }

  predicate PlanOk(p: Plan) {
    && ValidTaskRef(p.task) && PlanShape(p)
    && (p.message.Some? ==> ValidMessageInput(p.message.value))
    && (p.submission != "" ==> ValidId(p.submission))
    && (p.artifact.Some? ==> ValidArtifactRef(p.artifact.value) && p.artifact.value.workspace == p.task.workspace)
  }

  type SoundPlan = p: Plan | PlanOk(p)
    witness PlanOf(CancelTask(Meta("c", 1), TaskRef(WorkspaceRef("a", "w"), "t")))

  lemma {:induction false} PlanOfValid(c: Command)
    requires ValidCommand(c) && IsTransition(c)
    ensures PlanOk(PlanOf(c))
  {}

  /** The part of a transition's checks that concerns the Task row alone. */
  predicate Admits(p: Plan, t: Task, now: Time) {
    && t.state in p.allowed && t.revision < MAX_INT64
    && (p.submission != "" ==> t.artifact == p.artifact)
    && ValidTime(now) && t.updatedAt <= now
  }

  lemma {:induction false} TransitionRow(p: SoundPlan, r: TaskRecord, now: Time)
    requires TaskRowOk(p.task, r) && Admits(p, r.task, now)
    ensures TaskRowOk(p.task, NextRecord(p, r, now))
  {}

  lemma {:induction false} TransitionEvent(p: SoundPlan, t: Task, now: Time)
    requires t.ref == p.task && Admits(p, t, now)
    requires 1 <= t.eventCount == t.revision && t.submission.None?
    ensures var next := NextTask(p, t, now);
            var e := EventOf(p, next, now);
            && EventRowOk(p.task, next.eventCount, e)
            && MayFollow(ViewOf(t), e)
            && ReadEvent(ViewOf(t), e) == ViewOf(next)
  {}

  lemma {:induction false} AllowedIsOpen(p: SoundPlan, r: TaskRecord)
    requires r.task.state in p.allowed && TaskRowOk(p.task, r)
    ensures !r.task.state.Terminal() && r.task.submission.None?
    ensures p.message.Some? ==> p.author == (if r.task.messageCount % 2 == 0 then AuthorCaller else AuthorAgent)
  {}

  lemma {:induction false} TransitionKeepsRows(tasks: Tasks, grants: Grants, p: SoundPlan, now: Time)
    requires p.task in tasks && Admits(p, tasks[p.task].task, now)
    requires TasksOk(tasks) && GrantsOk(tasks, grants)
    ensures var tasks' := tasks[p.task := NextRecord(p, tasks[p.task], now)];
            TasksOk(tasks') && GrantsOk(tasks', grants)
  {
    TransitionRow(p, tasks[p.task], now);
    GrantsAfterTask(tasks, grants, p.task, NextRecord(p, tasks[p.task], now));
  }

  lemma {:induction false} TransitionKeepsLogs(tasks: Tasks, events: map<TaskRef, Log>, p: SoundPlan, now: Time)
    requires p.task in tasks && Admits(p, tasks[p.task].task, now)
    requires TasksOk(tasks) && LogsOk(tasks, events)
    ensures var r := NextRecord(p, tasks[p.task], now);
            var e := EventOf(p, r.task, now);
            && LogsOk(tasks[p.task := r], events[p.task := LogAfter(events, e)])
            && Fold(LogAfter(events, e), e.sequence).messages == r.task.messageCount
            && (forall n | n in events[p.task] :: n < e.sequence)
  {
    var t := tasks[p.task].task;
    var r := NextRecord(p, tasks[p.task], now);
    var e := EventOf(p, r.task, now);
    assert TaskRowOk(p.task, tasks[p.task]);
    assert LogOk(p.task, events[p.task], t);
    AllowedIsOpen(p, tasks[p.task]);
    TransitionEvent(p, t, now);
    LogAppend(p.task, events[p.task], t, e, r.task);
    LogsAfterAppend(tasks, events, p.task, r, e);
  }

  lemma {:induction false} TransitionKeepsMessages(tasks: Tasks, messages: Messages, p: SoundPlan, size: nat, now: Time)
    requires p.task in tasks && Admits(p, tasks[p.task].task, now)
    requires TasksOk(tasks) && MessagesOk(tasks, messages)
    requires p.message.Some? ==> SealFits(size, MAX_PAGE_BYTES)
    requires p.message.Some? ==> MessageKey(p.task.workspace.authority, p.message.value.id) !in messages
    ensures var r := NextRecord(p, tasks[p.task], now);
            if p.message.Some?
            then var m := MessageOf(p, r.task.messageCount, size, now);
                 MessagesOk(tasks[p.task := r], messages[m.Key() := m])
            else MessagesOk(tasks[p.task := r], messages)
  {
    var r := NextRecord(p, tasks[p.task], now);
    assert TaskRowOk(p.task, tasks[p.task]);
    AllowedIsOpen(p, tasks[p.task]);
    if p.message.Some? {
      var m := MessageOf(p, r.task.messageCount, size, now);
      assert MessageRowOk(tasks[p.task := r], m.Key(), m);
      MessagesAfterInsert(tasks, messages, p.task, r, m);
    } else {
      MessagesAfterTask(tasks, messages, p.task, r);
    }
  }

  lemma {:induction false} SettledRowOk(tasks: Tasks, heads: Heads, p: SoundPlan, row: ArtifactRecord, now: Time)
    requires p.task in tasks && Admits(p, tasks[p.task].task, now)
    requires SettledArtifact(p, tasks[p.task].task) == Some(row.artifact.ref)
    requires ArtifactRowOk(tasks, heads, row.artifact.ref, row) && row.artifact.task == p.task
    ensures var tasks' := tasks[p.task := NextRecord(p, tasks[p.task], now)];
            ArtifactRowOk(tasks', heads, row.artifact.ref, SettledRow(p, row, now))
  {}

  lemma {:induction false} TransitionKeepsArtifacts(tasks: Tasks, artifacts: Artifacts, heads: Heads, p: SoundPlan, now: Time)
    requires p.task in tasks && Admits(p, tasks[p.task].task, now)
    requires ArtifactsOk(tasks, artifacts, heads)
    requires var settled := SettledArtifact(p, tasks[p.task].task);
             settled.Some? ==> settled.value in artifacts && artifacts[settled.value].artifact.task == p.task
    ensures var tasks' := tasks[p.task := NextRecord(p, tasks[p.task], now)];
            var settled := SettledArtifact(p, tasks[p.task].task);
            if settled.Some?
            then ArtifactsOk(tasks', artifacts[settled.value := SettledRow(p, artifacts[settled.value], now)], heads)
            else ArtifactsOk(tasks', artifacts, heads)
  {
    var r := NextRecord(p, tasks[p.task], now);
    var settled := SettledArtifact(p, tasks[p.task].task);
    if settled.Some? {
      assert ArtifactRowOk(tasks, heads, settled.value, artifacts[settled.value]);
      SettledRowOk(tasks, heads, p, artifacts[settled.value], now);
      ArtifactsAfterSettle(tasks, artifacts, heads, p.task, r, SettledRow(p, artifacts[settled.value], now));
    } else {
      ArtifactsAfterTask(tasks, artifacts, heads, p.task, r);
    }
  }

  lemma {:induction false} TransitionKeepsSubmissions(tasks: Tasks, submissions: map<TaskRef, Submission>, p: Plan, now: Time)
    requires p.task in tasks && SubmissionsOk(tasks, submissions)
    requires p.submission != "" ==> !SubmissionTaken(submissions, SubmissionOf(p, now))
    ensures var tasks' := tasks[p.task := NextRecord(p, tasks[p.task], now)];
            if p.submission != ""
            then SubmissionsOk(tasks', submissions[p.task := SubmissionOf(p, now)])
            else SubmissionsOk(tasks', submissions)
  {
    var r := NextRecord(p, tasks[p.task], now);
    if p.submission != "" {
      SubmissionsAfterInsert(tasks, submissions, p.task, r, SubmissionOf(p, now));
    } else {
      SubmissionsAfterTask(tasks, submissions, p.task, r);
    }
  }

  /** No refusal, read as facts. */
  lemma {:induction false} Admission(s: StoreState, p: Plan, env: Env)
    requires TransitionRefusal(s, p, env).None? && TasksOk(s.tasks)
    ensures p.task in s.tasks && Admits(p, s.tasks[p.task].task, TransitionTime(s, p, env))
    ensures s.tasks[p.task].task.revision == p.meta.expectedRevision
    ensures p.message.Some? ==> SealFits(env.sealedSize, MAX_PAGE_BYTES)
    ensures p.message.Some? ==> MessageKey(p.task.workspace.authority, p.message.value.id) !in s.messages
    ensures var settled := SettledArtifact(p, s.tasks[p.task].task); settled.Some? ==> Frozen(s, settled.value, p.task)
    ensures p.submission != "" ==> !SubmissionTaken(s.submissions, SubmissionOf(p, TransitionTime(s, p, env)))
    ensures p.grant.Some? ==>
              && GrantRecorded(s.grants, p.grant.value)
              && s.tasks[p.grant.value.task].lease == LeaseState(p.grant.value.worker, p.grant.value.fence)
  {
    assert TaskRowOk(p.task, s.tasks[p.task]);
  }

  lemma {:induction false} TransitionAnswerOk(s: StoreState, c: Command, t: Task, now: Time)
    requires IsTransition(c) && ValidCommand(c) && ValidStoredTask(t) && ValidTime(now)
    requires t.ref == PlanOf(c).task && t.state == PlanOf(c).next
    requires PlanOf(c).grant.Some? ==> GrantRecorded(s.grants, PlanOf(c).grant.value)
    ensures CommandRowOk(s, KeyOf(c), RecordOf(c, TaskAnswer(t), now))
  {}

  lemma {:induction false} TransitionEventMatches(c: Command, t: Task, now: Time)
    requires IsTransition(c) && PlanOf(c).meta.expectedRevision == t.revision == t.eventCount
    ensures EventMatches(c, EventOf(PlanOf(c), NextTask(PlanOf(c), t, now), now))
    ensures Advances(c)
  {}

  lemma {:induction false} TransitionKeepsCommands(s: StoreState, s': StoreState, c: Command, t: Task, now: Time)
    requires IsTransition(c) && ValidCommand(c) && ValidStoredTask(t) && ValidTime(now)
    requires t.ref == PlanOf(c).task && t.state == PlanOf(c).next
    requires PlanOf(c).grant.Some? ==> GrantRecorded(s.grants, PlanOf(c).grant.value)
    requires CommandsOk(s) && EvidenceKept(s, s')
    requires s'.commands == s.commands[KeyOf(c) := RecordOf(c, TaskAnswer(t), now)]
    ensures CommandsOk(s')
  {
    TransitionAnswerOk(s', c, t, now);
    CommandsAfterInsert(s, s', RecordOf(c, TaskAnswer(t), now));
  }

  lemma {:induction false} TransitionKeepsEffects(commands: map<CommandKey, CommandRecord>, tasks: Tasks, events: map<TaskRef, Log>,
                               c: Command, now: Time)
    requires IsTransition(c) && KeyOf(c) !in commands
    requires EffectsOk(commands, events) && TasksOk(tasks)
    requires PlanOf(c).task in tasks && tasks[PlanOf(c).task].task.revision == PlanOf(c).meta.expectedRevision
    requires LogsOk(tasks, events)
    ensures var p := PlanOf(c);
            var r := NextRecord(p, tasks[p.task], now);
            var e := EventOf(p, r.task, now);
            EffectsOk(commands[KeyOf(c) := RecordOf(c, TaskAnswer(r.task), now)], events[p.task := LogAfter(events, e)])
  {
    var p := PlanOf(c);
    var t := tasks[p.task].task;
    var r := NextRecord(p, tasks[p.task], now);
    assert TaskRowOk(p.task, tasks[p.task]);
    assert LogOk(p.task, events[p.task], t);
    TransitionEventMatches(c, t, now);
    EffectsAfterAdvance(commands, events, KeyOf(c), RecordOf(c, TaskAnswer(r.task), now), EventOf(p, r.task, now));
  }

  /** The writes of a transition, table by table. */
  ghost predicate TransitionWrites(s: StoreState, s': StoreState, p: Plan, c: Command, size: nat, now: Time)
    requires p.task in s.tasks
  {
    var r := NextRecord(p, s.tasks[p.task], now);
    var settled := SettledArtifact(p, s.tasks[p.task].task);
    && s'.commands == s.commands[KeyOf(c) := RecordOf(c, TaskAnswer(r.task), now)]
    && s'.tasks == s.tasks[p.task := r]
    && s'.messages == (if p.message.Some?
                       then var m := MessageOf(p, r.task.messageCount, size, now); s.messages[m.Key() := m]
                       else s.messages)
    && s'.events == s.events[p.task := LogAfter(s.events, EventOf(p, r.task, now))]
    && s'.grants == s.grants
    && (settled.Some? ==> Frozen(s, settled.value, p.task))
    && s'.artifacts == (if settled.Some?
                        then s.artifacts[settled.value := SettledRow(p, s.artifacts[settled.value], now)]
                        else s.artifacts)
    && s'.submissions == (if p.submission != "" then s.submissions[p.task := SubmissionOf(p, now)] else s.submissions)
    && s'.heads == s.heads && s'.receipts == s.receipts
  }

  lemma {:induction false} TransitionApplied(s: StoreState, p: Plan, c: Command, env: Env)
    requires p.task in s.tasks && s.tasks[p.task].task.ref == p.task
    requires var settled := SettledArtifact(p, s.tasks[p.task].task);
             settled.Some? ==> Frozen(s, settled.value, p.task) && s.artifacts[settled.value].artifact.ref == settled.value
    ensures TransitionWrites(s, Apply(s, TransitionDelta(s, p, c, env)), p, c, env.sealedSize, TransitionTime(s, p, env))
  {}

  lemma {:induction false} TransitionLogs(s: StoreState, s': StoreState, p: SoundPlan, c: Command, size: nat, now: Time)
    requires p.task in s.tasks && Admits(p, s.tasks[p.task].task, now) && TransitionWrites(s, s', p, c, size, now)
    requires TasksOk(s.tasks) && LogsOk(s.tasks, s.events)
    ensures LogsOk(s'.tasks, s'.events)
  {
    TransitionKeepsLogs(s.tasks, s.events, p, now);
  }

  lemma {:induction false} TransitionMessages(s: StoreState, s': StoreState, p: SoundPlan, c: Command, size: nat, now: Time)
    requires p.task in s.tasks && Admits(p, s.tasks[p.task].task, now) && TransitionWrites(s, s', p, c, size, now)
    requires p.message.Some? ==> SealFits(size, MAX_PAGE_BYTES)
    requires p.message.Some? ==> MessageKey(p.task.workspace.authority, p.message.value.id) !in s.messages
    requires TasksOk(s.tasks) && MessagesOk(s.tasks, s.messages)
    ensures MessagesOk(s'.tasks, s'.messages)
  {
    TransitionKeepsMessages(s.tasks, s.messages, p, size, now);
  }

  lemma {:induction false} TransitionLinks(s: StoreState, s': StoreState, p: SoundPlan, c: Command, size: nat, now: Time)
    requires p.task in s.tasks && Admits(p, s.tasks[p.task].task, now) && TransitionWrites(s, s', p, c, size, now)
    requires p.message.Some? ==> MessageKey(p.task.workspace.authority, p.message.value.id) !in s.messages
    requires TasksOk(s.tasks) && LogsOk(s.tasks, s.events) && LinksOk(s.events, s.messages)
    ensures LinksOk(s'.events, s'.messages)
  {
    var next := NextTask(p, s.tasks[p.task].task, now);
    var e := EventOf(p, next, now);
    TransitionKeepsLogs(s.tasks, s.events, p, now);
    assert p.message.Some? ==> s'.messages[MessageKey(p.task.workspace.authority, p.message.value.id)]
                               == MessageOf(p, next.messageCount, size, now);
    LinksAfterAppend(s.events, s.messages, s'.messages, e);
  }

  lemma {:induction false} TransitionRows(s: StoreState, s': StoreState, p: SoundPlan, c: Command, size: nat, now: Time)
    requires p.task in s.tasks && Admits(p, s.tasks[p.task].task, now) && TransitionWrites(s, s', p, c, size, now)
    requires TasksOk(s.tasks) && PublicIdsUnique(s.tasks) && GrantsOk(s.tasks, s.grants)
    ensures TasksOk(s'.tasks) && PublicIdsUnique(s'.tasks) && GrantsOk(s'.tasks, s'.grants)
  {
    TransitionKeepsRows(s.tasks, s.grants, p, now);
  }

  lemma {:induction false} TransitionArtifacts(s: StoreState, s': StoreState, p: SoundPlan, c: Command, size: nat, now: Time)
    requires p.task in s.tasks && Admits(p, s.tasks[p.task].task, now) && TransitionWrites(s, s', p, c, size, now)
    requires ArtifactsOk(s.tasks, s.artifacts, s.heads)
    ensures ArtifactsOk(s'.tasks, s'.artifacts, s'.heads)
  {
    TransitionKeepsArtifacts(s.tasks, s.artifacts, s.heads, p, now);
  }

  lemma {:induction false} TransitionReceipts(s: StoreState, s': StoreState, p: Plan, c: Command, size: nat, now: Time)
    requires p.task in s.tasks && TransitionWrites(s, s', p, c, size, now)
    requires ArtifactsOk(s.tasks, s.artifacts, s.heads) && ReceiptsOk(s.artifacts, s.receipts, s.heads)
    ensures ReceiptsOk(s'.artifacts, s'.receipts, s'.heads)
  {
    var settled := SettledArtifact(p, s.tasks[p.task].task);
    if settled.Some? {
      var row := SettledRow(p, s.artifacts[settled.value], now);
      assert row.artifact.ref == settled.value by {
        assert ArtifactRowOk(s.tasks, s.heads, settled.value, s.artifacts[settled.value]);
      }
      ReceiptsAfterArtifact(s.artifacts, s.receipts, s.heads, s.heads, row);
    }
  }

  lemma {:induction false} TransitionEvidence(s: StoreState, s': StoreState, p: Plan, c: Command, size: nat, now: Time)
    requires p.task in s.tasks && TransitionWrites(s, s', p, c, size, now)
    ensures EvidenceKept(s, s')
  {}

  lemma {:induction false} TransitionSubmissions(s: StoreState, s': StoreState, p: Plan, c: Command, size: nat, now: Time)
    requires p.task in s.tasks && TransitionWrites(s, s', p, c, size, now)
    requires p.submission != "" ==> !SubmissionTaken(s.submissions, SubmissionOf(p, now))
    requires SubmissionsOk(s.tasks, s.submissions)
    ensures SubmissionsOk(s'.tasks, s'.submissions)
  {
    TransitionKeepsSubmissions(s.tasks, s.submissions, p, now);
  }

  lemma {:induction false} TransitionKeepsInv(s: StoreState, s': StoreState, p: SoundPlan, c: Command, size: nat, now: Time)
    requires Inv(s) && IsTransition(c) && ValidCommand(c) && KeyOf(c) !in s.commands && p == PlanOf(c)
    requires p.task in s.tasks && Admits(p, s.tasks[p.task].task, now) && TransitionWrites(s, s', p, c, size, now)
    requires s.tasks[p.task].task.revision == p.meta.expectedRevision
    requires p.message.Some? ==> SealFits(size, MAX_PAGE_BYTES)
    requires p.message.Some? ==> MessageKey(p.task.workspace.authority, p.message.value.id) !in s.messages
    requires p.submission != "" ==> !SubmissionTaken(s.submissions, SubmissionOf(p, now))
    requires p.grant.Some? ==> GrantRecorded(s.grants, p.grant.value)
    ensures Inv(s')
  {
    TransitionRows(s, s', p, c, size, now);
    TransitionLogs(s, s', p, c, size, now);
    TransitionMessages(s, s', p, c, size, now);
    TransitionLinks(s, s', p, c, size, now);
    TransitionArtifacts(s, s', p, c, size, now);
    TransitionReceipts(s, s', p, c, size, now);
    TransitionEvidence(s, s', p, c, size, now);
    TransitionSubmissions(s, s', p, c, size, now);
    TransitionRow(p, s.tasks[p.task], now);
    TransitionKeepsCommands(s, s', c, NextTask(p, s.tasks[p.task].task, now), now);
    TransitionKeepsEffects(s.commands, s.tasks, s.events, c, now);
  }

  // ---- Freeze

  predicate FreezeAdmits(c: Command, r: TaskRecord, now: Time)
    requires c.FreezeArtifact?
  {
    && r.task.state == TaskWorking && r.task.artifact.None? && r.task.submission.None?
    && r.task.revision == c.meta.expectedRevision && r.task.revision < MAX_INT64
    && ValidTime(now) && r.task.updatedAt <= now
    && r.lease == LeaseState(c.meta.grant.worker, c.meta.grant.fence)
  }

  function FrozenRecord(c: Command, r: TaskRecord, now: Time): TaskRecord
    requires c.FreezeArtifact?
  {
    TaskRecord(FrozenTask(r.task, FrozenArtifact(c, now).ref, now), r.lease, Some(ArtifactFrozen))
  }

  function FrozenEvent(c: Command, t: Task, now: Time): Event
    requires c.FreezeArtifact?
  {
    Event(c.task, t.eventCount + 1, EventArtifactFrozen, TaskWorking, t.revision + 1, "", "", c.artifactId, now)
  }

  lemma {:induction false} FreezeRow(c: Command, r: TaskRecord, now: Time)
    requires c.FreezeArtifact? && ValidCommand(c) && TaskRowOk(c.task, r) && FreezeAdmits(c, r, now)
    ensures TaskRowOk(c.task, FrozenRecord(c, r, now))
    ensures ValidFreezeResult(FrozenRecord(c, r, now).task, FrozenArtifact(c, now))
  {}

  lemma {:induction false} FreezeEvent(c: Command, t: Task, now: Time)
    requires c.FreezeArtifact? && ValidCommand(c) && t.ref == c.task && t.state == TaskWorking && t.artifact.None?
    requires t.submission.None? && 1 <= t.eventCount == t.revision < MAX_INT64 && ValidTime(now) && t.updatedAt <= now
    ensures var e := FrozenEvent(c, t, now);
            && EventRowOk(c.task, t.eventCount + 1, e) && MayFollow(ViewOf(t), e)
            && ReadEvent(ViewOf(t), e) == ViewOf(FrozenTask(t, FrozenArtifact(c, now).ref, now))
            && (t.revision == c.meta.expectedRevision ==> EventMatches(c, e))
  {}

  ghost predicate FreezeWrites(s: StoreState, s': StoreState, c: Command, size: nat, now: Time)
    requires c.FreezeArtifact? && c.task in s.tasks
  {
    var r := FrozenRecord(c, s.tasks[c.task], now);
    var a := FrozenArtifact(c, now);
    && s'.commands == s.commands[KeyOf(c) := RecordOf(c, FreezeAnswer(r.task, a), now)]
    && s'.tasks == s.tasks[c.task := r]
    && s'.messages == s.messages && s'.grants == s.grants
    && s'.submissions == s.submissions && s'.receipts == s.receipts
    && s'.events == s.events[c.task := LogAfter(s.events, FrozenEvent(c, s.tasks[c.task].task, now))]
    && s'.artifacts == s.artifacts[a.ref := ArtifactRecord(a, size)]
    && s'.heads == (if c.task.workspace in s.heads then s.heads
                    else s.heads[c.task.workspace := WorkspaceHead(c.task.workspace, c.expectedBase, now)])
  }

  lemma {:induction false} FreezeRows(s: StoreState, s': StoreState, c: Command, size: nat, now: Time)
    requires c.FreezeArtifact? && ValidCommand(c) && c.task in s.tasks
    requires FreezeAdmits(c, s.tasks[c.task], now) && FreezeWrites(s, s', c, size, now)
    requires TasksOk(s.tasks) && PublicIdsUnique(s.tasks)
    ensures TasksOk(s'.tasks) && PublicIdsUnique(s'.tasks)
  {
    hide TaskRowOk, ValidCommand, FrozenArtifact, ValidFreezeResult, FreezeAdmits;
    FreezeRow(c, s.tasks[c.task], now);
  }

  lemma {:induction false} FreezeLeases(s: StoreState, s': StoreState, c: Command, size: nat, now: Time)
    requires c.FreezeArtifact? && c.task in s.tasks
    requires FreezeAdmits(c, s.tasks[c.task], now) && FreezeWrites(s, s', c, size, now)
    requires GrantsOk(s.tasks, s.grants)
    ensures GrantsOk(s'.tasks, s'.grants)
  {
    GrantsAfterTask(s.tasks, s.grants, c.task, FrozenRecord(c, s.tasks[c.task], now));
  }

  lemma {:induction false} FreezeGrant(s: StoreState, c: Command)
    requires c.FreezeArtifact? && ValidCommand(c) && c.task in s.tasks && GrantsOk(s.tasks, s.grants)
    requires s.tasks[c.task].lease == LeaseState(c.meta.grant.worker, c.meta.grant.fence)
    ensures GrantRecorded(s.grants, c.meta.grant)
  {
    assert LeaseHeadOk(s.grants, c.task, s.tasks[c.task].lease);
    assert GrantRowOk(s.tasks, s.grants, LeaseKey(c.task, c.meta.grant.fence));
  }

  lemma {:induction false} FreezeOthers(s: StoreState, s': StoreState, c: Command, size: nat, now: Time)
    requires c.FreezeArtifact? && ValidCommand(c) && c.task in s.tasks
    requires FreezeAdmits(c, s.tasks[c.task], now) && FreezeWrites(s, s', c, size, now)
    requires HeadsOk(s.heads) && SubmissionsOk(s.tasks, s.submissions)
    ensures HeadsOk(s'.heads) && SubmissionsOk(s'.tasks, s'.submissions)
  {
    SubmissionsAfterTask(s.tasks, s.submissions, c.task, FrozenRecord(c, s.tasks[c.task], now));
  }

  lemma {:induction false} FreezeLogs(s: StoreState, s': StoreState, c: Command, size: nat, now: Time)
    requires c.FreezeArtifact? && ValidCommand(c) && c.task in s.tasks
    requires FreezeAdmits(c, s.tasks[c.task], now) && FreezeWrites(s, s', c, size, now)
    requires TasksOk(s.tasks) && LogsOk(s.tasks, s.events)
    ensures LogsOk(s'.tasks, s'.events)
  {
    var t := s.tasks[c.task].task;
    var e := FrozenEvent(c, t, now);
    var r := FrozenRecord(c, s.tasks[c.task], now);
    assert TaskRowOk(c.task, s.tasks[c.task]);
    assert LogOk(c.task, s.events[c.task], t);
    FreezeEvent(c, t, now);
    LogAppend(c.task, s.events[c.task], t, e, r.task);
    LogsAfterAppend(s.tasks, s.events, c.task, r, e);
  }

  lemma {:induction false} FreezeMessages(s: StoreState, s': StoreState, c: Command, size: nat, now: Time)
    requires c.FreezeArtifact? && c.task in s.tasks
    requires FreezeAdmits(c, s.tasks[c.task], now) && FreezeWrites(s, s', c, size, now)
    requires LogsOk(s.tasks, s.events) && MessagesOk(s.tasks, s.messages) && LinksOk(s.events, s.messages)
    ensures MessagesOk(s'.tasks, s'.messages) && LinksOk(s'.events, s'.messages)
  {
    LogBelow(s.tasks, s.events, c.task);
    MessagesAfterTask(s.tasks, s.messages, c.task, FrozenRecord(c, s.tasks[c.task], now));
    LinksAfterAppend(s.events, s.messages, s.messages, FrozenEvent(c, s.tasks[c.task].task, now));
  }

  lemma {:induction false} FreezeArtifacts(s: StoreState, s': StoreState, c: Command, size: nat, now: Time)
    requires c.FreezeArtifact? && ValidCommand(c) && c.task in s.tasks
    requires FreezeAdmits(c, s.tasks[c.task], now) && FreezeWrites(s, s', c, size, now)
    requires SealFits(size, MAX_STORED_ARTIFACT_BYTES) && !ArtifactTaken(s.artifacts, FrozenArtifact(c, now))
    requires ArtifactsOk(s.tasks, s.artifacts, s.heads)
    ensures ArtifactsOk(s'.tasks, s'.artifacts, s'.heads)
    ensures FrozenArtifact(c, now).ref !in s.artifacts
  {
    var row := ArtifactRecord(FrozenArtifact(c, now), size);
    assert ArtifactRowOk(s'.tasks, s'.heads, row.artifact.ref, row);
    ArtifactsAfterFreeze(s.tasks, s.artifacts, s.heads, s'.heads, c.task, FrozenRecord(c, s.tasks[c.task], now), row);
  }

  lemma {:induction false} FreezeReceipts(s: StoreState, s': StoreState, c: Command, size: nat, now: Time)
    requires c.FreezeArtifact? && c.task in s.tasks && FreezeWrites(s, s', c, size, now)
    requires FrozenArtifact(c, now).ref !in s.artifacts
    requires ReceiptsOk(s.artifacts, s.receipts, s.heads)
    ensures ReceiptsOk(s'.artifacts, s'.receipts, s'.heads)
    ensures EvidenceKept(s, s')
  {
    ReceiptsAfterArtifact(s.artifacts, s.receipts, s.heads, s'.heads, ArtifactRecord(FrozenArtifact(c, now), size));
  }

  lemma {:induction false} FreezeAnswerOk(s: StoreState, s': StoreState, c: Command, size: nat, now: Time)
    requires c.FreezeArtifact? && ValidCommand(c) && c.task in s.tasks && FreezeWrites(s, s', c, size, now)
    requires FreezeAdmits(c, s.tasks[c.task], now) && TasksOk(s.tasks)
    requires GrantRecorded(s.grants, c.meta.grant)
    ensures var answer := FreezeAnswer(FrozenRecord(c, s.tasks[c.task], now).task, FrozenArtifact(c, now));
            CommandRowOk(s', KeyOf(c), RecordOf(c, answer, now))
  {
    hide ValidCommand, TaskRowOk, ValidFreezeResult;
    FreezeRow(c, s.tasks[c.task], now);
  }

  lemma {:induction false} FreezeCommands(s: StoreState, s': StoreState, c: Command, size: nat, now: Time)
    requires c.FreezeArtifact? && ValidCommand(c) && c.task in s.tasks && FreezeWrites(s, s', c, size, now)
    requires FreezeAdmits(c, s.tasks[c.task], now) && TasksOk(s.tasks)
    requires GrantRecorded(s.grants, c.meta.grant)
    requires CommandsOk(s) && EvidenceKept(s, s')
    ensures CommandsOk(s')
  {
    hide TasksOk, ValidCommand, EvidenceKept, TaskRowOk;
    FreezeAnswerOk(s, s', c, size, now);
    var answer := FreezeAnswer(FrozenRecord(c, s.tasks[c.task], now).task, FrozenArtifact(c, now));
    CommandsAfterInsert(s, s', RecordOf(c, answer, now));
  }

  lemma {:induction false} FreezeEffects(s: StoreState, s': StoreState, c: Command, size: nat, now: Time)
    requires c.FreezeArtifact? && c.task in s.tasks && FreezeWrites(s, s', c, size, now)
    requires TasksOk(s.tasks) && LogsOk(s.tasks, s.events) && KeyOf(c) !in s.commands
    requires EffectsOk(s.commands, s.events) && FreezeAdmits(c, s.tasks[c.task], now)
    ensures EffectsOk(s'.commands, s'.events)
  {
    hide ValidCommand, LogsOk;
    LogBelow(s.tasks, s.events, c.task);
    assert TaskRowOk(c.task, s.tasks[c.task]);
    var answer := FreezeAnswer(FrozenRecord(c, s.tasks[c.task], now).task, FrozenArtifact(c, now));
    EffectsAfterAdvance(s.commands, s.events, KeyOf(c), RecordOf(c, answer, now),
                        FrozenEvent(c, s.tasks[c.task].task, now));
  }

  lemma {:induction false} FreezeKeepsInv(s: StoreState, s': StoreState, c: Command, size: nat, now: Time)
    requires Inv(s) && c.FreezeArtifact? && ValidCommand(c) && KeyOf(c) !in s.commands && c.task in s.tasks
    requires FreezeAdmits(c, s.tasks[c.task], now) && FreezeWrites(s, s', c, size, now)
    requires SealFits(size, MAX_STORED_ARTIFACT_BYTES) && !ArtifactTaken(s.artifacts, FrozenArtifact(c, now))
    ensures Inv(s')
  {
    hide TasksOk, PublicIdsUnique, LogsOk, MessagesOk, LinksOk, GrantsOk, ArtifactsOk, SubmissionsOk, HeadsOk, ReceiptsOk;
    hide CommandsOk, EffectsOk, ValidCommand, FreezeWrites, GrantRecorded, EvidenceKept, ArtifactTaken, FrozenArtifact, SealFits, KeyOf;
    FreezeGrant(s, c);
    FreezeRows(s, s', c, size, now);
    FreezeLeases(s, s', c, size, now);
    FreezeOthers(s, s', c, size, now);
    FreezeLogs(s, s', c, size, now);
    FreezeMessages(s, s', c, size, now);
    FreezeArtifacts(s, s', c, size, now);
    FreezeReceipts(s, s', c, size, now);
    FreezeCommands(s, s', c, size, now);
    FreezeEffects(s, s', c, size, now);
  }

  // ---- Leases

  lemma {:induction false} LeaseTables(s: StoreState, ref: TaskRef, lease: LeaseState)
    requires ref in s.tasks && LogsOk(s.tasks, s.events) && MessagesOk(s.tasks, s.messages)
    requires ArtifactsOk(s.tasks, s.artifacts, s.heads) && SubmissionsOk(s.tasks, s.submissions) && PublicIdsUnique(s.tasks)
    ensures var tasks' := s.tasks[ref := s.tasks[ref].(lease := lease)];
            && PublicIdsUnique(tasks') && LogsOk(tasks', s.events) && MessagesOk(tasks', s.messages)
            && ArtifactsOk(tasks', s.artifacts, s.heads) && SubmissionsOk(tasks', s.submissions)
  {
    var r := s.tasks[ref].(lease := lease);
    LogsAfterLease(s.tasks, s.events, ref, r);
    MessagesAfterTask(s.tasks, s.messages, ref, r);
    ArtifactsAfterTask(s.tasks, s.artifacts, s.heads, ref, r);
    SubmissionsAfterTask(s.tasks, s.submissions, ref, r);
  }

  lemma {:induction false} TaskAfterGrant(tasks: Tasks, ref: TaskRef, g: GrantRecord)
    requires ref in tasks && TasksOk(tasks) && !tasks[ref].task.state.Terminal() && tasks[ref].lease.fence < MAX_INT64
    requires g.grant == LeaseGrant(ref, g.grant.worker, tasks[ref].lease.fence + 1) && ValidId(g.grant.worker)
    requires ValidTime(g.grantedAt) && tasks[ref].task.updatedAt <= g.grantedAt
    ensures TasksOk(tasks[ref := tasks[ref].(lease := LeaseState(g.grant.worker, g.grant.fence))])
    ensures ValidGrant(g.grant) && tasks[ref].task.ref == ref && tasks[ref].task.createdAt <= g.grantedAt
    ensures ValidAssignment(LeaseAssignment(g.grant, tasks[ref].task, g.grantedAt))
  {
    assert TaskRowOk(ref, tasks[ref]);
  }

  lemma {:induction false} GrantRows(s: StoreState, ref: TaskRef, g: GrantRecord)
    requires ref in s.tasks && TasksOk(s.tasks) && GrantsOk(s.tasks, s.grants)
    requires s.tasks[ref].lease.owner == "" && !s.tasks[ref].task.state.Terminal() && s.tasks[ref].lease.fence < MAX_INT64
    requires g.grant == LeaseGrant(ref, g.grant.worker, s.tasks[ref].lease.fence + 1) && ValidId(g.grant.worker)
    requires ValidTime(g.grantedAt) && s.tasks[ref].task.updatedAt <= g.grantedAt
    requires LastGrantedAt(s, s.tasks[ref]) <= g.grantedAt
    ensures var r := s.tasks[ref].(lease := LeaseState(g.grant.worker, g.grant.fence));
            TasksOk(s.tasks[ref := r]) && GrantsOk(s.tasks[ref := r], s.grants[g.Key() := g])
    ensures g.Key() !in s.grants
    ensures ValidAssignment(LeaseAssignment(g.grant, s.tasks[ref].task, g.grantedAt))
  {
    TaskAfterGrant(s.tasks, ref, g);
    hide GrantTableOk, LeaseHeadsOk, TasksOk, ValidAssignment, TaskRowOk;
    GrantsAfterGrant(s.tasks, s.grants, ref, s.tasks[ref].(lease := LeaseState(g.grant.worker, g.grant.fence)), g);
  }

  predicate GrantsTo(c: Command, ref: TaskRef, worker: Id) {
    || (c.AcquireLease? && c.task == ref && c.worker == worker)
    || (c.ClaimLease? && c.authority == ref.workspace.authority && c.worker == worker)
  }

  lemma {:induction false} GrantCommands(s: StoreState, s': StoreState, c: Command, g: GrantRecord, t: Task)
    requires GrantsTo(c, g.grant.task, g.grant.worker) && ValidCommand(c)
    requires ValidAssignment(LeaseAssignment(g.grant, t, g.grantedAt)) && g.Key() !in s.grants
    requires CommandsOk(s) && s'.artifacts == s.artifacts && s'.receipts == s.receipts
    requires s'.grants == s.grants[g.Key() := g]
    requires s'.commands == s.commands[KeyOf(c) := RecordOf(c, AssignmentAnswer(LeaseAssignment(g.grant, t, g.grantedAt)), g.grantedAt)]
    ensures CommandsOk(s')
  {
    CommandsAfterInsert(s, s', RecordOf(c, AssignmentAnswer(LeaseAssignment(g.grant, t, g.grantedAt)), g.grantedAt));
  }

  /** A lease change touches the lease pointer of one Task, the grants and the receipts. */
  ghost predicate LeaseWrites(s: StoreState, s': StoreState, ref: TaskRef, lease: LeaseState,
                              grants': Grants, record: CommandRecord)
    requires ref in s.tasks
  {
    s' == s.(tasks := s.tasks[ref := s.tasks[ref].(lease := lease)], grants := grants',
             commands := s.commands[CommandKey(record.authority, record.id) := record])
  }

  lemma {:induction false} LeaseKeepsInv(s: StoreState, s': StoreState, ref: TaskRef, lease: LeaseState,
                      grants': Grants, record: CommandRecord)
    requires Inv(s) && ref in s.tasks && LeaseWrites(s, s', ref, lease, grants', record)
    requires TasksOk(s'.tasks) && GrantsOk(s'.tasks, s'.grants) && CommandsOk(s')
    requires CommandKey(record.authority, record.id) !in s.commands && !Advances(record.intent)
    ensures Inv(s')
  {
    hide TasksOk, PublicIdsUnique, LogsOk, MessagesOk, LinksOk, GrantsOk, ArtifactsOk, SubmissionsOk, HeadsOk, ReceiptsOk;
    hide CommandsOk, EffectsOk;
    LeaseTables(s, ref, lease);
    EffectsAfterOther(s.commands, s.events, CommandKey(record.authority, record.id), record);
  }

  lemma {:induction false} GrantMoment(s: StoreState, ref: TaskRef, env: Env)
    requires ref in s.tasks && TasksOk(s.tasks) && GrantsOk(s.tasks, s.grants) && ValidTime(env.clock)
    ensures var now := GrantTime(s, s.tasks[ref], env);
            ValidTime(now) && s.tasks[ref].task.updatedAt <= now && LastGrantedAt(s, s.tasks[ref]) <= now
    ensures s.tasks[ref].task.ref == ref
  {
    assert TaskRowOk(ref, s.tasks[ref]);
    if LeaseKey(ref, s.tasks[ref].lease.fence) in s.grants {
      assert GrantRowOk(s.tasks, s.grants, LeaseKey(ref, s.tasks[ref].lease.fence));
    }
  }

  lemma {:induction false} GrantApplied(s: StoreState, c: Command, ref: TaskRef, worker: Id, env: Env)
    requires ref in s.tasks && s.tasks[ref].task.ref == ref
    ensures var d := GrantDelta(s, c, s.tasks[ref], worker, env);
            var g := GrantRecord(LeaseGrant(ref, worker, s.tasks[ref].lease.fence + 1), GrantTime(s, s.tasks[ref], env));
            && d.command == RecordOf(c, AssignmentAnswer(LeaseAssignment(g.grant, s.tasks[ref].task, g.grantedAt)), g.grantedAt)
            && LeaseWrites(s, Apply(s, d), ref, LeaseState(worker, g.grant.fence), s.grants[g.Key() := g], d.command)
  {}

  lemma {:induction false} GrantKeepsInv(s: StoreState, s': StoreState, c: Command, g: GrantRecord)
    requires Inv(s) && ValidCommand(c) && KeyOf(c) !in s.commands && GrantsTo(c, g.grant.task, g.grant.worker)
    requires ValidId(g.grant.worker) && g.grant.task in s.tasks && ValidTime(g.grantedAt)
    requires var r := s.tasks[g.grant.task];
             && r.lease.owner == "" && !r.task.state.Terminal() && r.lease.fence < MAX_INT64
             && g.grant.fence == r.lease.fence + 1 && r.task.updatedAt <= g.grantedAt && LastGrantedAt(s, r) <= g.grantedAt
    requires LeaseWrites(s, s', g.grant.task, LeaseState(g.grant.worker, g.grant.fence), s.grants[g.Key() := g],
                         RecordOf(c, AssignmentAnswer(LeaseAssignment(g.grant, s.tasks[g.grant.task].task, g.grantedAt)), g.grantedAt))
    ensures Inv(s')
  {
    hide TasksOk, PublicIdsUnique, LogsOk, MessagesOk, LinksOk, GrantsOk, ArtifactsOk, SubmissionsOk, HeadsOk, ReceiptsOk;
    hide CommandsOk, EffectsOk, ValidCommand, ValidAssignment, LastGrantedAt;
    var ref := g.grant.task;
    GrantRows(s, ref, g);
    GrantCommands(s, s', c, g, s.tasks[ref].task);
    LeaseKeepsInv(s, s', ref, LeaseState(g.grant.worker, g.grant.fence), s.grants[g.Key() := g],
                  RecordOf(c, AssignmentAnswer(LeaseAssignment(g.grant, s.tasks[ref].task, g.grantedAt)), g.grantedAt));
  }

  lemma {:induction false} FenceRows(s: StoreState, g: LeaseGrant)
    requires g.task in s.tasks && TasksOk(s.tasks) && GrantsOk(s.tasks, s.grants)
    requires s.tasks[g.task].lease == LeaseState(g.worker, g.fence)
    ensures var tasks' := s.tasks[g.task := s.tasks[g.task].(lease := LeaseState("", g.fence))];
            TasksOk(tasks') && GrantsOk(tasks', s.grants)
  {
    assert TaskRowOk(g.task, s.tasks[g.task]);
    GrantsAfterTask(s.tasks, s.grants, g.task, s.tasks[g.task].(lease := LeaseState("", g.fence)));
  }

  lemma {:induction false} FenceCommands(s: StoreState, s': StoreState, c: Command, now: Time)
    requires c.FenceLease? && ValidCommand(c) && ValidTime(now) && GrantRecorded(s.grants, c.grant)
    requires CommandsOk(s) && s'.artifacts == s.artifacts && s'.receipts == s.receipts && s'.grants == s.grants
    requires s'.commands == s.commands[KeyOf(c) := RecordOf(c, GrantAnswer(c.grant), now)]
    ensures CommandsOk(s')
  {
    CommandsAfterInsert(s, s', RecordOf(c, GrantAnswer(c.grant), now));
  }

  lemma {:induction false} FenceKeepsInv(s: StoreState, s': StoreState, c: Command, now: Time)
    requires Inv(s) && c.FenceLease? && ValidCommand(c) && KeyOf(c) !in s.commands
    requires c.grant.task in s.tasks && ValidTime(now)
    requires GrantRecorded(s.grants, c.grant) && s.tasks[c.grant.task].lease == LeaseState(c.grant.worker, c.grant.fence)
    requires LeaseWrites(s, s', c.grant.task, LeaseState("", c.grant.fence), s.grants, RecordOf(c, GrantAnswer(c.grant), now))
    ensures Inv(s')
  {
    hide TasksOk, PublicIdsUnique, LogsOk, MessagesOk, LinksOk, GrantsOk, ArtifactsOk, SubmissionsOk, HeadsOk, ReceiptsOk;
    hide CommandsOk, EffectsOk, ValidCommand, GrantRecorded;
    FenceRows(s, c.grant);
    FenceCommands(s, s', c, now);
    LeaseKeepsInv(s, s', c.grant.task, LeaseState("", c.grant.fence), s.grants, RecordOf(c, GrantAnswer(c.grant), now));
  }

  // ---- Apply receipts

  lemma {:induction false} ReceiptRow(s: StoreState, heads': Heads, c: Command, now: Time)
    requires c.RecordApplyReceipt? && ValidCommand(c) && c.artifactRef in s.artifacts
    requires ArtifactRowOk(s.tasks, s.heads, c.artifactRef, s.artifacts[c.artifactRef])
    requires var a := s.artifacts[c.artifactRef].artifact;
             && a.state == ArtifactPublished && c.artifactDigest == a.digest
             && c.baseRevision == a.baseRevision && c.resultRevision == a.resultRevision
             && a.publishedAt.value <= now
    requires ValidTime(now)
    requires c.decision == ApplySuccess ==>
               c.artifactRef.workspace in heads' && heads'[c.artifactRef.workspace].confirmedRevision == c.resultRevision
    ensures ReceiptRowOk(s.artifacts, heads', c.artifactRef, ReceiptOf(c, now))
  {}

  ghost predicate HeadWrites(s: StoreState, s': StoreState, c: Command, now: Time)
    requires c.RecordApplyReceipt?
  {
    s'.heads == if c.decision == ApplySuccess
                then s.heads[c.artifactRef.workspace := WorkspaceHead(c.artifactRef.workspace, c.resultRevision, now)]
                else s.heads
  }

  /** A success moves the head one link up its chain. */
  lemma {:induction false} HeadAdvances(s: StoreState, s': StoreState, c: Command, now: Time)
    requires c.RecordApplyReceipt? && ValidRevision(c.resultRevision) && c.artifactRef in s.artifacts
    requires ArtifactsOk(s.tasks, s.artifacts, s.heads) && HeadsOk(s.heads) && ValidTime(now)
    requires s.artifacts[c.artifactRef].artifact.resultRevision == c.resultRevision
    requires c.decision == ApplySuccess ==>
               && c.artifactRef.workspace in s.heads
               && s.heads[c.artifactRef.workspace].confirmedRevision == s.artifacts[c.artifactRef].artifact.baseRevision
    requires HeadWrites(s, s', c, now) && s'.tasks == s.tasks && s'.artifacts == s.artifacts
    ensures forall w | w in s.heads ::
              w in s'.heads && OnChain(s.heads[w].confirmedRevision, s'.heads[w].confirmedRevision)
    ensures ArtifactsOk(s'.tasks, s'.artifacts, s'.heads) && HeadsOk(s'.heads)
  {
    var a := s.artifacts[c.artifactRef].artifact;
    assert OnChain(a.baseRevision, a.resultRevision) by {
      assert ArtifactRowOk(s.tasks, s.heads, c.artifactRef, s.artifacts[c.artifactRef]);
    }
    forall ref | ref in s.artifacts ensures ArtifactRowOk(s.tasks, s'.heads, ref, s.artifacts[ref]) {
      assert ArtifactRowOk(s.tasks, s.heads, ref, s.artifacts[ref]);
    }
  }

  lemma {:induction false} ReceiptTables(s: StoreState, s': StoreState, c: Command, now: Time)
    requires c.RecordApplyReceipt? && ValidCommand(c) && c.artifactRef in s.artifacts && c.artifactRef !in s.receipts
    requires ArtifactsOk(s.tasks, s.artifacts, s.heads) && ReceiptsOk(s.artifacts, s.receipts, s.heads) && HeadsOk(s.heads)
    requires ReceiptRowOk(s.artifacts, s'.heads, c.artifactRef, ReceiptOf(c, now))
    requires !ReceiptTaken(s.receipts, ReceiptOf(c, now)) && ValidTime(now)
    requires c.decision == ApplySuccess ==>
               && c.artifactRef.workspace in s.heads
               && s.heads[c.artifactRef.workspace].confirmedRevision == s.artifacts[c.artifactRef].artifact.baseRevision
    requires s'.tasks == s.tasks && s'.artifacts == s.artifacts
    requires s'.receipts == s.receipts[c.artifactRef := ReceiptOf(c, now)]
    requires HeadWrites(s, s', c, now)
    ensures ArtifactsOk(s'.tasks, s'.artifacts, s'.heads) && ReceiptsOk(s'.artifacts, s'.receipts, s'.heads) && HeadsOk(s'.heads)
  {
    hide ArtifactsOk, HeadsOk, ValidCommand, ReceiptsOk;
    HeadAdvances(s, s', c, now);
    ReceiptsAfterInsert(s.artifacts, s.receipts, s.heads, s'.heads, ReceiptOf(c, now));
  }

  lemma {:induction false} ReceiptCommands(s: StoreState, s': StoreState, c: Command, r: ApplyReceipt, now: Time)
    requires c.RecordApplyReceipt? && ValidCommand(c) && ValidTime(now)
    requires r.artifact == c.artifactRef && r.id == c.receipt
    requires c.artifactRef in s'.receipts && s'.receipts[c.artifactRef] == r
    requires forall a | a in s.receipts :: a in s'.receipts && s'.receipts[a] == s.receipts[a]
    requires s'.grants == s.grants && s'.artifacts == s.artifacts
    requires s'.commands == s.commands[KeyOf(c) := RecordOf(c, ReceiptAnswer(r), now)]
    requires CommandsOk(s)
    ensures CommandsOk(s')
  {
    CommandsAfterInsert(s, s', RecordOf(c, ReceiptAnswer(r), now));
  }

  lemma {:induction false} ReceiptMoment(s: StoreState, c: Command, env: Env)
    requires c.RecordApplyReceipt? && c.artifactRef in s.artifacts && ArtifactsOk(s.tasks, s.artifacts, s.heads)
    requires s.artifacts[c.artifactRef].artifact.state == ArtifactPublished && ValidTime(env.clock)
    ensures var a := s.artifacts[c.artifactRef].artifact;
            && ArtifactRowOk(s.tasks, s.heads, c.artifactRef, s.artifacts[c.artifactRef])
            && a.publishedAt.Some? && a.publishedAt.value <= ReceiptTime(a, env) && ValidTime(ReceiptTime(a, env))
            && a.ref == c.artifactRef
  {
    assert ArtifactRowOk(s.tasks, s.heads, c.artifactRef, s.artifacts[c.artifactRef]);
  }

  lemma {:induction false} NewReceiptKeepsInv(s: StoreState, s': StoreState, c: Command, now: Time)
    requires Inv(s) && c.RecordApplyReceipt? && ValidCommand(c) && KeyOf(c) !in s.commands
    requires c.artifactRef in s.artifacts && c.artifactRef !in s.receipts && ValidTime(now)
    requires ReceiptRowOk(s.artifacts, s'.heads, c.artifactRef, ReceiptOf(c, now))
    requires !ReceiptTaken(s.receipts, ReceiptOf(c, now))
    requires c.decision == ApplySuccess ==>
               && c.artifactRef.workspace in s.heads
               && s.heads[c.artifactRef.workspace].confirmedRevision == s.artifacts[c.artifactRef].artifact.baseRevision
    requires s' == s.(
      commands := s.commands[KeyOf(c) := RecordOf(c, ReceiptAnswer(ReceiptOf(c, now)), now)],
      receipts := s.receipts[c.artifactRef := ReceiptOf(c, now)],
      heads := if c.decision == ApplySuccess
               then s.heads[c.artifactRef.workspace := WorkspaceHead(c.artifactRef.workspace, c.resultRevision, now)]
               else s.heads)
    ensures Inv(s')
  {
    hide TasksOk, PublicIdsUnique, LogsOk, MessagesOk, LinksOk, GrantsOk, ArtifactsOk, SubmissionsOk, HeadsOk, ReceiptsOk;
    hide CommandsOk, EffectsOk, ValidCommand;
    ReceiptTables(s, s', c, now);
    ReceiptCommands(s, s', c, ReceiptOf(c, now), now);
    EffectsAfterOther(s.commands, s.events, KeyOf(c), RecordOf(c, ReceiptAnswer(ReceiptOf(c, now)), now));
  }

  lemma {:induction false} KnownReceiptKeepsInv(s: StoreState, s': StoreState, c: Command, now: Time)
    requires Inv(s) && c.RecordApplyReceipt? && ValidCommand(c) && KeyOf(c) !in s.commands
    requires c.artifactRef in s.receipts && ValidTime(now)
    requires SameReceiptDecision(s.receipts[c.artifactRef], ReceiptOf(c, now))
    requires s' == s.(commands := s.commands[KeyOf(c) := RecordOf(c, ReceiptAnswer(s.receipts[c.artifactRef]), now)])
    ensures Inv(s')
  {
    hide TasksOk, PublicIdsUnique, LogsOk, MessagesOk, LinksOk, GrantsOk, ArtifactsOk, SubmissionsOk, HeadsOk, ReceiptsOk;
    hide CommandsOk, EffectsOk, ValidCommand;
    var r := s.receipts[c.artifactRef];
    ReceiptCommands(s, s', c, r, now);
    EffectsAfterOther(s.commands, s.events, KeyOf(c), RecordOf(c, ReceiptAnswer(r), now));
  }
}
