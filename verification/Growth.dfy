/** What no commit ever takes back. `Grows` is reflexive and transitive, so a fact
it carries over one commit is carried over every run. */
module Growth {
  import opened Types
  import opened Validators
  import opened Store
  import opened Commands
  import opened Invariant
  import opened Tables
  import opened Steps

  ghost predicate Extends<K, V>(m: map<K, V>, m': map<K, V>) {
    forall k | k in m :: k in m' && m'[k] == m[k]
  }

  /** The fence never falls; inside one fence the owner can only be cleared; a
  terminal record is frozen; a changed Task has a higher revision. */
  predicate RecordGrows(r: TaskRecord, r': TaskRecord) {
    && r'.task.ref == r.task.ref && r'.task.context == r.task.context && r'.task.createdAt == r.task.createdAt
    && r.task.revision <= r'.task.revision && r.task.messageCount <= r'.task.messageCount
    && r.task.updatedAt <= r'.task.updatedAt
    && (r.task.revision == r'.task.revision ==> r'.task == r.task)
    && r.lease.fence <= r'.lease.fence
    && (r.lease.fence == r'.lease.fence ==> r'.lease.owner == r.lease.owner || r'.lease.owner == "")
    && (r.task.artifact.Some? ==> r'.task.artifact == r.task.artifact)
    && (r.task.state.Terminal() ==> r' == r)
  }

  /** Identity is fixed by the freeze, and the outcome by publication or discard. */
  predicate ArtifactGrows(a: Artifact, a': Artifact) {
    SameArtifactIdentity(a', a) && (a.state != ArtifactFrozen ==> a' == a)
  }

  ghost predicate TasksGrow(tasks: Tasks, tasks': Tasks) {
    forall ref | ref in tasks :: ref in tasks' && RecordGrows(tasks[ref], tasks'[ref])
  }

  ghost predicate LogsGrow(events: map<TaskRef, Log>, events': map<TaskRef, Log>) {
    forall ref | ref in events :: ref in events' && Extends(events[ref], events'[ref])
  }

  ghost predicate ArtifactsGrow(artifacts: Artifacts, artifacts': Artifacts) {
    forall a | a in artifacts :: a in artifacts' && ArtifactGrows(artifacts[a].artifact, artifacts'[a].artifact)
  }

  ghost predicate HeadsGrow(heads: Heads, heads': Heads) {
    forall w | w in heads :: w in heads' && OnChain(heads[w].confirmedRevision, heads'[w].confirmedRevision)
  }

  ghost predicate Grows(s: StoreState, s': StoreState) {
    && TasksGrow(s.tasks, s'.tasks)
    && LogsGrow(s.events, s'.events)
    && ArtifactsGrow(s.artifacts, s'.artifacts)
    && HeadsGrow(s.heads, s'.heads)
    && Extends(s.commands, s'.commands)
    && Extends(s.messages, s'.messages)
    && Extends(s.grants, s'.grants)
    && Extends(s.submissions, s'.submissions)
    && Extends(s.receipts, s'.receipts)
  }

  lemma {:induction false} GrowsReflexive(s: StoreState)
    ensures Grows(s, s)
  {}

  lemma {:induction false} HeadsGrowTransitive(a: Heads, b: Heads, c: Heads)
    requires HeadsGrow(a, b) && HeadsGrow(b, c)
    ensures HeadsGrow(a, c)
  {
    forall w | w in a ensures w in c && OnChain(a[w].confirmedRevision, c[w].confirmedRevision) {
      OnChainExtends(a[w].confirmedRevision, b[w].confirmedRevision, c[w].confirmedRevision);
    }
  }

  lemma {:induction false} TasksGrowTransitive(a: Tasks, b: Tasks, c: Tasks)
    requires TasksGrow(a, b) && TasksGrow(b, c)
    ensures TasksGrow(a, c)
  {
    forall ref | ref in a ensures ref in c && RecordGrows(a[ref], c[ref]) {
      assert RecordGrows(a[ref], b[ref]) && RecordGrows(b[ref], c[ref]);
    }
  }

  lemma {:induction false} LogsGrowTransitive(a: map<TaskRef, Log>, b: map<TaskRef, Log>, c: map<TaskRef, Log>)
    requires LogsGrow(a, b) && LogsGrow(b, c)
    ensures LogsGrow(a, c)
  {
    forall ref | ref in a ensures ref in c && Extends(a[ref], c[ref]) {
      assert Extends(a[ref], b[ref]) && Extends(b[ref], c[ref]);
    }
  }

  lemma {:induction false} GrowsTransitive(a: StoreState, b: StoreState, c: StoreState)
    requires Grows(a, b) && Grows(b, c)
    ensures Grows(a, c)
  {
    hide TasksGrow, LogsGrow, HeadsGrow, ArtifactGrows;
    TasksGrowTransitive(a.tasks, b.tasks, c.tasks);
    LogsGrowTransitive(a.events, b.events, c.events);
    HeadsGrowTransitive(a.heads, b.heads, c.heads);
    forall k | k in a.artifacts ensures k in c.artifacts && ArtifactGrows(a.artifacts[k].artifact, c.artifacts[k].artifact) {
      ArtifactGrowsTransitive(a.artifacts[k].artifact, b.artifacts[k].artifact, c.artifacts[k].artifact);
    }
  }

  lemma {:induction false} ArtifactGrowsTransitive(a: Artifact, b: Artifact, c: Artifact)
    requires ArtifactGrows(a, b) && ArtifactGrows(b, c)
    ensures ArtifactGrows(a, c)
  {}

  /** A command receipt stays as it was written. */
  lemma {:induction false} RecordKept(s: StoreState, s': StoreState, key: CommandKey)
    requires Grows(s, s') && key in s.commands
    ensures key in s'.commands && s'.commands[key] == s.commands[key]
  {
    hide TasksGrow, LogsGrow, ArtifactsGrow, HeadsGrow;
  }

  // ---- Every commit grows the store

  lemma {:induction false} AppendGrows(events: map<TaskRef, Log>, e: Event)
    requires e.task in events ==> e.sequence !in events[e.task]
    ensures LogsGrow(events, events[e.task := LogAfter(events, e)])
  {}

  lemma {:induction false} InsertExtends<K, V>(m: map<K, V>, k: K, v: V)
    requires k !in m
    ensures Extends(m, m[k := v])
  {}

  lemma {:induction false} SameExtends<K, V>(m: map<K, V>)
    ensures Extends(m, m)
  {}

  lemma {:induction false} CreateTablesGrow(s: StoreState, c: Command, env: Env)
    requires c.CreateTask? && KeyOf(c) !in s.commands && CreateRefusal(s, c, env).None? && c.task !in s.tasks
    ensures var s' := Apply(s, CreateDelta(c, env));
            && TasksGrow(s.tasks, s'.tasks) && Extends(s.commands, s'.commands) && Extends(s.messages, s'.messages)
  {
    hide PublicIdTaken, KeyOf;
  }

  lemma {:induction false} CreateGrows(s: StoreState, c: Command, env: Env)
    requires c.CreateTask? && KeyOf(c) !in s.commands && CreateRefusal(s, c, env).None? && LogsOk(s.tasks, s.events)
    ensures Grows(s, Apply(s, CreateDelta(c, env)))
  {
    assert c.task !in s.tasks && c.task !in s.events;
    hide Extends, LogsGrow, TasksGrow, ArtifactsGrow, HeadsGrow, LogsOk, PublicIdTaken, KeyOf, CreateRefusal, LogAfter;
    CreateTablesGrow(s, c, env);
    AppendGrows(s.events, CreateDelta(c, env).event.value);
    SameExtends(s.grants);
    SameExtends(s.submissions);
    SameExtends(s.receipts);
    SameRowsGrow(s);
  }

  lemma {:induction false} SameRowsGrow(s: StoreState)
    ensures ArtifactsGrow(s.artifacts, s.artifacts) && HeadsGrow(s.heads, s.heads)
  {}

  lemma {:induction false} TransitionRecordGrows(p: SoundPlan, r: TaskRecord, now: Time)
    requires TaskRowOk(p.task, r) && Admits(p, r.task, now)
    ensures RecordGrows(r, NextRecord(p, r, now))
  {}

  lemma {:induction false} TransitionTasksGrow(tasks: Tasks, p: SoundPlan, now: Time)
    requires p.task in tasks && TasksOk(tasks) && Admits(p, tasks[p.task].task, now)
    ensures TasksGrow(tasks, tasks[p.task := NextRecord(p, tasks[p.task], now)])
  {
    TransitionRecordGrows(p, tasks[p.task], now);
  }

  lemma {:induction false} TransitionHistoryGrows(s: StoreState, s': StoreState, p: SoundPlan, c: Command, size: nat, now: Time)
    requires TasksOk(s.tasks) && LogsOk(s.tasks, s.events)
    requires p.task in s.tasks && Admits(p, s.tasks[p.task].task, now) && TransitionWrites(s, s', p, c, size, now)
    ensures TasksGrow(s.tasks, s'.tasks) && LogsGrow(s.events, s'.events)
  {
    LogBelow(s.tasks, s.events, p.task);
    hide TasksOk, LogsOk, TasksGrow, LogsGrow, Admits;
    TransitionTasksGrow(s.tasks, p, now);
    AppendGrows(s.events, EventOf(p, NextTask(p, s.tasks[p.task].task, now), now));
  }

  lemma {:induction false} TransitionTablesGrow(s: StoreState, s': StoreState, p: Plan, c: Command, size: nat, now: Time)
    requires p.task in s.tasks && TransitionWrites(s, s', p, c, size, now) && KeyOf(c) !in s.commands
    requires p.message.Some? ==> MessageKey(p.task.workspace.authority, p.message.value.id) !in s.messages
    requires p.submission != "" ==> !SubmissionTaken(s.submissions, SubmissionOf(p, now))
    ensures Extends(s.commands, s'.commands) && Extends(s.messages, s'.messages) && Extends(s.grants, s'.grants)
    ensures Extends(s.submissions, s'.submissions) && Extends(s.receipts, s'.receipts)
  {}

  lemma {:induction false} TransitionArtifactsGrow(s: StoreState, s': StoreState, p: Plan, c: Command, size: nat, now: Time)
    requires p.task in s.tasks && TransitionWrites(s, s', p, c, size, now)
    ensures ArtifactsGrow(s.artifacts, s'.artifacts) && HeadsGrow(s.heads, s'.heads)
  {}

  lemma {:induction false} TransitionGrows(s: StoreState, s': StoreState, p: SoundPlan, c: Command, size: nat, now: Time)
    requires TasksOk(s.tasks) && LogsOk(s.tasks, s.events) && KeyOf(c) !in s.commands
    requires p.task in s.tasks && Admits(p, s.tasks[p.task].task, now) && TransitionWrites(s, s', p, c, size, now)
    requires p.message.Some? ==> MessageKey(p.task.workspace.authority, p.message.value.id) !in s.messages
    requires p.submission != "" ==> !SubmissionTaken(s.submissions, SubmissionOf(p, now))
    ensures Grows(s, s')
  {
    hide TransitionWrites, TasksGrow, LogsGrow, ArtifactsGrow, HeadsGrow, Extends, TasksOk, LogsOk, Admits, SubmissionTaken, PlanOk;
    TransitionHistoryGrows(s, s', p, c, size, now);
    TransitionTablesGrow(s, s', p, c, size, now);
    TransitionArtifactsGrow(s, s', p, c, size, now);
  }

  lemma {:induction false} FreezeTasksGrow(tasks: Tasks, c: Command, now: Time)
    requires c.FreezeArtifact? && c.task in tasks && FreezeAdmits(c, tasks[c.task], now)
    ensures TasksGrow(tasks, tasks[c.task := FrozenRecord(c, tasks[c.task], now)])
  {
    assert RecordGrows(tasks[c.task], FrozenRecord(c, tasks[c.task], now));
  }

  lemma {:induction false} FreezeHistoryGrows(s: StoreState, s': StoreState, c: Command, size: nat, now: Time)
    requires LogsOk(s.tasks, s.events) && c.FreezeArtifact? && c.task in s.tasks
    requires FreezeAdmits(c, s.tasks[c.task], now) && FreezeWrites(s, s', c, size, now)
    ensures TasksGrow(s.tasks, s'.tasks) && LogsGrow(s.events, s'.events)
  {
    LogBelow(s.tasks, s.events, c.task);
    FreezeTasksGrow(s.tasks, c, now);
    hide LogsOk, LogsGrow, TasksGrow, FreezeAdmits;
    AppendGrows(s.events, FrozenEvent(c, s.tasks[c.task].task, now));
  }

  lemma {:induction false} FreezeTablesGrow(s: StoreState, s': StoreState, c: Command, size: nat, now: Time)
    requires c.FreezeArtifact? && KeyOf(c) !in s.commands && c.task in s.tasks && FreezeWrites(s, s', c, size, now)
    requires FrozenArtifact(c, now).ref !in s.artifacts
    ensures ArtifactsGrow(s.artifacts, s'.artifacts) && HeadsGrow(s.heads, s'.heads)
    ensures Extends(s.commands, s'.commands) && Extends(s.messages, s'.messages) && Extends(s.grants, s'.grants)
    ensures Extends(s.submissions, s'.submissions) && Extends(s.receipts, s'.receipts)
  {}

  lemma {:induction false} FreezeGrows(s: StoreState, s': StoreState, c: Command, size: nat, now: Time)
    requires LogsOk(s.tasks, s.events) && c.FreezeArtifact? && KeyOf(c) !in s.commands && c.task in s.tasks
    requires FreezeAdmits(c, s.tasks[c.task], now) && FreezeWrites(s, s', c, size, now)
    requires FrozenArtifact(c, now).ref !in s.artifacts
    ensures Grows(s, s')
  {
    hide FreezeWrites, TasksGrow, LogsGrow, ArtifactsGrow, HeadsGrow, Extends, LogsOk, FreezeAdmits;
    FreezeHistoryGrows(s, s', c, size, now);
    FreezeTablesGrow(s, s', c, size, now);
  }

  lemma {:induction false} LeaseGrows(s: StoreState, s': StoreState, ref: TaskRef, lease: LeaseState, grants': Grants, record: CommandRecord)
    requires ref in s.tasks && LeaseWrites(s, s', ref, lease, grants', record) && Extends(s.grants, grants')
    requires RecordGrows(s.tasks[ref], s.tasks[ref].(lease := lease))
    requires CommandKey(record.authority, record.id) !in s.commands
    ensures Grows(s, s')
  {}

  lemma {:induction false} ReceiptGrows(s: StoreState, s': StoreState, record: CommandRecord)
    requires CommandKey(record.authority, record.id) !in s.commands
    requires s' == s.(commands := s.commands[CommandKey(record.authority, record.id) := record],
                      receipts := s'.receipts, heads := s'.heads)
    requires Extends(s.receipts, s'.receipts) && HeadsGrow(s.heads, s'.heads)
    ensures Grows(s, s')
  {}

  lemma {:induction false} HeadSteps(s: StoreState, s': StoreState, c: Command, now: Time)
    requires c.RecordApplyReceipt? && c.artifactRef in s.artifacts && ArtifactsOk(s.tasks, s.artifacts, s.heads)
    requires c.decision == ApplySuccess ==>
               && c.artifactRef.workspace in s.heads
               && s.heads[c.artifactRef.workspace].confirmedRevision == s.artifacts[c.artifactRef].artifact.baseRevision
    requires s.artifacts[c.artifactRef].artifact.resultRevision == c.resultRevision
    requires HeadWrites(s, s', c, now)
    ensures HeadsGrow(s.heads, s'.heads)
  {
    var a := s.artifacts[c.artifactRef].artifact;
    assert OnChain(a.baseRevision, a.resultRevision) by {
      assert ArtifactRowOk(s.tasks, s.heads, c.artifactRef, s.artifacts[c.artifactRef]);
    }
  }
}
