/** How each group of the invariant survives one write to its tables. */
module Tables {
  import opened Types
  import opened Validators
  import opened Store
  import opened Commands
  import opened Invariant

  type Tasks = map<TaskRef, TaskRecord>
  type Messages = map<MessageKey, MessageRecord>
  type Grants = map<LeaseKey, GrantRecord>
  type Artifacts = map<ArtifactRef, ArtifactRecord>
  type Heads = map<WorkspaceRef, WorkspaceHead>

  // ---- Task identifiers

  lemma {:induction false} PublicIdsAfterCreate(tasks: Tasks, ref: TaskRef, r: TaskRecord)
    requires PublicIdsUnique(tasks) && !PublicIdTaken(tasks, ref)
    ensures PublicIdsUnique(tasks[ref := r])
  {
    forall other | other in tasks
      ensures !(other.workspace.authority == ref.workspace.authority && other.id == ref.id)
    {}
  }

  // ---- Event logs

  lemma {:induction false} FoldFrame(log: Log, n: nat, k: nat, e: Event)
    requires k < n
    ensures Fold(log[n := e], k) == Fold(log, k)
  {
    if k > 0 {
      FoldFrame(log, n, k - 1, e);
    }
  }

  lemma {:induction false} LogRowFrame(ref: TaskRef, log: Log, n: nat, e: Event, k: nat)
    requires k in log && 1 <= k < n && LogRowOk(ref, log, k)
    ensures LogRowOk(ref, log[n := e], k)
  {
    hide EventRowOk, MayFollow;
    FoldFrame(log, n, k - 1, e);
  }

  lemma {:induction false} LastRow(ref: TaskRef, log: Log, t: Task, e: Event, next: Task)
    requires Fold(log, t.eventCount) == ViewOf(t) && next.eventCount == t.eventCount + 1
    requires EventRowOk(ref, next.eventCount, e) && MayFollow(ViewOf(t), e) && ReadEvent(ViewOf(t), e) == ViewOf(next)
    ensures LogRowOk(ref, log[next.eventCount := e], next.eventCount)
    ensures Fold(log[next.eventCount := e], next.eventCount) == ViewOf(next)
  {
    hide EventRowOk, MayFollow, ReadEvent, ViewOf;
    FoldFrame(log, next.eventCount, t.eventCount, e);
  }

  lemma {:induction false} LogAppend(ref: TaskRef, log: Log, t: Task, e: Event, next: Task)
    requires LogOk(ref, log, t) && next.eventCount == t.eventCount + 1
    requires EventRowOk(ref, next.eventCount, e)
    requires MayFollow(ViewOf(t), e)
    requires ReadEvent(ViewOf(t), e) == ViewOf(next)
    ensures LogOk(ref, log[next.eventCount := e], next)
  {
    hide LogRowOk, Fold, EventRowOk, MayFollow, ReadEvent, ViewOf;
    var n := next.eventCount;
    var log' := log[n := e];
    LastRow(ref, log, t, e, next);
    forall k {:trigger LogRowOk(ref, log', k)} | k in log' ensures LogRowOk(ref, log', k) {
      if k != n {
        LogRowFrame(ref, log, n, e, k);
      }
    }
  }

  lemma {:induction false} LogsAfterAppend(tasks: Tasks, events: map<TaskRef, Log>, ref: TaskRef, r: TaskRecord, e: Event)
    requires LogsOk(tasks, events) && ref in tasks
    requires LogOk(ref, events[ref][r.task.eventCount := e], r.task)
    requires e.task == ref && e.sequence == r.task.eventCount
    ensures LogsOk(tasks[ref := r], events[ref := LogAfter(events, e)])
  {}

  lemma {:induction false} LogsAfterCreate(tasks: Tasks, events: map<TaskRef, Log>, ref: TaskRef, r: TaskRecord, e: Event)
    requires LogsOk(tasks, events) && ref !in tasks
    requires r.task.eventCount == 1 && EventRowOk(ref, 1, e) && e.kind.EventTaskSubmitted?
    requires ViewOf(r.task) == LogView(e.state, 1, "", e.submission, "", e.occurredAt, e.occurredAt)
    ensures LogsOk(tasks[ref := r], events[ref := LogAfter(events, e)])
  {
    var log: Log := map[1 := e];
    assert LogAfter(events, e) == log;
    assert Fold(log, 0) == LogView(TaskSubmitted, 0, "", "", "", 0, 0);
    assert Fold(log, 1) == ReadEvent(Fold(log, 0), e);
    assert LogOk(ref, log, r.task);
  }

  /** Lease changes leave the log alone. */
  lemma {:induction false} LogsAfterLease(tasks: Tasks, events: map<TaskRef, Log>, ref: TaskRef, r: TaskRecord)
    requires LogsOk(tasks, events) && ref in tasks && r.task == tasks[ref].task
    ensures LogsOk(tasks[ref := r], events)
  {}

  // ---- Messages

  lemma {:induction false} MessagesAfterTask(tasks: Tasks, messages: Messages, ref: TaskRef, r: TaskRecord)
    requires MessagesOk(tasks, messages) && ref in tasks
    requires r.task.messageCount == tasks[ref].task.messageCount
    requires tasks[ref].task.updatedAt <= r.task.updatedAt
    ensures MessagesOk(tasks[ref := r], messages)
  {
    forall key | key in messages ensures MessageRowOk(tasks[ref := r], key, messages[key]) {
      assert MessageRowOk(tasks, key, messages[key]);
    }
  }

  /** `m` is the next message of the Task `ref`, written with its new record `r`. */
  predicate NextMessage(tasks: Tasks, messages: Messages, ref: TaskRef, r: TaskRecord, m: MessageRecord) {
    && (ref in tasks ==>
          && r.task.messageCount == tasks[ref].task.messageCount + 1
          && tasks[ref].task.updatedAt <= r.task.updatedAt)
    && (ref !in tasks ==> r.task.messageCount == 1)
    && m.Key() !in messages && m.task == ref && m.sequence == r.task.messageCount
    && m.createdAt == r.task.updatedAt
  }

  lemma {:induction false} MessageTableAfter(tasks: Tasks, messages: Messages, ref: TaskRef, r: TaskRecord, m: MessageRecord)
    requires MessageTableOk(tasks, messages) && NextMessage(tasks, messages, ref, r, m)
    requires MessageRowOk(tasks[ref := r], m.Key(), m)
    ensures MessageTableOk(tasks[ref := r], messages[m.Key() := m])
    ensures forall key | key in messages && messages[key].task == ref ::
              messages[key].sequence < m.sequence && messages[key].createdAt <= m.createdAt
  {
    hide ValidStoredMessage, SealFits;
    forall key | key in messages
      ensures MessageRowOk(tasks[ref := r], key, messages[key])
      ensures messages[key].task == ref ==> messages[key].sequence < m.sequence && messages[key].createdAt <= m.createdAt
    {
      assert MessageRowOk(tasks, key, messages[key]);
    }
  }

  lemma {:induction false} MessagesCompleteAfter(tasks: Tasks, messages: Messages, ref: TaskRef, r: TaskRecord, m: MessageRecord)
    requires MessagesComplete(tasks, messages) && NextMessage(tasks, messages, ref, r, m)
    ensures MessagesComplete(tasks[ref := r], messages[m.Key() := m])
  {
    var tasks', messages' := tasks[ref := r], messages[m.Key() := m];
    forall t, n | t in tasks' && 1 <= n <= tasks'[t].task.messageCount ensures HasMessage(messages', t, n) {
      if t == ref && n == m.sequence {
        assert m.Key() in messages';
      } else {
        assert HasMessage(messages, t, n);
        var key :| key in messages && messages[key].task == t && messages[key].sequence == n;
        assert key in messages' && messages'[key] == messages[key];
      }
    }
  }

  lemma {:induction false} MessagesAfterInsert(tasks: Tasks, messages: Messages, ref: TaskRef, r: TaskRecord, m: MessageRecord)
    requires MessagesOk(tasks, messages) && NextMessage(tasks, messages, ref, r, m)
    requires MessageRowOk(tasks[ref := r], m.Key(), m)
    ensures MessagesOk(tasks[ref := r], messages[m.Key() := m])
  {
    hide MessageTableOk, MessageRowOk, MessagesComplete;
    MessageTableAfter(tasks, messages, ref, r, m);
    MessagesCompleteAfter(tasks, messages, ref, r, m);
  }

  lemma {:induction false} LinksAfterAppend(events: map<TaskRef, Log>, messages: Messages, messages': Messages, e: Event)
    requires LinksOk(events, messages)
    requires forall key | key in messages :: key in messages' && messages'[key] == messages[key]
    requires e.task in events ==> forall n | n in events[e.task] :: n < e.sequence
    requires e.message != "" ==>
               var key := MessageKey(e.task.workspace.authority, e.message);
               && key in messages' && messages'[key].task == e.task && messages'[key].createdAt == e.occurredAt
               && messages'[key].sequence == Fold(LogAfter(events, e), e.sequence).messages
    ensures LinksOk(events[e.task := LogAfter(events, e)], messages')
  {
    var log' := LogAfter(events, e);
    forall n {:trigger LinkOk(log', messages', n)} | n in log' ensures LinkOk(log', messages', n) {
      if n != e.sequence {
        assert LinkOk(events[e.task], messages, n);
        FoldFrame(events[e.task], e.sequence, n, e);
      }
    }
    forall ref, n {:trigger LinkOk(events[ref], messages', n)} | ref in events && ref != e.task && n in events[ref]
      ensures LinkOk(events[ref], messages', n)
    {
      assert LinkOk(events[ref], messages, n);
    }
  }

  // ---- Leases

  /** The owner may be cleared or kept; the fence and the grants stay. */
  lemma {:induction false} GrantsAfterTask(tasks: Tasks, grants: Grants, ref: TaskRef, r: TaskRecord)
    requires GrantsOk(tasks, grants)
    requires if ref in tasks
             then (r.lease == tasks[ref].lease || r.lease == LeaseState("", tasks[ref].lease.fence))
                  && r.task.createdAt == tasks[ref].task.createdAt
             else r.lease == LeaseState("", 0)
    ensures GrantsOk(tasks[ref := r], grants)
  {
    forall key | key in grants ensures GrantRowOk(tasks[ref := r], grants, key) {
      assert GrantRowOk(tasks, grants, key);
    }
    if ref in tasks {
      assert LeaseHeadOk(grants, ref, tasks[ref].lease);
    }
  }

  /** `g` is the next grant of the Task `ref`, at a time no earlier than the last. */
  predicate NextGrant(tasks: Tasks, grants: Grants, ref: TaskRef, r: TaskRecord, g: GrantRecord) {
    && ref in tasks
    && r.task == tasks[ref].task && r.lease == LeaseState(g.grant.worker, tasks[ref].lease.fence + 1)
    && g.Key() == LeaseKey(ref, r.lease.fence) && ValidGrant(g.grant) && ValidTime(g.grantedAt)
    && tasks[ref].task.createdAt <= g.grantedAt
    && var last := LeaseKey(ref, tasks[ref].lease.fence); last in grants ==> grants[last].grantedAt <= g.grantedAt
  }

  lemma {:induction false} GrantIsNew(tasks: Tasks, grants: Grants, ref: TaskRef, fence: nat)
    requires GrantTableOk(tasks, grants) && ref in tasks && tasks[ref].lease.fence < fence
    ensures LeaseKey(ref, fence) !in grants
  {
    assert forall key | key in grants :: GrantRowOk(tasks, grants, key);
  }

  lemma {:induction false} GrantRowStays(tasks: Tasks, grants: Grants, ref: TaskRef, r: TaskRecord, g: GrantRecord, key: LeaseKey)
    requires NextGrant(tasks, grants, ref, r, g) && g.Key() !in grants && key in grants && GrantRowOk(tasks, grants, key)
    ensures GrantRowOk(tasks[ref := r], grants[g.Key() := g], key)
  {
    hide ValidGrant, ValidTime;
  }

  lemma {:induction false} NewGrantRow(tasks: Tasks, grants: Grants, ref: TaskRef, r: TaskRecord, g: GrantRecord)
    requires NextGrant(tasks, grants, ref, r, g) && g.Key() !in grants && LeaseHeadOk(grants, ref, tasks[ref].lease)
    ensures GrantRowOk(tasks[ref := r], grants[g.Key() := g], g.Key())
  {
    hide ValidTime, ValidTaskRef, ValidId;
  }

  lemma {:induction false} GrantTableAfterGrant(tasks: Tasks, grants: Grants, ref: TaskRef, r: TaskRecord, g: GrantRecord)
    requires GrantTableOk(tasks, grants) && NextGrant(tasks, grants, ref, r, g) && g.Key() !in grants
    requires LeaseHeadOk(grants, ref, tasks[ref].lease)
    ensures GrantTableOk(tasks[ref := r], grants[g.Key() := g])
  {
    hide GrantRowOk, NextGrant, LeaseHeadOk;
    var grants' := grants[g.Key() := g];
    NewGrantRow(tasks, grants, ref, r, g);
    forall key | key in grants' ensures GrantRowOk(tasks[ref := r], grants', key) {
      if key != g.Key() {
        GrantRowStays(tasks, grants, ref, r, g, key);
      }
    }
  }

  lemma {:induction false} LeaseHeadsAfterGrant(tasks: Tasks, grants: Grants, ref: TaskRef, r: TaskRecord, g: GrantRecord)
    requires LeaseHeadsOk(tasks, grants) && NextGrant(tasks, grants, ref, r, g) && g.Key() !in grants
    ensures LeaseHeadsOk(tasks[ref := r], grants[g.Key() := g])
  {
    hide ValidGrant, ValidTime;
    forall t | t in tasks && t != ref ensures LeaseHeadOk(grants[g.Key() := g], t, tasks[t].lease) {
      assert LeaseHeadOk(grants, t, tasks[t].lease);
    }
  }

  lemma {:induction false} GrantsAfterGrant(tasks: Tasks, grants: Grants, ref: TaskRef, r: TaskRecord, g: GrantRecord)
    requires GrantsOk(tasks, grants) && NextGrant(tasks, grants, ref, r, g)
    ensures g.Key() !in grants
    ensures GrantsOk(tasks[ref := r], grants[g.Key() := g])
  {
    hide GrantTableOk, GrantRowOk, LeaseHeadOk;
    GrantIsNew(tasks, grants, ref, r.lease.fence);
    assert LeaseHeadOk(grants, ref, tasks[ref].lease);
    GrantTableAfterGrant(tasks, grants, ref, r, g);
    LeaseHeadsAfterGrant(tasks, grants, ref, r, g);
  }

  // ---- Artifacts

  lemma {:induction false} ArtifactsAfterTask(tasks: Tasks, artifacts: Artifacts, heads: Heads, ref: TaskRef, r: TaskRecord)
    requires ArtifactsOk(tasks, artifacts, heads)
    requires if ref in tasks
             then r.task.artifact == tasks[ref].task.artifact && r.artifactState == tasks[ref].artifactState
                  && tasks[ref].task.updatedAt <= r.task.updatedAt
             else r.task.artifact.None?
    ensures ArtifactsOk(tasks[ref := r], artifacts, heads)
  {
    forall a | a in artifacts ensures ArtifactRowOk(tasks[ref := r], heads, a, artifacts[a]) {
      assert ArtifactRowOk(tasks, heads, a, artifacts[a]);
    }
  }

  /** A row of another Task does not notice a change of `ref`. */
  lemma {:induction false} ArtifactRowStays(tasks: Tasks, heads: Heads, heads': Heads, ref: TaskRef, r: TaskRecord,
                                            a: ArtifactRef, row: ArtifactRecord)
    requires ArtifactRowOk(tasks, heads, a, row) && row.artifact.task != ref && heads.Keys <= heads'.Keys
    ensures ArtifactRowOk(tasks[ref := r], heads', a, row)
  {
    hide ValidStoredArtifact, SealFits, ValidTime;
  }

  /** Rows other than the Task's own Artifact belong to other Tasks. */
  lemma {:induction false} OtherTaskRow(tasks: Tasks, heads: Heads, ref: TaskRef, a: ArtifactRef, row: ArtifactRecord)
    requires ArtifactRowOk(tasks, heads, a, row) && (ref in tasks ==> tasks[ref].task.artifact != Some(a))
    ensures row.artifact.task != ref
  {
    hide ValidStoredArtifact, SealFits, ValidTime;
  }

  lemma {:induction false} ArtifactTableAfter(tasks: Tasks, artifacts: Artifacts, heads: Heads, heads': Heads,
                                              ref: TaskRef, r: TaskRecord, row: ArtifactRecord)
    requires ArtifactTableOk(tasks, artifacts, heads) && heads.Keys <= heads'.Keys
    requires forall a | a in artifacts && a != row.artifact.ref && ref in tasks :: tasks[ref].task.artifact != Some(a)
    requires ArtifactRowOk(tasks[ref := r], heads', row.artifact.ref, row)
    ensures ArtifactTableOk(tasks[ref := r], artifacts[row.artifact.ref := row], heads')
  {
    hide ArtifactRowOk;
    var artifacts' := artifacts[row.artifact.ref := row];
    forall a | a in artifacts' ensures ArtifactRowOk(tasks[ref := r], heads', a, artifacts'[a]) {
      if a != row.artifact.ref {
        OtherTaskRow(tasks, heads, ref, a, artifacts[a]);
        ArtifactRowStays(tasks, heads, heads', ref, r, a, artifacts[a]);
      }
    }
  }

  lemma {:induction false} ArtifactsAfterSettle(tasks: Tasks, artifacts: Artifacts, heads: Heads,
                             ref: TaskRef, r: TaskRecord, row: ArtifactRecord)
    requires ArtifactsOk(tasks, artifacts, heads) && ref in tasks
    requires row.artifact.ref in artifacts && row.artifact.task == ref
    requires r.task.artifact == tasks[ref].task.artifact == Some(row.artifact.ref)
    requires ArtifactRowOk(tasks[ref := r], heads, row.artifact.ref, row)
    ensures ArtifactsOk(tasks[ref := r], artifacts[row.artifact.ref := row], heads)
  {
    hide ArtifactTableOk, ArtifactRowOk;
    ArtifactTableAfter(tasks, artifacts, heads, heads, ref, r, row);
  }

  lemma {:induction false} ArtifactsAfterFreeze(tasks: Tasks, artifacts: Artifacts, heads: Heads, heads': Heads,
                             ref: TaskRef, r: TaskRecord, row: ArtifactRecord)
    requires ArtifactsOk(tasks, artifacts, heads) && ref in tasks && tasks[ref].task.artifact.None?
    requires heads.Keys <= heads'.Keys
    requires !ArtifactTaken(artifacts, row.artifact)
    requires r.task.artifact == Some(row.artifact.ref) && row.artifact.task == ref
    requires ArtifactRowOk(tasks[ref := r], heads', row.artifact.ref, row)
    ensures row.artifact.ref !in artifacts
    ensures ArtifactsOk(tasks[ref := r], artifacts[row.artifact.ref := row], heads')
  {
    hide ArtifactTableOk, ArtifactRowOk, ArtifactTaken;
    FreshArtifactId(artifacts, heads, tasks, row.artifact);
    ArtifactTableAfter(tasks, artifacts, heads, heads', ref, r, row);
  }

  lemma {:induction false} FreshArtifactId(artifacts: Artifacts, heads: Heads, tasks: Tasks, artifact: Artifact)
    requires ArtifactTableOk(tasks, artifacts, heads) && !ArtifactTaken(artifacts, artifact)
    ensures forall a | a in artifacts :: !(a.workspace.authority == artifact.ref.workspace.authority && a.id == artifact.ref.id)
  {
    hide ValidStoredArtifact, SealFits, ValidTime;
    forall a | a in artifacts ensures artifacts[a].artifact.ref == a {
      assert ArtifactRowOk(tasks, heads, a, artifacts[a]);
    }
  }

  // ---- Submissions

  lemma {:induction false} SubmissionsAfterTask(tasks: Tasks, submissions: map<TaskRef, Submission>, ref: TaskRef, r: TaskRecord)
    requires SubmissionsOk(tasks, submissions)
    requires if ref in tasks then r.task.submission == tasks[ref].task.submission else r.task.submission.None?
    ensures SubmissionsOk(tasks[ref := r], submissions)
  {}

  lemma {:induction false} SubmissionsAfterInsert(tasks: Tasks, submissions: map<TaskRef, Submission>,
                               ref: TaskRef, r: TaskRecord, b: Submission)
    requires SubmissionsOk(tasks, submissions) && !SubmissionTaken(submissions, b)
    requires b.task == ref && r.task.submission == Some(b)
    ensures SubmissionsOk(tasks[ref := r], submissions[ref := b])
  {
    forall t | t in submissions
      ensures t != ref && !(t.workspace.authority == ref.workspace.authority && submissions[t].id == b.id)
    {}
  }

  // ---- Receipts

  lemma {:induction false} OnChainExtends(r: Revision, head: Revision, next: Revision)
    requires OnChain(r, head) && OnChain(head, next)
    ensures OnChain(r, next)
  {
    if head != next {
      OnChainExtends(r, head, next.base);
    }
  }

  /** Rows already carrying a receipt do not change. */
  lemma {:induction false} ReceiptsAfterArtifact(artifacts: Artifacts, receipts: map<ArtifactRef, ApplyReceipt>,
                              heads: Heads, heads': Heads, row: ArtifactRecord)
    requires ReceiptsOk(artifacts, receipts, heads)
    requires row.artifact.ref in artifacts ==> artifacts[row.artifact.ref].artifact.state == ArtifactFrozen
    requires forall w | w in heads :: w in heads' && heads'[w] == heads[w]
    ensures ReceiptsOk(artifacts[row.artifact.ref := row], receipts, heads')
  {
    forall a | a in receipts ensures ReceiptRowOk(artifacts[row.artifact.ref := row], heads', a, receipts[a]) {
      assert ReceiptRowOk(artifacts, heads, a, receipts[a]);
    }
  }

  lemma {:induction false} ReceiptsAfterInsert(artifacts: Artifacts, receipts: map<ArtifactRef, ApplyReceipt>,
                            heads: Heads, heads': Heads, r: ApplyReceipt)
    requires ReceiptsOk(artifacts, receipts, heads) && !ReceiptTaken(receipts, r)
    requires forall w | w in heads ::
               w in heads' && OnChain(heads[w].confirmedRevision, heads'[w].confirmedRevision)
    requires ReceiptRowOk(artifacts, heads', r.artifact, r)
    ensures ReceiptsOk(artifacts, receipts[r.artifact := r], heads')
  {
    forall a | a in receipts
      ensures ReceiptRowOk(artifacts, heads', a, receipts[a])
      ensures a != r.artifact && !(a.workspace.authority == r.artifact.workspace.authority && receipts[a].id == r.id)
    {
      assert ReceiptRowOk(artifacts, heads, a, receipts[a]);
      if receipts[a].decision == ApplySuccess {
        OnChainExtends(receipts[a].resultRevision, heads[a.workspace].confirmedRevision,
                       heads'[a.workspace].confirmedRevision);
      }
    }
  }

  // ---- Command receipts

  /** What a replay may rely on forever. */
  ghost predicate EvidenceKept(s: StoreState, s': StoreState) {
    && (forall key | key in s.grants :: key in s'.grants && s'.grants[key] == s.grants[key])
    && (forall a | a in s.artifacts ::
          a in s'.artifacts && SameArtifactIdentity(s'.artifacts[a].artifact, s.artifacts[a].artifact))
    && (forall a | a in s.receipts :: a in s'.receipts && s'.receipts[a] == s.receipts[a])
  }

  lemma {:induction false} CommandRowKept(s: StoreState, s': StoreState, key: CommandKey, r: CommandRecord)
    requires EvidenceKept(s, s') && CommandRowOk(s, key, r)
    ensures CommandRowOk(s', key, r)
  {}

  lemma {:induction false} CommandsAfterInsert(s: StoreState, s': StoreState, r: CommandRecord)
    requires CommandsOk(s) && EvidenceKept(s, s')
    requires s'.commands == s.commands[CommandKey(r.authority, r.id) := r]
    requires CommandRowOk(s', CommandKey(r.authority, r.id), r)
    ensures CommandsOk(s')
  {
    hide ValidCommand, ValidStoredTask, ValidFreezeResult, ValidAssignment, KeyOf;
    forall key | key in s'.commands ensures CommandRowOk(s', key, s'.commands[key]) {
      if key != CommandKey(r.authority, r.id) {
        CommandRowKept(s, s', key, s.commands[key]);
      }
    }
  }

  // ---- One command per event

  lemma {:induction false} EffectsAfterOther(commands: map<CommandKey, CommandRecord>, events: map<TaskRef, Log>,
                          key: CommandKey, r: CommandRecord)
    requires EffectsOk(commands, events) && key !in commands && !Advances(r.intent)
    ensures EffectsOk(commands[key := r], events)
  {
    forall ref, n | ref in events && n in events[ref] ensures HasCommand(commands[key := r], ref, n) {
      assert HasCommand(commands, ref, n);
      var k :| k in commands && Produced(commands[k], ref, n);
      assert k in commands[key := r] && commands[key := r][k] == commands[k];
    }
  }

  lemma {:induction false} EffectsAfterAdvance(commands: map<CommandKey, CommandRecord>, events: map<TaskRef, Log>,
                            key: CommandKey, r: CommandRecord, e: Event)
    requires EffectsOk(commands, events) && key !in commands
    requires Produced(r, e.task, e.sequence) && EventMatches(r.intent, e)
    requires e.task in events ==> e.sequence !in events[e.task]
    ensures EffectsOk(commands[key := r], events[e.task := LogAfter(events, e)])
  {
    var commands', events' := commands[key := r], events[e.task := LogAfter(events, e)];
    forall k | k in commands
      ensures EffectRowOk(events', commands[k])
      ensures !Produced(commands[k], e.task, e.sequence)
    {
      assert EffectRowOk(events, commands[k]);
    }
    forall ref, n | ref in events' && n in events'[ref] ensures HasCommand(commands', ref, n) {
      if ref == e.task && n == e.sequence {
        assert key in commands';
      } else {
        assert HasCommand(commands, ref, n);
        var k :| k in commands && Produced(commands[k], ref, n);
        assert k in commands' && commands'[k] == commands[k];
      }
    }
  }
}
