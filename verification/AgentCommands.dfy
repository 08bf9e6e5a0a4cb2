/** The Agent's transactions, step by step over the working copy. Each is proved to
refuse exactly when the specification refuses, with the same error, and otherwise
to leave exactly the specified writes. A failed transaction may leave its working
copy half written; the Update drops it. */
module AgentCommands {
  import opened Types
  import opened Validators
  import opened Store
  import opened Commands
  import opened Invariant
  import opened Tables
  import opened Steps
  import opened MemoryStore
  import T = Transactions
  import opened AgentCore
  import Fencing

  /** `r` is the answer and `after` the working copy of a transaction on `s`. */
  ghost predicate Refines(s: StoreState, c: Command, env: Env, r: Result<Answer>, after: StoreState) {
    if Refusal(s, c, env).Some? then r == Err(Refusal(s, c, env).value)
    else r == Ok(Decide(s, c, env).command.answer) && after == Apply(s, Decide(s, c, env))
  }

  ghost predicate RefinesPlan(s: StoreState, p: Plan, c: Command, env: Env, r: Result<Answer>, after: StoreState) {
    if TransitionRefusal(s, p, env).Some? then r == Err(TransitionRefusal(s, p, env).value)
    else r == Ok(TransitionDelta(s, p, c, env).command.answer) && after == Apply(s, TransitionDelta(s, p, c, env))
  }

  // ---- Free slots

  lemma {:induction false} MessageSlot(s: StoreState, m: MessageRecord)
    requires MessagesOk(s.tasks, s.messages)
    requires m.task in s.tasks ==> m.sequence > s.tasks[m.task].task.messageCount
    ensures MessageTaken(s.messages, m) <==> m.Key() in s.messages
  {
    forall key | key in s.messages ensures !(s.messages[key].task == m.task && s.messages[key].sequence == m.sequence) {
      assert MessageRowOk(s.tasks, key, s.messages[key]);
    }
  }

  // ---- Create

  method CreateIn(tx: Unit, c: Command, env: Env) returns (r: Result<Answer>)
    requires Inv(tx.state) && c.CreateTask? && ValidCommand(c) && KeyOf(c) !in tx.state.commands
    requires SealFits(env.sealedSize, MAX_PAGE_BYTES)
    modifies tx
    ensures Refines(old(tx.state), c, env, r, tx.state)
  {
    hide T.After;
    hide TasksOk, PublicIdsUnique, LogsOk, MessagesOk, LinksOk, GrantsOk, ArtifactsOk, SubmissionsOk, HeadsOk, ReceiptsOk, EffectsOk, CommandsOk;
    hide ValidCommand, MessageTaken, PublicIdTaken;
    ghost var s := tx.state;
    if !ValidTime(env.clock) {
      return Err(InvalidArgument);
    }
    var now := env.clock;
    var task := InitialTask(c.task, c.context, now);
    var inserted := tx.InsertTask(TaskRecord(task, LeaseState("", 0), None));
    if !inserted {
      return Err(TaskConflict);
    }
    FreshTask(s, c.task);
    var message := MessageRecord(c.message.id, c.task, 1, AuthorCaller, c.message.parts, env.sealedSize, now);
    MessageSlot(s, message);
    inserted := tx.InsertMessage(message);
    if !inserted {
      return Err(MessageConflict);
    }
    inserted := Record(tx, Event(c.task, 1, EventTaskSubmitted, TaskSubmitted, 1, c.message.id, "", "", now),
                       RecordOf(c, TaskAnswer(task), now));
    if !inserted {
      return Err(StoreConflict);
    }
    return Ok(TaskAnswer(task));
  }

  lemma {:induction false} FreshTask(s: StoreState, ref: TaskRef)
    requires LogsOk(s.tasks, s.events) && !PublicIdTaken(s.tasks, ref)
    ensures ref !in s.tasks && ref !in s.events
  {}

  // ---- Lifecycle transitions

  lemma {:induction false} TransitionSlots(s: StoreState, p: Plan, size: nat, now: Time)
    requires Inv(s) && p.task in s.tasks
    ensures p.task in s.events && s.tasks[p.task].task.eventCount + 1 !in s.events[p.task]
    ensures s.tasks[p.task].task.artifact.Some? ==> s.tasks[p.task].task.artifact.value.workspace == p.task.workspace
    ensures p.message.Some? ==>
              var m := MessageOf(p, s.tasks[p.task].task.messageCount + 1, size, now);
              MessageTaken(s.messages, m) <==> m.Key() in s.messages
    ensures forall ref | ref in s.artifacts :: s.artifacts[ref].artifact.ref == ref
    ensures s.tasks[p.task].task.revision >= 1
  {
    hide LinksOk, GrantsOk, SubmissionsOk, HeadsOk, ReceiptsOk, EffectsOk, CommandsOk, LogsOk, MessagesOk, ArtifactsOk, TasksOk;
    TaskRowAt(s, p.task);
    LogBelow(s.tasks, s.events, p.task);
    if p.message.Some? {
      MessageSlot(s, MessageOf(p, s.tasks[p.task].task.messageCount + 1, size, now));
    }
    ArtifactKeys(s);
  }

  method CheckTransitionEntry(tx: Unit, p: Plan, env: Env) returns (r: Option<Error>)
    requires TasksOk(tx.state.tasks) && GrantsOk(tx.state.tasks, tx.state.grants)
    requires p.grant.Some? ==> ValidGrant(p.grant.value)
    requires p.message.Some? ==> SealFits(env.sealedSize, MAX_PAGE_BYTES)
    ensures r == EarlyRefusal(tx.state, p, env)
  {
    var loaded := LoadTask(tx, p.task);
    if loaded.Err? {
      return Some(loaded.error);
    }
    var current := loaded.value.task;
    if p.grant.Some? {
      var lease := RequireCurrentLease(tx, p.grant.value);
      if lease.Some? {
        return lease;
      }
    }
    if current.revision != p.meta.expectedRevision {
      return Some(RevisionConflict);
    }
    if current.state.Terminal() {
      return Some(TerminalTask);
    }
    if current.state !in p.allowed {
      return Some(InvalidTransition);
    }
    if current.revision >= MAX_INT64 || current.eventCount >= MAX_INT64
       || (p.message.Some? && current.messageCount >= MAX_INT64) {
      return Some(RevisionConflict);
    }
    if !ValidTime(env.clock) {
      return Some(InvalidArgument);
    }
    if p.submission != "" && current.artifact != p.artifact {
      return Some(ArtifactStateError);
    }
    return None;
  }

  /** Moves the Task's Artifact out of the frozen state when the plan settles it. */
  method SettleArtifact(tx: Unit, p: Plan, current: Task, now: Time) returns (r: Option<Error>)
    requires SettledArtifact(p, current).Some? ==> SettledArtifact(p, current).value.workspace == p.task.workspace
    requires !(p.discard && p.artifact.Some?)
    modifies tx
    ensures var settled := SettledArtifact(p, current);
            if settled.Some? && !Frozen(old(tx.state), settled.value, p.task) then r == Some(ArtifactStateError)
            else r == None
                 && tx.state == old(tx.state).(artifacts :=
                      if settled.Some?
                      then old(tx.state).artifacts[settled.value := SettledRow(p, old(tx.state).artifacts[settled.value], now)]
                      else old(tx.state).artifacts)
  {
    hide T.After;
    if p.discard && current.artifact.Some? {
      var changed := tx.CompareAndSwapArtifact(current.artifact.value, p.task, ArtifactFrozen, ArtifactDiscarded, None, Some(now));
      if changed != Ok(true) {
        return Some(ArtifactStateError);
      }
    }
    if p.artifact.Some? {
      var changed := tx.CompareAndSwapArtifact(p.artifact.value, p.task, ArtifactFrozen, ArtifactPublished, Some(now), None);
      if changed != Ok(true) {
        return Some(ArtifactStateError);
      }
    }
    return None;
  }

  method AddMessage(tx: Unit, p: Plan, sequence: nat, size: nat, now: Time) returns (ok: bool)
    requires p.message.Some? ==>
               var m := MessageOf(p, sequence, size, now); MessageTaken(tx.state.messages, m) <==> m.Key() in tx.state.messages
    modifies tx
    ensures ok == !(p.message.Some? && MessageKey(p.task.workspace.authority, p.message.value.id) in old(tx.state).messages)
    ensures ok ==> tx.state == old(tx.state).(messages :=
              if p.message.Some? then var m := MessageOf(p, sequence, size, now); old(tx.state).messages[m.Key() := m]
              else old(tx.state).messages)
  {
    hide T.After;
    if p.message.None? {
      return true;
    }
    hide MessageTaken;
    ok := tx.InsertMessage(MessageOf(p, sequence, size, now));
  }

  method AddSubmission(tx: Unit, p: Plan, now: Time) returns (ok: bool)
    modifies tx
    ensures ok == !(p.submission != "" && SubmissionTaken(old(tx.state).submissions, SubmissionOf(p, now)))
    ensures ok ==> tx.state == old(tx.state).(submissions :=
              if p.submission != "" then old(tx.state).submissions[p.task := SubmissionOf(p, now)] else old(tx.state).submissions)
  {
    hide T.After;
    if p.submission == "" {
      return true;
    }
    hide SubmissionTaken;
    ok := tx.InsertSubmission(SubmissionOf(p, now));
  }

  /** `s'` holds the writes that follow the Task swap. */
  ghost predicate Written(s: StoreState, s': StoreState, p: Plan, c: Command, current: Task, next: Task, size: nat, now: Time) {
    var settled := SettledArtifact(p, current);
    && (settled.Some? ==> settled.value in s.artifacts)
    && s' == s.(
         messages := if p.message.Some?
                     then var m := MessageOf(p, next.messageCount, size, now); s.messages[m.Key() := m] else s.messages,
         artifacts := if settled.Some?
                      then s.artifacts[settled.value := SettledRow(p, s.artifacts[settled.value], now)] else s.artifacts,
         submissions := if p.submission != "" then s.submissions[p.task := SubmissionOf(p, now)] else s.submissions,
         events := s.events[p.task := LogAfter(s.events, EventOf(p, next, now))],
         commands := s.commands[KeyOf(c) := RecordOf(c, TaskAnswer(next), now)])
  }

  /** The writes that follow the Task swap: message, Artifact, Submission, event and
  command receipt. */
  method WriteTransition(tx: Unit, p: Plan, c: Command, current: Task, next: Task, size: nat, now: Time) returns (r: Option<Error>)
    requires SettledArtifact(p, current).Some? ==> SettledArtifact(p, current).value.workspace == p.task.workspace
    requires !(p.discard && p.artifact.Some?)
    requires p.message.Some? ==>
               var m := MessageOf(p, next.messageCount, size, now);
               MessageTaken(tx.state.messages, m) <==> m.Key() in tx.state.messages
    requires p.task in tx.state.events && next.eventCount !in tx.state.events[p.task]
    requires KeyOf(c) !in tx.state.commands
    modifies tx
    ensures r == LateRefusal(old(tx.state), p, current, now)
    ensures r.None? ==> Written(old(tx.state), tx.state, p, c, current, next, size, now)
  {
    hide MessageTaken, SubmissionTaken, KeyOf, SettledRow, SubmissionOf, MessageOf, LogAfter;
    r := WriteContent(tx, p, current, next.messageCount, size, now);
    if r.Some? {
      return r;
    }
    var ok := Record(tx, EventOf(p, next, now), RecordOf(c, TaskAnswer(next), now));
    if !ok {
      return Some(StoreConflict);
    }
    return None;
  }

  method WriteContent(tx: Unit, p: Plan, current: Task, sequence: nat, size: nat, now: Time) returns (r: Option<Error>)
    requires SettledArtifact(p, current).Some? ==> SettledArtifact(p, current).value.workspace == p.task.workspace
    requires !(p.discard && p.artifact.Some?)
    requires p.message.Some? ==>
               var m := MessageOf(p, sequence, size, now); MessageTaken(tx.state.messages, m) <==> m.Key() in tx.state.messages
    modifies tx
    ensures r == LateRefusal(old(tx.state), p, current, now)
    ensures r.None? ==>
              var s := old(tx.state);
              var settled := SettledArtifact(p, current);
              tx.state == s.(
                messages := if p.message.Some? then var m := MessageOf(p, sequence, size, now); s.messages[m.Key() := m] else s.messages,
                artifacts := if settled.Some?
                             then s.artifacts[settled.value := SettledRow(p, s.artifacts[settled.value], now)] else s.artifacts,
                submissions := if p.submission != "" then s.submissions[p.task := SubmissionOf(p, now)] else s.submissions)
  {
    hide MessageTaken, SubmissionTaken, SettledRow, SubmissionOf, MessageOf;
    var ok := AddMessage(tx, p, sequence, size, now);
    if !ok {
      return Some(MessageConflict);
    }
    r := SettleArtifact(tx, p, current, now);
    if r.Some? {
      return r;
    }
    ok := AddSubmission(tx, p, now);
    if !ok {
      return Some(SubmissionConflict);
    }
    return None;
  }

  /** Appends the event and the command receipt that close every Task transaction. */
  method Record(tx: Unit, e: Event, record: CommandRecord) returns (ok: bool)
    requires e.task in tx.state.events ==> e.sequence !in tx.state.events[e.task]
    requires CommandKey(record.authority, record.id) !in tx.state.commands
    modifies tx
    ensures ok
    ensures tx.state == old(tx.state).(
              events := old(tx.state).events[e.task := LogAfter(old(tx.state).events, e)],
              commands := old(tx.state).commands[CommandKey(record.authority, record.id) := record])
  {
    hide T.After;
    ok := tx.InsertEvent(e);
    if ok {
      ok := tx.InsertCommand(record);
    }
  }

  lemma {:induction false} TransitionAssembled(s: StoreState, mid: StoreState, s': StoreState, p: Plan, c: Command, env: Env)
    requires TransitionRefusal(s, p, env).None? && s.tasks[p.task].task.ref == p.task
    requires forall ref | ref in s.artifacts :: s.artifacts[ref].artifact.ref == ref
    requires var next := NextRecord(p, s.tasks[p.task], TransitionTime(s, p, env));
             && mid == s.(tasks := s.tasks[p.task := next])
             && Written(mid, s', p, c, s.tasks[p.task].task, next.task, env.sealedSize, TransitionTime(s, p, env))
    ensures RefinesPlan(s, p, c, env, Ok(TaskAnswer(NextRecord(p, s.tasks[p.task], TransitionTime(s, p, env)).task)), s')
  {
    hide LogAfter, KeyOf;
  }

  lemma {:induction false} TransitionRefused(s: StoreState, p: Plan, c: Command, env: Env, after: StoreState)
    requires TransitionRefusal(s, p, env).Some?
    ensures RefinesPlan(s, p, c, env, Err(TransitionRefusal(s, p, env).value), after)
  {}

  method RunTransition(tx: Unit, p: SoundPlan, c: Command, env: Env) returns (r: Result<Answer>)
    requires Inv(tx.state) && KeyOf(c) !in tx.state.commands
    requires p.grant.Some? ==> ValidGrant(p.grant.value) && p.grant.value.task == p.task
    requires p.message.Some? ==> SealFits(env.sealedSize, MAX_PAGE_BYTES)
    modifies tx
    ensures RefinesPlan(old(tx.state), p, c, env, r, tx.state)
  {
    hide T.After;
    hide TasksOk, PublicIdsUnique, LogsOk, MessagesOk, LinksOk, GrantsOk, ArtifactsOk, SubmissionsOk, HeadsOk, ReceiptsOk, EffectsOk, CommandsOk;
    hide ValidGrant, MessageTaken, SubmissionTaken, PlanOk, EarlyRefusal, KeyOf, ValidTaskRecord, LateRefusal, Written, SealFits, RefinesPlan;
    ghost var s := tx.state;
    var refused := CheckTransitionEntry(tx, p, env);
    if refused.Some? {
      TransitionRefused(s, p, c, env, tx.state);
      return Err(refused.value);
    }
    EntryFacts(s, p, env);
    var record := tx.state.tasks[p.task];
    var now := AtLeast(env.clock, record.task.updatedAt);
    TransitionSlots(s, p, env.sealedSize, now);
    var next := NextRecord(p, record, now);
    var lease := if p.grant.Some? then Some(LeaseState(p.grant.value.worker, p.grant.value.fence)) else None;
    var swapped := tx.CompareAndSwapTask(p.task, TaskCondition(p.meta.expectedRevision, lease), next);
    if swapped != Ok(true) {
      return Err(RevisionConflict);
    }
    ghost var mid := tx.state;
    SameLateRefusal(s, mid, p, record.task, now);
    var late := WriteTransition(tx, p, c, record.task, next.task, env.sealedSize, now);
    if late.Some? {
      TransitionRefused(s, p, c, env, tx.state);
      return Err(late.value);
    }
    TransitionAssembled(s, mid, tx.state, p, c, env);
    return Ok(TaskAnswer(next.task));
  }

  lemma {:induction false} SameLateRefusal(s: StoreState, s': StoreState, p: Plan, current: Task, now: Time)
    requires s' == s.(tasks := s'.tasks)
    ensures LateRefusal(s', p, current, now) == LateRefusal(s, p, current, now)
  {}

  method TransitionIn(tx: Unit, c: Command, env: Env) returns (r: Result<Answer>)
    requires Inv(tx.state) && IsTransition(c) && ValidCommand(c) && KeyOf(c) !in tx.state.commands
    requires PlanOf(c).message.Some? ==> SealFits(env.sealedSize, MAX_PAGE_BYTES)
    modifies tx
    ensures Refines(old(tx.state), c, env, r, tx.state)
  {
    hide Inv, ValidCommand, ValidGrant, KeyOf, TransitionRefusal, TransitionDelta, Apply, PlanOf, PlanOk;
    PlanOfValid(c);
    PlanGrant(c);
    r := RunTransition(tx, PlanOf(c), c, env);
  }

  lemma {:induction false} PlanGrant(c: Command)
    requires IsTransition(c) && ValidCommand(c)
    ensures PlanOf(c).grant.Some? ==> ValidGrant(PlanOf(c).grant.value) && PlanOf(c).grant.value.task == PlanOf(c).task
  {}

  lemma {:induction false} EntryFacts(s: StoreState, p: SoundPlan, env: Env)
    requires EarlyRefusal(s, p, env).None? && TasksOk(s.tasks)
    ensures p.task in s.tasks && s.tasks[p.task].task.ref == p.task
    ensures s.tasks[p.task].task.revision == p.meta.expectedRevision
    ensures p.grant.Some? ==> p.grant.value.task in s.tasks
                              && s.tasks[p.grant.value.task].lease == LeaseState(p.grant.value.worker, p.grant.value.fence)
    ensures p.submission != "" ==> s.tasks[p.task].task.artifact == p.artifact
    ensures p.artifact.Some? ==> p.artifact.value.workspace == p.task.workspace
    ensures !(p.discard && p.artifact.Some?)
  {
    TaskRowAt(s, p.task);
  }

  // ---- Freeze

  method CheckFreezeEntry(tx: Unit, c: Command, env: Env) returns (r: Option<Error>)
    requires c.FreezeArtifact? && ValidGrant(c.meta.grant) && c.meta.grant.task == c.task
    requires TasksOk(tx.state.tasks) && GrantsOk(tx.state.tasks, tx.state.grants)
    ensures r == FreezeEntryRefusal(tx.state, c, env)
  {
    var loaded := LoadTask(tx, c.task);
    if loaded.Err? {
      return Some(loaded.error);
    }
    var current := loaded.value.task;
    var lease := RequireArtifactLease(tx, loaded.value, c.meta.grant);
    if lease.Some? {
      return lease;
    }
    if current.revision != c.meta.expectedRevision {
      return Some(RevisionConflict);
    }
    if current.state.Terminal() {
      return Some(TerminalTask);
    }
    if current.state != TaskWorking {
      return Some(InvalidTransition);
    }
    if current.artifact.Some? || current.submission.Some? {
      return Some(ArtifactConflict);
    }
    if current.revision >= MAX_INT64 || current.eventCount >= MAX_INT64 {
      return Some(RevisionConflict);
    }
    if !ValidTime(env.clock) {
      return Some(InvalidArgument);
    }
    return None;
  }

  /** Claims the base: the first freeze of a Workspace fixes its head, later ones must
  name the confirmed head. */
  method ClaimBase(tx: Unit, w: WorkspaceRef, base: Revision, now: Time) returns (r: Option<Error>)
    requires HeadsOk(tx.state.heads) && ValidRevision(base) && ValidTime(now)
    modifies tx
    ensures r == if w in old(tx.state).heads && old(tx.state).heads[w].confirmedRevision != base
                 then Some(WorkspaceConflict) else None
    ensures tx.state == old(tx.state).(heads := if w in old(tx.state).heads then old(tx.state).heads
                                               else old(tx.state).heads[w := WorkspaceHead(w, base, now)])
  {
    hide T.After;
    var inserted := tx.InsertWorkspaceHead(WorkspaceHead(w, base, now));
    var head := LoadHead(tx, w);
    if head.Err? {
      return Some(CorruptStore);
    }
    if head.value.confirmedRevision != base {
      return Some(WorkspaceConflict);
    }
    return None;
  }

  lemma {:induction false} FreezeSlots(s: StoreState, c: Command, env: Env)
    requires Inv(s) && c.FreezeArtifact? && FreezeEntryRefusal(s, c, env).None?
    ensures c.task in s.tasks
    ensures var t := s.tasks[c.task].task;
            && t.ref == c.task && t.revision == t.eventCount && t.revision == c.meta.expectedRevision && t.revision >= 1
            && s.tasks[c.task].lease == LeaseState(c.meta.grant.worker, c.meta.grant.fence)
            && ValidTime(AtLeast(env.clock, t.updatedAt))
    ensures c.task in s.events && s.tasks[c.task].task.eventCount + 1 !in s.events[c.task]
    ensures forall ref | ref in s.artifacts :: s.artifacts[ref].artifact.ref == ref
  {
    hide LinksOk, GrantsOk, SubmissionsOk, HeadsOk, ReceiptsOk, EffectsOk, CommandsOk, LogsOk, MessagesOk, ArtifactsOk, PublicIdsUnique;
    assert TaskRowOk(c.task, s.tasks[c.task]);
    hide TasksOk;
    LogBelow(s.tasks, s.events, c.task);
    ArtifactKeys(s);
  }

  /** The Artifact, the Task that links to it, the event and the receipt. */
  method WriteFrozen(tx: Unit, c: Command, record: TaskRecord, size: nat, now: Time) returns (r: Option<Error>)
    requires c.FreezeArtifact? && c.task in tx.state.tasks && tx.state.tasks[c.task] == record && record.task.ref == c.task
    requires record.task.revision == c.meta.expectedRevision && record.task.revision >= 1
    requires record.lease == LeaseState(c.meta.grant.worker, c.meta.grant.fence)
    requires c.task in tx.state.events && record.task.eventCount + 1 !in tx.state.events[c.task]
    requires KeyOf(c) !in tx.state.commands
    requires forall ref | ref in tx.state.artifacts :: tx.state.artifacts[ref].artifact.ref == ref
    modifies tx
    ensures r == if ArtifactTaken(old(tx.state).artifacts, FrozenArtifact(c, now)) then Some(ArtifactConflict) else None
    ensures r.None? ==>
              var s, artifact, next := old(tx.state), FrozenArtifact(c, now), FrozenRecord(c, record, now);
              tx.state == s.(
                artifacts := s.artifacts[artifact.ref := ArtifactRecord(artifact, size)],
                tasks := s.tasks[c.task := next],
                events := s.events[c.task := LogAfter(s.events, FrozenEvent(c, record.task, now))],
                commands := s.commands[KeyOf(c) := RecordOf(c, FreezeAnswer(next.task, artifact), now)])
  {
    hide T.After;
    hide ArtifactTaken, LogAfter, KeyOf;
    var artifact := FrozenArtifact(c, now);
    var inserted := tx.InsertArtifact(ArtifactRecord(artifact, size));
    if !inserted {
      return Some(ArtifactConflict);
    }
    var next := FrozenRecord(c, record, now);
    var swapped := tx.CompareAndSwapTask(
      c.task, TaskCondition(c.meta.expectedRevision, Some(LeaseState(c.meta.grant.worker, c.meta.grant.fence))), next);
    if swapped != Ok(true) {
      return Some(RevisionConflict);
    }
    inserted := Record(tx, FrozenEvent(c, record.task, now), RecordOf(c, FreezeAnswer(next.task, artifact), now));
    if !inserted {
      return Some(StoreConflict);
    }
    return None;
  }

  method FreezeIn(tx: Unit, c: Command, env: Env) returns (r: Result<Answer>)
    requires Inv(tx.state) && c.FreezeArtifact? && KeyOf(c) !in tx.state.commands
    requires ValidGrant(c.meta.grant) && c.meta.grant.task == c.task && ValidRevision(c.expectedBase)
    requires |c.payload.data| <= env.maxArtifactBytes && SealFits(env.sealedSize, MAX_STORED_ARTIFACT_BYTES)
    modifies tx
    ensures Refines(old(tx.state), c, env, r, tx.state)
  {
    hide T.After;
    hide TasksOk, PublicIdsUnique, LogsOk, MessagesOk, LinksOk, GrantsOk, ArtifactsOk, SubmissionsOk, HeadsOk, ReceiptsOk, EffectsOk, CommandsOk;
    hide ValidGrant, ArtifactTaken, FreezeEntryRefusal, KeyOf, FrozenArtifact, Apply, FreezeDelta, SealFits, CreateRefusal;
    hide AcquireRefusal, ClaimRefusal, FenceRefusal, ReceiptRefusal, TransitionRefusal, CreateDelta, GrantDelta, FenceDelta;
    hide ReceiptDelta, TransitionDelta, PlanOf, LogAfter;
    ghost var s := tx.state;
    var refused := CheckFreezeEntry(tx, c, env);
    if refused.Some? {
      return Err(refused.value);
    }
    FreezeSlots(s, c, env);
    var record := tx.state.tasks[c.task];
    var now := AtLeast(env.clock, record.task.updatedAt);
    var conflict := ClaimBase(tx, c.task.workspace, c.expectedBase, now);
    if conflict.Some? {
      return Err(conflict.value);
    }
    var artifact := FrozenArtifact(c, now);
    conflict := WriteFrozen(tx, c, record, env.sealedSize, now);
    if conflict.Some? {
      return Err(conflict.value);
    }
    FreezeAssembled(s, tx.state, c, env);
    return Ok(FreezeAnswer(FrozenRecord(c, record, now).task, artifact));
  }

  lemma {:induction false} FreezeAssembled(s: StoreState, s': StoreState, c: Command, env: Env)
    requires c.FreezeArtifact? && c.task in s.tasks && s.tasks[c.task].task.ref == c.task
    requires FreezeWrites(s, s', c, env.sealedSize, AtLeast(env.clock, s.tasks[c.task].task.updatedAt))
    ensures var d := FreezeDelta(s, c, env);
            && s' == Apply(s, d)
            && d.command.answer == FreezeAnswer(FrozenRecord(c, s.tasks[c.task], AtLeast(env.clock, s.tasks[c.task].task.updatedAt)).task,
                                                FrozenArtifact(c, AtLeast(env.clock, s.tasks[c.task].task.updatedAt)))
  {
    hide LogAfter, KeyOf;
  }

  // ---- Leases

  lemma {:induction false} NewAssignmentValid(s: StoreState, ref: TaskRef, worker: Id, env: Env)
    requires Inv(s) && ref in s.tasks && ValidId(worker) && ValidTime(env.clock)
    requires !s.tasks[ref].task.state.Terminal() && s.tasks[ref].lease.fence < MAX_INT64
    ensures var grant := LeaseGrant(ref, worker, s.tasks[ref].lease.fence + 1);
            ValidAssignment(LeaseAssignment(grant, s.tasks[ref].task, GrantTime(s, s.tasks[ref], env)))
  {
    hide PublicIdsUnique, LogsOk, MessagesOk, LinksOk, GrantsOk, ArtifactsOk, SubmissionsOk, HeadsOk, ReceiptsOk, EffectsOk, CommandsOk;
    GrantMoment(s, ref, env);
    assert TaskRowOk(ref, s.tasks[ref]);
  }

  /** Inserts the next grant and moves the lease pointer to it. A claim checks the new
  assignment first. */
  method Grant(tx: Unit, c: Command, record: TaskRecord, worker: Id, env: Env) returns (r: Result<Answer>)
    requires Inv(tx.state) && KeyOf(c) !in tx.state.commands
    requires record.task.ref in tx.state.tasks && record == tx.state.tasks[record.task.ref]
    requires record.lease.fence < MAX_INT64 && ValidTime(env.clock)
    requires c.ClaimLease? ==> ValidId(worker) && !record.task.state.Terminal()
    modifies tx
    ensures var d := GrantDelta(old(tx.state), c, record, worker, env);
            r == Ok(d.command.answer) && tx.state == Apply(old(tx.state), d)
  {
    hide T.After;
    hide TasksOk, PublicIdsUnique, LogsOk, MessagesOk, LinksOk, GrantsOk, ArtifactsOk, SubmissionsOk, HeadsOk, ReceiptsOk, EffectsOk, CommandsOk;
    hide KeyOf, LastGrantedAt, ValidTaskRecord, ValidAssignment, ValidId;
    ghost var s := tx.state;
    var previous := CheckHistoryHead(tx, record);
    if previous.Err? {
      return Err(CorruptStore);
    }
    var now := AtLeast(AtLeast(env.clock, record.task.updatedAt), previous.value);
    var grant := LeaseGrant(record.task.ref, worker, record.lease.fence + 1);
    if c.ClaimLease? {
      NewAssignmentValid(s, record.task.ref, worker, env);
      if !ValidAssignment(LeaseAssignment(grant, record.task, now)) {
        return Err(CorruptStore);
      }
    }
    GrantSlot(s, record);
    var inserted := tx.InsertLeaseGrant(GrantRecord(grant, now));
    if !inserted {
      return Err(CorruptStore);
    }
    var next := record.(lease := LeaseState(worker, record.lease.fence + 1));
    var swapped := tx.CompareAndSwapTask(record.task.ref, TaskCondition(record.task.revision, Some(record.lease)), next);
    if swapped != Ok(true) {
      return Err(LeaseUnavailable);
    }
    var answer := AssignmentAnswer(LeaseAssignment(grant, record.task, now));
    inserted := tx.InsertCommand(RecordOf(c, answer, now));
    if !inserted {
      return Err(IdempotencyConflict);
    }
    return Ok(answer);
  }

  lemma {:induction false} GrantSlot(s: StoreState, record: TaskRecord)
    requires Inv(s) && record.task.ref in s.tasks && record == s.tasks[record.task.ref]
    ensures LeaseKey(record.task.ref, record.lease.fence + 1) !in s.grants && record.task.revision >= 1
  {
    hide TasksOk, PublicIdsUnique, LogsOk, MessagesOk, LinksOk, GrantsOk, ArtifactsOk, SubmissionsOk, HeadsOk, ReceiptsOk, EffectsOk, CommandsOk;
    TaskRowAt(s, record.task.ref);
    Fencing.GrantHistoryOf(s, record.task.ref);
  }

  method AcquireIn(tx: Unit, c: Command, env: Env) returns (r: Result<Answer>)
    requires Inv(tx.state) && c.AcquireLease? && KeyOf(c) !in tx.state.commands
    modifies tx
    ensures Refines(old(tx.state), c, env, r, tx.state)
  {
    hide TasksOk, PublicIdsUnique, LogsOk, MessagesOk, LinksOk, GrantsOk, ArtifactsOk, SubmissionsOk, HeadsOk, ReceiptsOk, EffectsOk, CommandsOk;
    hide KeyOf, ValidTaskRecord, GrantDelta, Apply;
    var loaded := LoadTask(tx, c.task);
    if loaded.Err? {
      return Err(loaded.error);
    }
    var record := loaded.value;
    if record.task.state.Terminal() {
      return Err(TerminalTask);
    }
    if record.lease.owner != "" {
      return Err(LeaseUnavailable);
    }
    if record.lease.fence >= MAX_INT64 {
      return Err(LeaseFenceExhausted);
    }
    if !ValidTime(env.clock) {
      return Err(InvalidArgument);
    }
    r := Grant(tx, c, record, c.worker, env);
  }

  lemma {:induction false} TheClaimedTask(s: StoreState, authority: Id, ref: TaskRef)
    requires OldestClaimable(s.tasks, authority, ref)
    ensures ClaimedTask(s, authority) == Some(ref)
  {
    var other :| OldestClaimable(s.tasks, authority, other) && ClaimedTask(s, authority) == Some(other);
    OldestClaimableUnique(s.tasks, authority, ref, other);
  }

  method ClaimIn(tx: Unit, c: Command, env: Env) returns (r: Result<Answer>)
    requires Inv(tx.state) && c.ClaimLease? && ValidId(c.worker) && KeyOf(c) !in tx.state.commands
    modifies tx
    ensures Refines(old(tx.state), c, env, r, tx.state)
  {
    hide TasksOk, PublicIdsUnique, LogsOk, MessagesOk, LinksOk, GrantsOk, ArtifactsOk, SubmissionsOk, HeadsOk, ReceiptsOk, EffectsOk, CommandsOk;
    hide KeyOf, ValidTaskRecord, GrantDelta, Apply, OldestClaimable, ClaimedTask;
    TaskKeys(tx.state);
    var found := tx.FindClaimableTask(c.authority);
    if found.None? {
      NothingClaimed(tx.state, c.authority);
      return Err(LeaseNotFound);
    }
    var record := found.value;
    TheClaimedTask(tx.state, c.authority, record.task.ref);
    ClaimableFacts(tx.state, c.authority, record.task.ref);
    if !ValidTaskRecord(record) || record.task.ref.workspace.authority != c.authority
       || record.task.state.Terminal() || record.lease.owner != "" {
      return Err(CorruptStore);
    }
    if record.lease.fence >= MAX_INT64 {
      return Err(LeaseFenceExhausted);
    }
    if !ValidTime(env.clock) {
      return Err(InvalidArgument);
    }
    r := Grant(tx, c, record, c.worker, env);
  }

  lemma {:induction false} NothingClaimed(s: StoreState, authority: Id)
    requires !exists ref :: Claimable(s.tasks, authority, ref)
    ensures ClaimedTask(s, authority).None?
  {}

  lemma {:induction false} ClaimableFacts(s: StoreState, authority: Id, ref: TaskRef)
    requires TasksOk(s.tasks) && OldestClaimable(s.tasks, authority, ref)
    ensures ref in s.tasks && ref.workspace.authority == authority && !s.tasks[ref].task.state.Terminal()
    ensures s.tasks[ref].lease.owner == "" && ValidTaskRecord(s.tasks[ref])
  {
    TaskRowAt(s, ref);
  }

  method FenceIn(tx: Unit, c: Command, env: Env) returns (r: Result<Answer>)
    requires Inv(tx.state) && c.FenceLease? && ValidGrant(c.grant) && KeyOf(c) !in tx.state.commands
    modifies tx
    ensures Refines(old(tx.state), c, env, r, tx.state)
  {
    hide T.After;
    hide TasksOk, PublicIdsUnique, LogsOk, MessagesOk, LinksOk, GrantsOk, ArtifactsOk, SubmissionsOk, HeadsOk, ReceiptsOk, EffectsOk, CommandsOk;
    hide KeyOf, ValidGrant;
    var loaded := LoadTask(tx, c.grant.task);
    if loaded.Err? {
      return Err(loaded.error);
    }
    var lease := RequireCurrentLease(tx, c.grant);
    if lease.Some? {
      return Err(lease.value);
    }
    var record := loaded.value;
    var swapped := tx.CompareAndSwapTask(c.grant.task, TaskCondition(record.task.revision, Some(record.lease)),
                                         record.(lease := LeaseState("", c.grant.fence)));
    if swapped != Ok(true) {
      return Err(StaleLease);
    }
    if !ValidTime(env.clock) {
      return Err(InvalidArgument);
    }
    var recorded := tx.InsertCommand(RecordOf(c, GrantAnswer(c.grant), env.clock));
    if !recorded {
      return Err(IdempotencyConflict);
    }
    return Ok(GrantAnswer(c.grant));
  }

  // ---- Apply receipts

  /** Advances the head under a successful receipt and stores the receipt. */
  method WriteReceipt(tx: Unit, artifact: Artifact, receipt: ApplyReceipt) returns (r: Option<Error>)
    modifies tx
    ensures var s := old(tx.state);
            var w := artifact.ref.workspace;
            r == if receipt.decision == ApplySuccess && (w !in s.heads || s.heads[w].confirmedRevision != artifact.baseRevision)
                 then Some(WorkspaceConflict)
                 else if ReceiptTaken(s.receipts, receipt) then Some(ReceiptConflict)
                 else None
    ensures r.None? ==>
              var s := old(tx.state);
              var w := artifact.ref.workspace;
              tx.state == s.(
                heads := if receipt.decision == ApplySuccess
                         then s.heads[w := WorkspaceHead(w, artifact.resultRevision, receipt.recordedAt)] else s.heads,
                receipts := s.receipts[receipt.artifact := receipt])
  {
    hide T.After;
    hide ReceiptTaken;
    if receipt.decision == ApplySuccess {
      var swapped := tx.CompareAndSwapWorkspaceHead(
        artifact.baseRevision, WorkspaceHead(artifact.ref.workspace, artifact.resultRevision, receipt.recordedAt));
      if !swapped {
        return Some(WorkspaceConflict);
      }
    }
    var inserted := tx.InsertApplyReceipt(receipt);
    if !inserted {
      return Some(ReceiptConflict);
    }
    return None;
  }

  method CheckReceiptEntry(tx: Unit, c: Command, env: Env) returns (r: Result<Option<ApplyReceipt>>)
    requires c.RecordApplyReceipt? && ArtifactsOk(tx.state.tasks, tx.state.artifacts, tx.state.heads)
    requires ReceiptsOk(tx.state.artifacts, tx.state.receipts, tx.state.heads)
    ensures r == if ReceiptEntryRefusal(tx.state, c, env).Some? then Err(ReceiptEntryRefusal(tx.state, c, env).value)
                 else Ok(if c.artifactRef in tx.state.receipts then Some(tx.state.receipts[c.artifactRef]) else None)
    ensures r.Ok? ==> c.artifactRef in tx.state.artifacts && tx.state.artifacts[c.artifactRef].artifact.publishedAt.Some?
  {
    hide ArtifactsOk, ReceiptsOk;
    var loaded := LoadArtifact(tx, c.artifactRef);
    if loaded.Err? {
      return Err(loaded.error);
    }
    var artifact := loaded.value.artifact;
    if artifact.state != ArtifactPublished {
      return Err(ArtifactStateError);
    }
    if c.artifactDigest != artifact.digest || c.baseRevision != artifact.baseRevision
       || c.resultRevision != artifact.resultRevision {
      return Err(ReceiptConflict);
    }
    r := LoadVerifiedReceipt(tx, c.artifactRef);
    if r.Ok? && !ValidTime(env.clock) {
      return Err(InvalidArgument);
    }
  }

  method ReceiptIn(tx: Unit, c: Command, env: Env) returns (r: Result<Answer>)
    requires Inv(tx.state) && c.RecordApplyReceipt? && KeyOf(c) !in tx.state.commands
    modifies tx
    ensures Refines(old(tx.state), c, env, r, tx.state)
  {
    hide T.After;
    hide TasksOk, PublicIdsUnique, LogsOk, MessagesOk, LinksOk, GrantsOk, ArtifactsOk, SubmissionsOk, HeadsOk, ReceiptsOk, EffectsOk, CommandsOk;
    hide KeyOf, ReceiptTaken, SameReceiptDecision, ReceiptEntryRefusal, CreateRefusal, FreezeRefusal, AcquireRefusal;
    hide ClaimRefusal, FenceRefusal, TransitionRefusal, CreateDelta, FreezeDelta, GrantDelta, FenceDelta, TransitionDelta, PlanOf;
    ghost var s := tx.state;
    var existing := CheckReceiptEntry(tx, c, env);
    if existing.Err? {
      return Err(existing.error);
    }
    var artifact := tx.state.artifacts[c.artifactRef].artifact;
    var now := AtLeast(AtLeast(env.clock, artifact.frozenAt), artifact.publishedAt.value);
    var receipt := ReceiptOf(c, now);
    if existing.value.Some? {
      if !SameReceiptDecision(existing.value.value, receipt) {
        return Err(ReceiptConflict);
      }
      receipt := existing.value.value;
    } else {
      var refused := WriteReceipt(tx, artifact, receipt);
      if refused.Some? {
        return Err(refused.value);
      }
    }
    var recorded := tx.InsertCommand(RecordOf(c, ReceiptAnswer(receipt), now));
    if !recorded {
      return Err(IdempotencyConflict);
    }
    return Ok(ReceiptAnswer(receipt));
  }
}
