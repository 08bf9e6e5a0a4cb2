/** What the two receipts mean to the worker who gets them: what an acknowledged event
has done to the store, and what is wrong with a rejected one. Both are read off the
event's own kind and fields. */
module Outcomes {
  import opened Types
  import opened Validators
  import opened Store
  import opened Commands
  import opened Invariant
  import opened Runs
  import opened Ambiguity
  import opened Transport
  import opened Endpoint
  import C = Contents
  import F = Fencing
  import V = Verdicts

  // ---- Acknowledged

  /** The Task's event after the expected revision. */
  predicate Recorded(s: StoreState, e: WorkerEvent, kind: EventType, state: TaskState, message: Id, submission: Id, artifact: Id) {
    var n := e.expectedRevision + 1;
    && e.task in s.events && n in s.events[e.task]
    && EventIs(s.events[e.task][n], e.task, n, kind, state, message, submission, artifact)
  }

  /** The agent's message of the event is in the Task's history, word for word. */
  ghost predicate Said(s: StoreState, e: WorkerEvent) {
    e.message.Some? && exists n :: C.MessageStored(s, e.task, e.message.value, n, AuthorAgent)
  }

  predicate Published(s: StoreState, e: WorkerEvent) {
    && e.message.Some? && e.task in s.submissions
    && s.submissions[e.task] ==
       Submission(e.submission, e.task, e.message.value.id, e.artifact, s.submissions[e.task].publishedAt)
    && (e.artifact.Some? ==> e.artifact.value in s.artifacts && s.artifacts[e.artifact.value].artifact.state == ArtifactPublished)
  }

  predicate FrozenFor(s: StoreState, e: WorkerEvent, f: Freeze) {
    var ref := ArtifactRef(e.task.workspace, f.artifact);
    && ref in s.artifacts
    && C.FrozenAs(s.artifacts[ref].artifact, e.task, f.artifact, f.expectedBase, f.payload, s.artifacts[ref].artifact.frozenAt)
  }

  /** The event has taken its effect, under the worker's own lease. */
  ghost predicate TookEffect(s: StoreState, e: WorkerEvent, worker: Id) {
    && GrantRecorded(s.grants, LeaseGrant(e.task, worker, e.fence))
    && match e.kind
       case KindAccept => Recorded(s, e, EventTaskAccepted, TaskWorking, "", "", "")
       case KindReject => Recorded(s, e, EventTaskRejected, TaskRejected, "", "", "")
       case KindFail => Recorded(s, e, EventTaskFailed, TaskFailed, "", "", "")
       case KindRequestInput =>
         e.message.Some? && Recorded(s, e, EventInputRequired, TaskInputRequired, e.message.value.id, "", "") && Said(s, e)
       case KindComplete =>
         && e.message.Some?
         && Recorded(s, e, EventTaskCompleted, TaskCompleted, e.message.value.id, e.submission,
                     if e.artifact.Some? then e.artifact.value.id else "")
         && Said(s, e) && Published(s, e)
       case KindFreeze =>
         && e.freeze.Some?
         && Recorded(s, e, EventArtifactFrozen, TaskWorking, "", "", e.freeze.value.artifact)
         && FrozenFor(s, e, e.freeze.value)
       case KindOther(_) => false
  }

  /** The event of the log was produced by the command under the event's own identifier
  and by no other. */
  ghost predicate Once(s: StoreState, e: WorkerEvent) {
    forall k :: k in s.commands && Produced(s.commands[k], e.task, e.expectedRevision + 1)
                <==> k == CommandKey(e.task.workspace.authority, e.id)
  }

  lemma {:induction false} ContentTookEffect(s: StoreState, e: WorkerEvent, worker: Id, r: CommandRecord)
    requires ValidEvent(e) && r.intent == CommandOf(e, worker) && C.ContentOk(s, r)
    requires GrantRecorded(s.grants, LeaseGrant(e.task, worker, e.fence))
    ensures TookEffect(s, e, worker)
  {
    hide ValidMessageInput, ValidPayload, ValidId, ValidTaskRef, ValidArtifactRef, C.MessageStored;
  }

  lemma {:induction false} RecordFacts(s: StoreState, c: Command)
    requires Inv(s) && Committed(s, c) && Advances(c)
    ensures var r := s.commands[KeyOf(c)];
            && AnswerOk(s, c, r.answer) && AnswersTask(r.answer)
            && var t := r.answer.result;
               t.ref in s.events && t.revision in s.events[t.ref] && EventMatches(c, s.events[t.ref][t.revision])
  {
    hide TasksOk, PublicIdsUnique, LogsOk, MessagesOk, LinksOk, GrantsOk, ArtifactsOk, SubmissionsOk, HeadsOk, ReceiptsOk;
    hide ValidCommand, EventMatches, AnswerOk, KeyOf;
    assert CommandRowOk(s, KeyOf(c), s.commands[KeyOf(c)]);
    assert EffectRowOk(s.events, s.commands[KeyOf(c)]);
  }

  lemma {:induction false} EventCommand(e: WorkerEvent, worker: Id)
    requires ValidEvent(e)
    ensures var c := CommandOf(e, worker);
            && Advances(c) && KeyOf(c) == CommandKey(e.task.workspace.authority, e.id)
            && (ValidCommand(c) ==> ValidId(worker))
  {
    hide ValidMessageInput, ValidPayload, ValidId, ValidTaskRef, ValidArtifactRef;
  }

  lemma {:induction false} AnswerCarries(s: StoreState, e: WorkerEvent, worker: Id, a: Answer)
    requires ValidEvent(e) && AnswerOk(s, CommandOf(e, worker), a)
    ensures GrantRecorded(s.grants, LeaseGrant(e.task, worker, e.fence))
  {
    hide ValidMessageInput, ValidPayload, ValidId, ValidTaskRef, ValidArtifactRef, ValidStoredTask, GrantRecorded;
  }

  lemma {:induction false} EffectRevision(e: WorkerEvent, worker: Id, x: Event)
    requires ValidEvent(e) && EventMatches(CommandOf(e, worker), x)
    ensures x.task == e.task && x.revision == e.expectedRevision + 1 == x.sequence
  {
    hide ValidMessageInput, ValidPayload, ValidId, ValidTaskRef, ValidArtifactRef;
  }

  lemma {:induction false} LoggedUnderItsNumber(s: StoreState, ref: TaskRef, n: nat)
    requires LogsOk(s.tasks, s.events) && ref in s.events && n in s.events[ref]
    ensures s.events[ref][n].task == ref && s.events[ref][n].sequence == n
  {
    assert LogOk(ref, s.events[ref], s.tasks[ref].task);
    assert LogRowOk(ref, s.events[ref], n);
  }

  lemma {:induction false} ProducedOnce(s: StoreState, e: WorkerEvent, worker: Id)
    requires ValidEvent(e) && Inv(s) && Committed(s, CommandOf(e, worker))
    ensures Once(s, e)
  {
    hide TasksOk, PublicIdsUnique, LogsOk, MessagesOk, LinksOk, GrantsOk, ArtifactsOk, SubmissionsOk, HeadsOk, ReceiptsOk, CommandsOk;
    hide CommandOf, ValidEvent, EventMatches, KeyOf, ValidCommand, AnswerOk;
    EventCommand(e, worker);
    RecordFacts(s, CommandOf(e, worker));
    var r := s.commands[KeyOf(CommandOf(e, worker))];
    var t := r.answer.result;
    EffectRevision(e, worker, s.events[t.ref][t.revision]);
    LoggedUnderItsNumber(s, t.ref, t.revision);
    assert Produced(r, e.task, e.expectedRevision + 1);
  }

  /** In a reachable store a committed worker event has taken its effect once. */
  lemma {:induction false} CommittedTookEffect(s: StoreState, e: WorkerEvent, worker: Id)
    requires ValidEvent(e) && Reachable(s) && Committed(s, CommandOf(e, worker))
    ensures TookEffect(s, e, worker) && Once(s, e)
  {
    hide Inv, Reachable, ValidEvent, CommandOf, KeyOf, C.ContentOk, TookEffect, Once, GrantRecorded, AnswerOk, ValidCommand, EventMatches;
    ReachableInv(s);
    var key := KeyOf(CommandOf(e, worker));
    C.CommittedContentIsStored(s, key);
    EventCommand(e, worker);
    RecordFacts(s, CommandOf(e, worker));
    AnswerCarries(s, e, worker, s.commands[key].answer);
    ProducedOnce(s, e, worker);
    ContentTookEffect(s, e, worker, s.commands[key]);
  }

  // ---- Rejected

  function StatesFor(kind: EventKind): set<TaskState> {
    match kind
    case KindAccept => {TaskSubmitted}
    case KindReject => {TaskSubmitted}
    case KindFail => {TaskWorking, TaskInputRequired}
    case KindOther(_) => {}
    case _ => {TaskWorking}
  }

  /** The content of the event can be sealed within the limits. */
  predicate Seals(e: WorkerEvent, env: Env) {
    && (e.message.Some? ==> SealFits(env.sealedSize, MAX_PAGE_BYTES))
    && (e.freeze.Some? ==>
          |e.freeze.value.payload.data| <= env.maxArtifactBytes && SealFits(env.sealedSize, MAX_STORED_ARTIFACT_BYTES))
  }

  /** The Artifact the event freezes, or publishes, does not fit the Task or the Workspace. */
  ghost predicate ArtifactClash(s: StoreState, e: WorkerEvent)
    requires e.task in s.tasks
  {
    var t := s.tasks[e.task].task;
    || (e.kind == KindComplete && t.artifact != e.artifact)
    || (e.kind == KindFreeze && e.freeze.Some?
        && (t.artifact.Some? || V.ArtifactIdUsed(s, e.task.workspace.authority, e.freeze.value.artifact)
            || !V.BaseIsFree(s, e.task.workspace, e.freeze.value.expectedBase)))
  }

  /** What each rejection code says about the event and the store it met. */
  ghost predicate Justifies(s: StoreState, d: Delivery, p: Principal, env: Env, code: Code) {
    var e := d.event;
    var holds := F.Current(s, LeaseGrant(e.task, p.worker, e.fence));
    match code
    case RejectInvalid => !ValidDelivery(d) || !ValidId(p.worker) || !ValidTime(env.clock) || !Seals(e, env)
    case RejectForbidden => e.task.workspace.authority != p.authority
    case RejectNotFound => e.task !in s.tasks
    case RejectStaleLease => e.task in s.tasks && !holds
    case RejectRevision =>
      && e.task in s.tasks && holds
      && (s.tasks[e.task].task.revision != e.expectedRevision || s.tasks[e.task].task.revision == MAX_INT64)
    case RejectState =>
      && e.task in s.tasks && holds
      && (s.tasks[e.task].task.state !in StatesFor(e.kind) || ArtifactClash(s, e))
    case RejectCommandConflict =>
      || CommandKey(e.task.workspace.authority, e.id) in s.commands
      || (e.message.Some? && V.MessageIdUsed(s, (e.task.workspace.authority, e.message.value.id)))
      || (e.kind == KindComplete && V.SubmissionIdUsed(s, e.task.workspace.authority, e.submission))
    case NoCode => false
  }

  /** What the command of an event names is what the event names. */
  lemma {:induction false} EventNames(e: WorkerEvent, worker: Id)
    requires ValidEvent(e)
    ensures var c := CommandOf(e, worker);
            && V.Changes(c) && c.task == e.task && V.NamedTask(c) == Some(e.task)
            && V.NamedGrant(c) == Some(LeaseGrant(e.task, worker, e.fence)) && V.NamedRevision(c) == e.expectedRevision
            && V.AcceptedIn(c) == StatesFor(e.kind)
            && (V.NamedMessage(c).Some? <==> e.message.Some?)
            && (e.message.Some? ==> V.NamedMessage(c) == Some((e.task.workspace.authority, e.message.value.id)))
            && (c.CompleteTask? <==> e.kind == KindComplete) && (c.FreezeArtifact? <==> e.kind == KindFreeze)
            && (c.CompleteTask? ==> c.submission == e.submission && c.artifact == e.artifact)
            && (c.FreezeArtifact? <==> e.freeze.Some?)
            && (c.FreezeArtifact? ==> c.artifactId == e.freeze.value.artifact && c.expectedBase == e.freeze.value.expectedBase
                                      && c.payload == e.freeze.value.payload)
            && !c.CreateTask? && !c.AcquireLease? && !c.ClaimLease? && !c.RecordApplyReceipt?
  {
    hide ValidMessageInput, ValidPayload, ValidId, ValidTaskRef, ValidArtifactRef;
  }

  lemma {:induction false} ErrorJustifies(s: StoreState, d: Delivery, p: Principal, env: Env, error: Error)
    requires ValidEvent(d.event) && V.Explains(s, CommandOf(d.event, p.worker), env, error) && RejectionCode(error).Some?
    ensures Justifies(s, d, p, env, RejectionCode(error).value)
  {
    hide CommandOf, ValidEvent, F.Current, SealFits, ValidTime, V.NamedMessage, V.NamedGrant, V.NamedTask, V.NamedRevision, V.AcceptedIn;
    hide V.ArtifactIdUsed, V.SubmissionIdUsed, V.MessageIdUsed, V.LongestWaiting, V.Waiting, StatesFor, V.BaseIsFree;
    EventNames(d.event, p.worker);
    NoOtherStates(d.event, p.worker);
  }

  lemma {:induction false} NoOtherStates(e: WorkerEvent, worker: Id)
    requires ValidEvent(e)
    ensures forall state | state in StatesFor(e.kind) :: !state.Terminal()
  {}

  lemma {:induction false} RefusedEvent(s: StoreState, d: Delivery, p: Principal, env: Env)
    requires Reachable(s) && ValidDelivery(d) && Execute(s, CommandOf(d.event, p.worker), env).answer.Err?
    requires RejectionCode(Execute(s, CommandOf(d.event, p.worker), env).answer.error).Some?
    ensures Justifies(s, d, p, env, RejectionCode(Execute(s, CommandOf(d.event, p.worker), env).answer.error).value)
  {
    hide Reachable, ValidEvent, CommandOf, Refusal, Decide, Apply, V.Explains, F.Current, Seals, ArtifactClash, ValidCommand, ValidId;
    hide V.MessageIdUsed, V.SubmissionIdUsed, KeyOf;
    var c := CommandOf(d.event, p.worker);
    EventCommand(d.event, p.worker);
    if ValidId(p.worker) {
      EventCommandValid(d.event, p.worker);
      if KeyOf(c) !in s.commands {
        V.RefusalTellsTheTruth(s, c, env);
        ErrorJustifies(s, d, p, env, Execute(s, c, env).answer.error);
      }
    }
  }

  /** Rejections are truthful: the code a delivery is refused with names something that
  is wrong with it in the store it met. */
  lemma {:induction false} RejectionIsJustified(s: StoreState, cache: Cache, p: Principal, d: Delivery, env: Env, fault: Fault)
    requires Reachable(s) && d.id !in cache.receipts
    ensures var r := CommitSpec(s, cache, d, p, env, fault).reply;
            r.Ok? && r.value.decision.Nack? ==> Justifies(s, d, p, env, r.value.code)
  {
    hide Reachable, ValidEvent, CommandOf, Execute, Remember, NackText, F.Current, Seals, ArtifactClash, V.MessageIdUsed, V.SubmissionIdUsed;
    hide RejectionCode, ValidId;
    if ValidDelivery(d) && d.event.task.workspace.authority == p.authority {
      NoLostCode();
      var o := Execute(s, CommandOf(d.event, p.worker), env);
      if o.answer.Err? && RejectionCode(o.answer.error).Some? {
        RefusedEvent(s, d, p, env);
      }
    }
  }

  lemma {:induction false} NoLostCode()
    ensures RejectionCode(StoreCommitUnknown).None?
  {}

  /** An acknowledgement given by a commit means that the event took effect. */
  lemma {:induction false} AcknowledgedTookEffect(s: StoreState, cache: Cache, p: Principal, d: Delivery, env: Env, fault: Fault)
    requires Reachable(s) && d.id !in cache.receipts
    ensures var o := CommitSpec(s, cache, d, p, env, fault);
            o.reply.Ok? && o.reply.value.decision.Ack? ==> TookEffect(o.store, d.event, p.worker) && Once(o.store, d.event)
  {
    hide Reachable, ValidEvent, CommandOf, Remember, NackText, TookEffect, Once, Try, KeyOf, RejectionCode, ValidId;
    if ValidDelivery(d) && d.event.task.workspace.authority == p.authority {
      var a := Attempt(Action(CommandOf(d.event, p.worker), env), fault);
      if Try(s, a).answer.Ok? {
        TryReachable(s, a);
        SuccessIsRecorded(s, a);
        CommittedTookEffect(Try(s, a).state, d.event, p.worker);
      }
    }
  }
}
