/** When a command commits and what each refusal means, in terms of the records a
caller can look at. */
module Verdicts {
  import opened Types
  import opened Validators
  import opened Store
  import opened Commands
  import opened Invariant
  import opened Steps
  import opened Runs
  import F = Fencing
  import C = Contents

  // ---- What a command names

  /** Commands that move a Task on from the revision they expect. */
  predicate Changes(c: Command) {
    && !c.CreateTask? && !c.AcquireLease? && !c.ClaimLease? && !c.FenceLease? && !c.RecordApplyReceipt?
  }

  function NamedTask(c: Command): Option<TaskRef> {
    match c
    case CreateTask(_, _, _, _) => None
    case ClaimLease(_, _, _) => None
    case RecordApplyReceipt(_, _, _, _, _, _, _, _, _, _) => None
    case FenceLease(_, g) => Some(g.task)
    case _ => Some(c.task)
  }

  function NamedRevision(c: Command): nat
    requires Changes(c)
  {
    if c.ReplyTask? || c.CancelTask? then c.caller.expectedRevision else c.meta.expectedRevision
  }

  function NamedGrant(c: Command): Option<LeaseGrant> {
    match c
    case AcceptTask(m, _) => Some(m.grant)
    case RejectTask(m, _) => Some(m.grant)
    case FailTask(m, _) => Some(m.grant)
    case RequestInput(m, _, _) => Some(m.grant)
    case CompleteTask(m, _, _, _, _) => Some(m.grant)
    case FreezeArtifact(m, _, _, _, _) => Some(m.grant)
    case FenceLease(_, g) => Some(g)
    case _ => None
  }

  function NamedMessage(c: Command): Option<(Id, Id)> {
    match c
    case CreateTask(_, t, _, m) => Some((t.workspace.authority, m.id))
    case RequestInput(_, t, m) => Some((t.workspace.authority, m.id))
    case ReplyTask(_, t, m) => Some((t.workspace.authority, m.id))
    case CompleteTask(_, t, _, m, _) => Some((t.workspace.authority, m.id))
    case _ => None
  }

  /** The authority whose records the command is about. */
  function NamedAuthority(c: Command): Id {
    match c
    case CreateTask(_, t, _, _) => t.workspace.authority
    case ClaimLease(_, authority, _) => authority
    case RecordApplyReceipt(_, _, a, _, _, _, _, _, _, _) => a.workspace.authority
    case _ => NamedTask(c).value.workspace.authority
  }

  function NamedId(c: Command): Id {
    match c
    case CreateTask(m, _, _, _) => m.id
    case ReplyTask(m, _, _) => m.id
    case CancelTask(m, _) => m.id
    case AcquireLease(id, _, _) => id
    case ClaimLease(id, _, _) => id
    case FenceLease(id, _) => id
    case RecordApplyReceipt(id, _, _, _, _, _, _, _, _, _) => id
    case _ => c.meta.id
  }

  lemma {:induction false} KeyIsNamed(c: Command)
    ensures KeyOf(c) == CommandKey(NamedAuthority(c), NamedId(c))
  {}

  /** The states of the lifecycle in which each change is possible. */
  function AcceptedIn(c: Command): set<TaskState>
    requires Changes(c)
  {
    match c
    case AcceptTask(_, _) => {TaskSubmitted}
    case RejectTask(_, _) => {TaskSubmitted}
    case RequestInput(_, _, _) => {TaskWorking}
    case ReplyTask(_, _, _) => {TaskInputRequired}
    case CancelTask(_, _) => {TaskSubmitted, TaskWorking, TaskInputRequired}
    case FailTask(_, _) => {TaskWorking, TaskInputRequired}
    case CompleteTask(_, _, _, _, _) => {TaskWorking}
    case FreezeArtifact(_, _, _, _, _) => {TaskWorking}
  }

  // ---- What is already used

  ghost predicate TaskIdUsed(s: StoreState, authority: Id, id: Id) {
    exists t :: t in s.tasks && t.workspace.authority == authority && t.id == id
  }

  predicate MessageIdUsed(s: StoreState, m: (Id, Id)) {
    MessageKey(m.0, m.1) in s.messages
  }

  ghost predicate SubmissionIdUsed(s: StoreState, authority: Id, id: Id) {
    exists t :: t in s.submissions && t.workspace.authority == authority && s.submissions[t].id == id
  }

  ghost predicate ArtifactIdUsed(s: StoreState, authority: Id, id: Id) {
    exists a :: a in s.artifacts && a.workspace.authority == authority && a.id == id
  }

  ghost predicate ReceiptIdUsed(s: StoreState, authority: Id, id: Id) {
    exists a :: a in s.receipts && a.workspace.authority == authority && s.receipts[a].id == id
  }

  // ---- Waiting Tasks

  predicate Waiting(s: StoreState, authority: Id, ref: TaskRef) {
    && ref in s.tasks && ref.workspace.authority == authority
    && s.tasks[ref].lease.owner == "" && !s.tasks[ref].task.state.Terminal()
  }

  ghost predicate LongestWaiting(s: StoreState, authority: Id, ref: TaskRef) {
    && Waiting(s, authority, ref)
    && forall other | Waiting(s, authority, other) && other != ref :: Precedes(s.tasks[ref].task, s.tasks[other].task)
  }

  lemma {:induction false} WaitingIsClaimable(s: StoreState, authority: Id, ref: TaskRef)
    requires TasksOk(s.tasks)
    ensures Waiting(s, authority, ref) <==> Claimable(s.tasks, authority, ref)
    ensures LongestWaiting(s, authority, ref) <==> OldestClaimable(s.tasks, authority, ref)
  {
    hide Precedes, CreatedLess, ValidTaskRecord;
    forall r: TaskRef ensures Waiting(s, authority, r) <==> Claimable(s.tasks, authority, r) {
      if r in s.tasks {
        assert TaskRowOk(r, s.tasks[r]);
      }
    }
    if ref in s.tasks {
      forall other | other in s.tasks
        ensures CreatedLess(s.tasks[ref].task, s.tasks[other].task) <==> Precedes(s.tasks[ref].task, s.tasks[other].task)
      {
        CreatedLessMeans(s.tasks[ref].task, s.tasks[other].task);
      }
    }
  }

  /** The claim looks at the Task that has waited longest, and finds none only when
  none waits. */
  lemma {:induction false} ClaimedTaskWaits(s: StoreState, authority: Id)
    requires TasksOk(s.tasks)
    ensures var r := ClaimedTask(s, authority);
            && (r.Some? ==> LongestWaiting(s, authority, r.value))
            && (r.None? <==> !exists ref :: Waiting(s, authority, ref))
            && (forall ref | LongestWaiting(s, authority, ref) :: r == Some(ref))
  {
    hide TasksOk, Waiting, LongestWaiting, Claimable, OldestClaimable;
    forall ref: TaskRef
      ensures Waiting(s, authority, ref) <==> Claimable(s.tasks, authority, ref)
      ensures LongestWaiting(s, authority, ref) <==> OldestClaimable(s.tasks, authority, ref)
    {
      WaitingIsClaimable(s, authority, ref);
    }
    SomeOldest(s.tasks, authority);
    forall a, b | OldestClaimable(s.tasks, authority, a) && OldestClaimable(s.tasks, authority, b) ensures a == b {
      OldestClaimableUnique(s.tasks, authority, a, b);
    }
  }

  // ---- When a command commits

  predicate Sealable(c: Command, env: Env) {
    && (NamedMessage(c).Some? ==> SealFits(env.sealedSize, MAX_PAGE_BYTES))
    && (c.FreezeArtifact? ==> |c.payload.data| <= env.maxArtifactBytes && SealFits(env.sealedSize, MAX_STORED_ARTIFACT_BYTES))
  }

  predicate Held(s: StoreState, c: Command) {
    NamedGrant(c).Some? ==> F.Current(s, NamedGrant(c).value)
  }

  /** The Task is at the expected revision, in a state that accepts the change, and the
  worker who asks holds it. */
  predicate Ready(s: StoreState, c: Command)
    requires Changes(c)
  {
    && c.task in s.tasks && Held(s, c)
    && s.tasks[c.task].task.revision == NamedRevision(c) < MAX_INT64
    && s.tasks[c.task].task.state in AcceptedIn(c)
  }

  predicate BaseIsFree(s: StoreState, w: WorkspaceRef, base: Revision) {
    w in s.heads ==> s.heads[w].confirmedRevision == base
  }

  predicate SameDecision(r: ApplyReceipt, c: Command)
    requires c.RecordApplyReceipt?
  {
    && r.id == c.receipt && r.artifact == c.artifactRef && r.artifactDigest == c.artifactDigest
    && r.baseRevision == c.baseRevision && r.resultRevision == c.resultRevision && r.decision == c.decision
    && r.observedRevision == c.observedRevision && r.code == c.code && r.message == c.note
  }

  predicate NamesArtifact(c: Command, a: Artifact)
    requires c.RecordApplyReceipt?
  {
    c.artifactDigest == a.digest && c.baseRevision == a.baseRevision && c.resultRevision == a.resultRevision
  }

  predicate HeadAllows(s: StoreState, c: Command)
    requires c.RecordApplyReceipt?
  {
    c.decision == ApplySuccess ==>
      c.artifactRef.workspace in s.heads && s.heads[c.artifactRef.workspace].confirmedRevision == c.baseRevision
  }

  ghost predicate MayCommit(s: StoreState, c: Command, env: Env) {
    && ValidTime(env.clock) && Sealable(c, env)
    && (NamedMessage(c).Some? ==> !MessageIdUsed(s, NamedMessage(c).value))
    && (Changes(c) ==> Ready(s, c))
    && match c
       case CreateTask(_, t, _, _) => !TaskIdUsed(s, t.workspace.authority, t.id)
       case CompleteTask(_, t, b, _, a) =>
         s.tasks[t].task.artifact == a && !SubmissionIdUsed(s, t.workspace.authority, b)
       case FreezeArtifact(_, t, a, base, _) =>
         s.tasks[t].task.artifact.None? && BaseIsFree(s, t.workspace, base) && !ArtifactIdUsed(s, t.workspace.authority, a)
       case AcquireLease(_, t, _) =>
         t in s.tasks && !s.tasks[t].task.state.Terminal() && s.tasks[t].lease.owner == "" && s.tasks[t].lease.fence < MAX_INT64
       case ClaimLease(_, authority, _) =>
         exists ref :: LongestWaiting(s, authority, ref) && s.tasks[ref].lease.fence < MAX_INT64
       case FenceLease(_, _) => Held(s, c)
       case RecordApplyReceipt(_, id, a, _, _, _, _, _, _, _) =>
         && a in s.artifacts && s.artifacts[a].artifact.state == ArtifactPublished && NamesArtifact(c, s.artifacts[a].artifact)
         && if a in s.receipts then SameDecision(s.receipts[a], c)
            else HeadAllows(s, c) && !ReceiptIdUsed(s, a.workspace.authority, id)
       case _ => true
  }

  // ---- What a refusal means

  ghost predicate Explains(s: StoreState, c: Command, env: Env, e: Error) {
    match e
    case InvalidArgument => !ValidTime(env.clock) || !Sealable(c, env)
    case NotFound => NamedTask(c).Some? && NamedTask(c).value !in s.tasks
    case TaskConflict => c.CreateTask? && TaskIdUsed(s, c.task.workspace.authority, c.task.id)
    case MessageConflict => NamedMessage(c).Some? && MessageIdUsed(s, NamedMessage(c).value)
    case StaleLease => NamedGrant(c).Some? && NamedGrant(c).value.task in s.tasks && !Held(s, c)
    case CorruptStore =>
      && NamedGrant(c).Some?
      && var g := NamedGrant(c).value;
         LeaseKey(g.task, g.fence) in s.grants && s.grants[LeaseKey(g.task, g.fence)].grant.worker != g.worker
    case RevisionConflict =>
      && Changes(c) && c.task in s.tasks && Held(s, c)
      && (s.tasks[c.task].task.revision != NamedRevision(c) || s.tasks[c.task].task.revision == MAX_INT64)
    case TerminalTask =>
      && (Changes(c) || c.AcquireLease?) && c.task in s.tasks && Held(s, c) && s.tasks[c.task].task.state.Terminal()
      && (Changes(c) ==> s.tasks[c.task].task.revision == NamedRevision(c))
    case InvalidTransition =>
      && Changes(c) && c.task in s.tasks && Held(s, c) && s.tasks[c.task].task.revision == NamedRevision(c)
      && !s.tasks[c.task].task.state.Terminal() && s.tasks[c.task].task.state !in AcceptedIn(c)
    case SubmissionConflict => c.CompleteTask? && Ready(s, c) && SubmissionIdUsed(s, c.task.workspace.authority, c.submission)
    case ArtifactStateError =>
      || (c.CompleteTask? && Ready(s, c) && s.tasks[c.task].task.artifact != c.artifact)
      || (c.RecordApplyReceipt? && c.artifactRef in s.artifacts && s.artifacts[c.artifactRef].artifact.state != ArtifactPublished)
    case ArtifactConflict =>
      && c.FreezeArtifact? && c.task in s.tasks && Held(s, c)
      && (s.tasks[c.task].task.artifact.Some? || ArtifactIdUsed(s, c.task.workspace.authority, c.artifactId))
    case WorkspaceConflict =>
      || (c.FreezeArtifact? && Ready(s, c) && !BaseIsFree(s, c.task.workspace, c.expectedBase))
      || (c.RecordApplyReceipt? && c.artifactRef !in s.receipts && !HeadAllows(s, c))
    case ArtifactNotFound => c.RecordApplyReceipt? && c.artifactRef !in s.artifacts
    case ReceiptConflict =>
      && c.RecordApplyReceipt? && c.artifactRef in s.artifacts
      && (|| !NamesArtifact(c, s.artifacts[c.artifactRef].artifact)
          || if c.artifactRef in s.receipts then !SameDecision(s.receipts[c.artifactRef], c)
             else ReceiptIdUsed(s, c.artifactRef.workspace.authority, c.receipt))
    case LeaseUnavailable =>
      c.AcquireLease? && c.task in s.tasks && !s.tasks[c.task].task.state.Terminal() && s.tasks[c.task].lease.owner != ""
    case LeaseNotFound => c.ClaimLease? && !exists ref :: Waiting(s, c.authority, ref)
    case LeaseFenceExhausted =>
      || (c.AcquireLease? && c.task in s.tasks && s.tasks[c.task].lease.owner == "" && s.tasks[c.task].lease.fence == MAX_INT64)
      || (c.ClaimLease? && exists ref :: LongestWaiting(s, c.authority, ref) && s.tasks[ref].lease.fence == MAX_INT64)
    case _ => false
  }

  // ---- Transitions

  /** The lease check lets exactly the current holder through. */
  lemma {:induction false} LeaseVerdict(s: StoreState, g: LeaseGrant)
    requires TasksOk(s.tasks) && GrantsOk(s.tasks, s.grants) && ValidGrant(g) && g.task in s.tasks
    ensures LeaseRefusal(s, g).None? <==> F.Current(s, g)
    ensures LeaseRefusal(s, g).Some? ==>
              || LeaseRefusal(s, g) == Some(StaleLease)
              || (LeaseRefusal(s, g) == Some(CorruptStore) && LeaseKey(g.task, g.fence) in s.grants
                  && s.grants[LeaseKey(g.task, g.fence)].grant.worker != g.worker)
  {
    assert LeaseHeadOk(s.grants, g.task, s.tasks[g.task].lease);
    if LeaseKey(g.task, g.fence) in s.grants {
      GrantRowAt(s, LeaseKey(g.task, g.fence));
    }
  }

  /** An open Task's Artifact is still frozen, and it has no Submission. */
  lemma {:induction false} OpenTask(s: StoreState, ref: TaskRef)
    requires TasksOk(s.tasks) && ArtifactsOk(s.tasks, s.artifacts, s.heads) && SubmissionsOk(s.tasks, s.submissions)
    requires ref in s.tasks && !s.tasks[ref].task.state.Terminal()
    ensures s.tasks[ref].task.artifact.Some? ==> Frozen(s, s.tasks[ref].task.artifact.value, ref)
    ensures s.tasks[ref].task.submission.None? && ref !in s.submissions
    ensures s.tasks[ref].task.revision == s.tasks[ref].task.eventCount && s.tasks[ref].task.messageCount <= s.tasks[ref].task.revision <= MAX_INT64
  {
    assert TaskRowOk(ref, s.tasks[ref]);
    if s.tasks[ref].task.artifact.Some? {
      var a := s.tasks[ref].task.artifact.value;
      assert ArtifactRowOk(s.tasks, s.heads, a, s.artifacts[a]);
    }
  }

  /** A plan names what its command names. */
  lemma {:induction false} PlanNames(c: Command)
    requires IsTransition(c) && ValidCommand(c)
    ensures Changes(c) && c.task == PlanOf(c).task && NamedTask(c) == Some(c.task)
    ensures PlanOf(c).meta.expectedRevision == NamedRevision(c) && PlanOf(c).grant == NamedGrant(c)
    ensures PlanOf(c).allowed == AcceptedIn(c) && !c.FreezeArtifact?
    ensures PlanOf(c).message.Some? <==> NamedMessage(c).Some?
    ensures NamedMessage(c).Some? ==> NamedMessage(c).value == (c.task.workspace.authority, PlanOf(c).message.value.id)
    ensures PlanOf(c).submission != "" <==> c.CompleteTask?
    ensures c.CompleteTask? ==> PlanOf(c).submission == c.submission && PlanOf(c).artifact == c.artifact
    ensures !c.CompleteTask? ==> PlanOf(c).artifact.None?
    ensures NamedGrant(c).Some? ==> ValidGrant(NamedGrant(c).value) && NamedGrant(c).value.task == c.task
  {}

  lemma {:induction false} AcceptedIsOpen(c: Command, state: TaskState)
    requires Changes(c) && state in AcceptedIn(c)
    ensures !state.Terminal()
  {}

  predicate PlanReady(s: StoreState, p: Plan) {
    && p.task in s.tasks && (p.grant.Some? ==> F.Current(s, p.grant.value))
    && s.tasks[p.task].task.revision == p.meta.expectedRevision < MAX_INT64
    && s.tasks[p.task].task.state in p.allowed
  }

  predicate PlanSealable(p: Plan, env: Env) {
    p.message.Some? ==> SealFits(env.sealedSize, MAX_PAGE_BYTES)
  }

  /** The checks on the Task row: when they pass, and in which order they fail. */
  lemma {:induction false} EarlyPlan(s: StoreState, p: Plan, env: Env)
    requires TasksOk(s.tasks) && GrantsOk(s.tasks, s.grants)
    requires p.grant.Some? ==> ValidGrant(p.grant.value) && p.grant.value.task == p.task
    requires forall state | state in p.allowed :: !state.Terminal()
    ensures var r := EarlyRefusal(s, p, env);
            && (r.None? <==> ValidTime(env.clock) && PlanSealable(p, env) && PlanReady(s, p)
                             && (p.submission != "" ==> s.tasks[p.task].task.artifact == p.artifact))
            && (r.Some? ==> PlanExplains(s, p, env, r.value))
  {
    hide TasksOk, GrantsOk, LeaseRefusal, ValidGrant, F.Current, ValidTime, SealFits;
    if p.task in s.tasks {
      if p.grant.Some? {
        LeaseVerdict(s, p.grant.value);
      }
      RowInRange(s, p.task);
    }
  }

  predicate PlanExplains(s: StoreState, p: Plan, env: Env, e: Error) {
    if e == InvalidArgument then !ValidTime(env.clock) || !PlanSealable(p, env)
    else if e == NotFound then p.task !in s.tasks
    else
      && p.task in s.tasks
      && var t := s.tasks[p.task].task;
         if e == StaleLease then p.grant.Some? && !F.Current(s, p.grant.value)
         else if e == CorruptStore then
           && p.grant.Some?
           && var g := p.grant.value;
              LeaseKey(g.task, g.fence) in s.grants && s.grants[LeaseKey(g.task, g.fence)].grant.worker != g.worker
         else
           && (p.grant.Some? ==> F.Current(s, p.grant.value))
           && if e == RevisionConflict then t.revision != p.meta.expectedRevision || t.revision == MAX_INT64
              else
                && t.revision == p.meta.expectedRevision
                && if e == TerminalTask then t.state.Terminal()
                   else if e == InvalidTransition then !t.state.Terminal() && t.state !in p.allowed
                   else e == ArtifactStateError && PlanReady(s, p) && p.submission != "" && t.artifact != p.artifact
  }

  lemma {:induction false} EarlyVerdict(s: StoreState, c: Command, env: Env)
    requires TasksOk(s.tasks) && GrantsOk(s.tasks, s.grants) && IsTransition(c) && ValidCommand(c)
    ensures var r := EarlyRefusal(s, PlanOf(c), env);
            && (r.None? <==> ValidTime(env.clock) && Sealable(c, env) && Ready(s, c)
                             && (c.CompleteTask? ==> s.tasks[c.task].task.artifact == c.artifact))
            && (r.Some? ==> Explains(s, c, env, r.value))
  {
    hide TasksOk, GrantsOk, PlanOf, AcceptedIn, NamedGrant, NamedMessage, NamedRevision, EarlyRefusal, ValidCommand, ValidGrant, ValidTime, F.Current;
    hide Explains, PlanExplains;
    PlanNames(c);
    forall state | state in AcceptedIn(c) ensures !state.Terminal() {
      AcceptedIsOpen(c, state);
    }
    EarlyPlan(s, PlanOf(c), env);
    forall e | PlanExplains(s, PlanOf(c), env, e) ensures Explains(s, c, env, e) {
      PlanExplainsCommand(s, c, env, e);
    }
  }

  lemma {:induction false} PlanExplainsCommand(s: StoreState, c: Command, env: Env, e: Error)
    requires IsTransition(c) && ValidCommand(c) && PlanExplains(s, PlanOf(c), env, e)
    ensures Explains(s, c, env, e)
  {
    hide PlanOf, AcceptedIn, NamedGrant, NamedMessage, NamedRevision, ValidCommand, ValidGrant, ValidTime, F.Current, SealFits;
    PlanNames(c);
  }

  lemma {:induction false} RowInRange(s: StoreState, ref: TaskRef)
    requires TasksOk(s.tasks) && ref in s.tasks
    ensures s.tasks[ref].task.ref == ref
    ensures s.tasks[ref].task.revision == s.tasks[ref].task.eventCount && s.tasks[ref].task.messageCount <= s.tasks[ref].task.revision <= MAX_INT64
    ensures s.tasks[ref].lease.fence <= MAX_INT64
  {
    assert TaskRowOk(ref, s.tasks[ref]);
  }

  /** The checks of the other writes, once the Task is ready. */
  lemma {:induction false} LatePlan(s: StoreState, p: Plan, now: Time)
    requires TasksOk(s.tasks) && ArtifactsOk(s.tasks, s.artifacts, s.heads) && SubmissionsOk(s.tasks, s.submissions)
    requires p.task in s.tasks && !s.tasks[p.task].task.state.Terminal()
    requires p.artifact.Some? ==> s.tasks[p.task].task.artifact == p.artifact
    ensures var r := LateRefusal(s, p, s.tasks[p.task].task, now);
            var messageUsed := p.message.Some? && MessageIdUsed(s, (p.task.workspace.authority, p.message.value.id));
            var submissionUsed := p.submission != "" && SubmissionIdUsed(s, p.task.workspace.authority, p.submission);
            r == if messageUsed then Some(MessageConflict) else if submissionUsed then Some(SubmissionConflict) else None
  {
    hide TasksOk, ArtifactsOk, SubmissionsOk, Frozen;
    OpenTask(s, p.task);
    SubmissionKeys(s);
  }

  lemma {:induction false} SubmissionKeys(s: StoreState)
    requires SubmissionsOk(s.tasks, s.submissions)
    ensures forall t | t in s.submissions :: s.submissions[t].task == t
  {}

  lemma {:induction false} TransitionVerdict(s: StoreState, c: Command, env: Env)
    requires Inv(s) && IsTransition(c) && ValidCommand(c)
    ensures TransitionRefusal(s, PlanOf(c), env).None? <==> MayCommit(s, c, env)
    ensures TransitionRefusal(s, PlanOf(c), env).Some? ==> Explains(s, c, env, TransitionRefusal(s, PlanOf(c), env).value)
  {
    hide TasksOk, PublicIdsUnique, LogsOk, MessagesOk, LinksOk, GrantsOk, ArtifactsOk, SubmissionsOk, HeadsOk, ReceiptsOk, CommandsOk, EffectsOk;
    hide PlanOf, AcceptedIn, NamedGrant, NamedMessage, NamedRevision, ValidCommand, EarlyRefusal, LateRefusal, SubmissionIdUsed, Held, ValidGrant;
    hide MessageIdUsed;
    EarlyVerdict(s, c, env);
    PlanNames(c);
    if EarlyRefusal(s, PlanOf(c), env).None? {
      AcceptedIsOpen(c, s.tasks[c.task].task.state);
      LatePlan(s, PlanOf(c), TransitionTime(s, PlanOf(c), env));
    }
  }

  // ---- The other commands

  lemma {:induction false} CreateVerdict(s: StoreState, c: Command, env: Env)
    requires c.CreateTask?
    ensures CreateRefusal(s, c, env).None? <==> MayCommit(s, c, env)
    ensures CreateRefusal(s, c, env).Some? ==> Explains(s, c, env, CreateRefusal(s, c, env).value)
  {}

  lemma {:induction false} FreezeEntryVerdict(s: StoreState, c: Command, env: Env)
    requires TasksOk(s.tasks) && ArtifactsOk(s.tasks, s.artifacts, s.heads) && SubmissionsOk(s.tasks, s.submissions)
    requires c.FreezeArtifact? && ValidCommand(c)
    ensures var r := FreezeEntryRefusal(s, c, env);
            && (r.None? <==> ValidTime(env.clock) && Ready(s, c) && s.tasks[c.task].task.artifact.None?)
            && (r.Some? ==> Explains(s, c, env, r.value))
  {
    hide TasksOk, ArtifactsOk, SubmissionsOk;
    if c.task in s.tasks {
      RowInRange(s, c.task);
      if !s.tasks[c.task].task.state.Terminal() {
        OpenTask(s, c.task);
      }
    }
  }

  lemma {:induction false} ArtifactSlot(s: StoreState, c: Command, now: Time)
    requires ArtifactsOk(s.tasks, s.artifacts, s.heads) && c.FreezeArtifact? && c.task in s.tasks && s.tasks[c.task].task.artifact.None?
    ensures ArtifactTaken(s.artifacts, FrozenArtifact(c, now)) <==> ArtifactIdUsed(s, c.task.workspace.authority, c.artifactId)
  {
    forall a | a in s.artifacts ensures s.artifacts[a].artifact.ref == a && s.artifacts[a].artifact.task != c.task {
      assert ArtifactRowOk(s.tasks, s.heads, a, s.artifacts[a]);
    }
  }

  lemma {:induction false} FreezeVerdict(s: StoreState, c: Command, env: Env)
    requires Inv(s) && c.FreezeArtifact? && ValidCommand(c)
    ensures FreezeRefusal(s, c, env).None? <==> MayCommit(s, c, env)
    ensures FreezeRefusal(s, c, env).Some? ==> Explains(s, c, env, FreezeRefusal(s, c, env).value)
  {
    hide TasksOk, PublicIdsUnique, LogsOk, MessagesOk, LinksOk, GrantsOk, ArtifactsOk, SubmissionsOk, HeadsOk, ReceiptsOk, CommandsOk, EffectsOk;
    hide ValidCommand, FreezeEntryRefusal, ArtifactTaken, ArtifactIdUsed, FrozenArtifact, Held;
    FreezeEntryVerdict(s, c, env);
    if FreezeEntryRefusal(s, c, env).None? {
      ArtifactSlot(s, c, AtLeast(env.clock, s.tasks[c.task].task.updatedAt));
    }
  }

  lemma {:induction false} AcquireVerdict(s: StoreState, c: Command, env: Env)
    requires TasksOk(s.tasks) && c.AcquireLease?
    ensures AcquireRefusal(s, c, env).None? <==> MayCommit(s, c, env)
    ensures AcquireRefusal(s, c, env).Some? ==> Explains(s, c, env, AcquireRefusal(s, c, env).value)
  {
    hide TasksOk;
    if c.task in s.tasks {
      RowInRange(s, c.task);
    }
  }

  lemma {:induction false} ClaimVerdict(s: StoreState, c: Command, env: Env)
    requires TasksOk(s.tasks) && c.ClaimLease?
    ensures ClaimRefusal(s, c, env).None? <==> MayCommit(s, c, env)
    ensures ClaimRefusal(s, c, env).Some? ==> Explains(s, c, env, ClaimRefusal(s, c, env).value)
  {
    hide TasksOk, LongestWaiting, ClaimedTask;
    ClaimedTaskWaits(s, c.authority);
    if ClaimedTask(s, c.authority).Some? {
      LongestWaits(s, c.authority, ClaimedTask(s, c.authority).value);
      RowInRange(s, ClaimedTask(s, c.authority).value);
    }
  }

  lemma {:induction false} FenceVerdict(s: StoreState, c: Command, env: Env)
    requires TasksOk(s.tasks) && GrantsOk(s.tasks, s.grants) && c.FenceLease? && ValidCommand(c)
    ensures FenceRefusal(s, c, env).None? <==> MayCommit(s, c, env)
    ensures FenceRefusal(s, c, env).Some? ==> Explains(s, c, env, FenceRefusal(s, c, env).value)
  {
    hide TasksOk, GrantsOk, LeaseRefusal;
    if c.grant.task in s.tasks {
      LeaseVerdict(s, c.grant);
    }
  }

  lemma {:induction false} LongestWaits(s: StoreState, authority: Id, ref: TaskRef)
    requires LongestWaiting(s, authority, ref)
    ensures Waiting(s, authority, ref)
  {}

  lemma {:induction false} ReceiptSlot(s: StoreState, c: Command, now: Time)
    requires ReceiptsOk(s.artifacts, s.receipts, s.heads) && c.RecordApplyReceipt? && c.artifactRef !in s.receipts
    ensures ReceiptTaken(s.receipts, ReceiptOf(c, now)) <==> ReceiptIdUsed(s, c.artifactRef.workspace.authority, c.receipt)
  {
    forall a | a in s.receipts ensures s.receipts[a].artifact == a {
      assert ReceiptRowOk(s.artifacts, s.heads, a, s.receipts[a]);
    }
  }

  lemma {:induction false} ReceiptVerdict(s: StoreState, c: Command, env: Env)
    requires Inv(s) && c.RecordApplyReceipt?
    ensures ReceiptRefusal(s, c, env).None? <==> MayCommit(s, c, env)
    ensures ReceiptRefusal(s, c, env).Some? ==> Explains(s, c, env, ReceiptRefusal(s, c, env).value)
  {
    hide TasksOk, PublicIdsUnique, LogsOk, MessagesOk, LinksOk, GrantsOk, ArtifactsOk, SubmissionsOk, HeadsOk, ReceiptsOk, CommandsOk, EffectsOk;
    hide ReceiptTaken, ReceiptIdUsed;
    if c.artifactRef in s.artifacts {
      ArtifactKeys(s);
      if c.artifactRef !in s.receipts {
        ReceiptSlot(s, c, ReceiptTime(s.artifacts[c.artifactRef].artifact, env));
      }
    }
  }

  // ---- Every command

  lemma {:induction false} RefusalVerdict(s: StoreState, c: Command, env: Env)
    requires Inv(s) && ValidCommand(c)
    ensures Refusal(s, c, env).None? <==> MayCommit(s, c, env)
    ensures Refusal(s, c, env).Some? ==> Explains(s, c, env, Refusal(s, c, env).value)
  {
    hide TasksOk, PublicIdsUnique, LogsOk, MessagesOk, LinksOk, GrantsOk, ArtifactsOk, SubmissionsOk, HeadsOk, ReceiptsOk, CommandsOk, EffectsOk;
    hide ValidCommand, CreateRefusal, FreezeRefusal, AcquireRefusal, ClaimRefusal, FenceRefusal, ReceiptRefusal, TransitionRefusal;
    hide MayCommit, Explains, PlanOf;
    if c.CreateTask? {
      CreateVerdict(s, c, env);
    } else if c.FreezeArtifact? {
      FreezeVerdict(s, c, env);
    } else if c.AcquireLease? {
      AcquireVerdict(s, c, env);
    } else if c.ClaimLease? {
      ClaimVerdict(s, c, env);
    } else if c.FenceLease? {
      FenceVerdict(s, c, env);
    } else if c.RecordApplyReceipt? {
      ReceiptVerdict(s, c, env);
    } else {
      TransitionVerdict(s, c, env);
    }
  }

  /** A new command with valid arguments succeeds exactly when the records allow it:
  the lifecycle state, the expected revision, the current lease, free identifiers,
  the confirmed base, the longest waiting Task. */
  lemma {:induction false} SucceedsIff(s: StoreState, c: Command, env: Env)
    requires Reachable(s) && ValidCommand(c) && KeyOf(c) !in s.commands
    ensures Execute(s, c, env).answer.Ok? <==> MayCommit(s, c, env)
  {
    hide Inv, Reachable, ValidCommand, KeyOf, Refusal, Decide, Apply, MayCommit, Explains;
    ReachableInv(s);
    RefusalVerdict(s, c, env);
  }

  /** A refusal tells the truth: its error names a check that fails, and the checks
  made before it pass. */
  lemma {:induction false} RefusalTellsTheTruth(s: StoreState, c: Command, env: Env)
    requires Reachable(s) && ValidCommand(c) && KeyOf(c) !in s.commands
    ensures Execute(s, c, env).answer.Err? ==> Explains(s, c, env, Execute(s, c, env).answer.error)
  {
    hide Inv, Reachable, ValidCommand, KeyOf, Refusal, Decide, Apply, MayCommit, Explains;
    ReachableInv(s);
    RefusalVerdict(s, c, env);
  }

  // ---- What a commit answers, and when it says it happened

  /** The answer is the record the commit leaves behind. */
  ghost predicate Shown(s: StoreState, a: Answer) {
    match a
    case TaskAnswer(t) => t.ref in s.tasks && s.tasks[t.ref].task == t
    case FreezeAnswer(t, x) =>
      && t.ref in s.tasks && s.tasks[t.ref].task == t
      && x.ref in s.artifacts && s.artifacts[x.ref].artifact == x
    case AssignmentAnswer(x) =>
      && x.task.ref in s.tasks && s.tasks[x.task.ref].task == x.task
      && s.tasks[x.task.ref].lease == LeaseState(x.grant.worker, x.grant.fence)
    case GrantAnswer(g) => g.task in s.tasks && s.tasks[g.task].lease == LeaseState("", g.fence)
    case ReceiptAnswer(r) => r.artifact in s.receipts && s.receipts[r.artifact] == r
  }

  ghost predicate Latest(at: Time, times: set<Time>) {
    at in times && forall x | x in times :: x <= at
  }

  ghost function GrantTimes(s: StoreState, ref: TaskRef): set<Time> {
    set key | key in s.grants && key.task == ref :: s.grants[key].grantedAt
  }

  ghost predicate GrantTimely(s: StoreState, env: Env, r: CommandRecord) {
    && r.answer.AssignmentAnswer? && r.answer.assignment.grant.task in s.tasks
    && var ref := r.answer.assignment.grant.task;
       Latest(r.createdAt, {env.clock, s.tasks[ref].task.updatedAt} + GrantTimes(s, ref))
  }

  ghost predicate ReceiptTimely(s: StoreState, ref: ArtifactRef, env: Env, r: CommandRecord) {
    && ref in s.artifacts && s.artifacts[ref].artifact.publishedAt.Some?
    && Latest(r.createdAt, {env.clock, s.artifacts[ref].artifact.frozenAt, s.artifacts[ref].artifact.publishedAt.value})
  }

  ghost predicate ChangeTimely(s: StoreState, ref: TaskRef, env: Env, r: CommandRecord) {
    ref in s.tasks && Latest(r.createdAt, {env.clock, s.tasks[ref].task.updatedAt})
  }

  /** A commit happens at the clock, unless something it follows happened later. */
  ghost predicate Timely(s: StoreState, c: Command, env: Env, r: CommandRecord) {
    match c
    case CreateTask(_, _, _, _) => r.createdAt == env.clock
    case FenceLease(_, _) => r.createdAt == env.clock
    case AcquireLease(_, _, _) => GrantTimely(s, env, r)
    case ClaimLease(_, _, _) => GrantTimely(s, env, r)
    case RecordApplyReceipt(_, _, a, _, _, _, _, _, _, _) => ReceiptTimely(s, a, env, r)
    case _ => ChangeTimely(s, c.task, env, r)
  }

  lemma {:induction false} ChangeShown(s: StoreState, c: Command, env: Env)
    requires TasksOk(s.tasks) && Changes(c) && Refusal(s, c, env).None?
    ensures var d := Decide(s, c, env); Shown(Apply(s, d), d.command.answer) && ChangeTimely(s, c.task, env, d.command)
  {
    hide TasksOk, LeaseRefusal, LateRefusal, LogAfter, SettledRow, ArtifactTaken, EventOf, SubmissionOf, KeyOf;
    RowInRange(s, c.task);
    if IsTransition(c) {
      assert PlanOf(c).task == c.task;
      hide PlanOf;
    }
  }

  lemma {:induction false} GrantShown(s: StoreState, c: Command, env: Env, ref: TaskRef)
    requires TasksOk(s.tasks) && GrantsOk(s.tasks, s.grants) && ref in s.tasks && ValidTime(env.clock)
    requires c.AcquireLease? || c.ClaimLease?
    ensures var d := GrantDelta(s, c, s.tasks[ref], c.worker, env); Shown(Apply(s, d), d.command.answer) && GrantTimely(s, env, d.command)
  {
    hide TasksOk, GrantsOk, KeyOf;
    RowInRange(s, ref);
    F.GrantHistoryOf(s, ref);
  }

  lemma {:induction false} FenceShown(s: StoreState, c: Command, env: Env)
    requires TasksOk(s.tasks) && c.FenceLease? && FenceRefusal(s, c, env).None?
    ensures var d := FenceDelta(s, c, env); Shown(Apply(s, d), d.command.answer) && d.command.createdAt == env.clock
  {
    hide TasksOk, KeyOf;
    RowInRange(s, c.grant.task);
  }

  lemma {:induction false} CreateShown(s: StoreState, c: Command, env: Env)
    requires c.CreateTask?
    ensures var d := CreateDelta(c, env); Shown(Apply(s, d), d.command.answer) && d.command.createdAt == env.clock
  {
    hide KeyOf, LogAfter;
  }

  lemma {:induction false} ReceiptShown(s: StoreState, c: Command, env: Env)
    requires ArtifactsOk(s.tasks, s.artifacts, s.heads) && ReceiptsOk(s.artifacts, s.receipts, s.heads)
    requires c.RecordApplyReceipt? && ReceiptRefusal(s, c, env).None?
    ensures var d := ReceiptDelta(s, c, env); Shown(Apply(s, d), d.command.answer) && ReceiptTimely(s, c.artifactRef, env, d.command)
  {
    hide ReceiptTaken, KeyOf, LogAfter, ArtifactsOk, ReceiptsOk;
    PublishedRow(s, c.artifactRef);
  }

  lemma {:induction false} PublishedRow(s: StoreState, ref: ArtifactRef)
    requires ArtifactsOk(s.tasks, s.artifacts, s.heads) && ReceiptsOk(s.artifacts, s.receipts, s.heads)
    requires ref in s.artifacts && s.artifacts[ref].artifact.state == ArtifactPublished
    ensures s.artifacts[ref].artifact.publishedAt.Some?
    ensures ref in s.receipts ==> s.receipts[ref].artifact == ref
  {
    assert ArtifactRowOk(s.tasks, s.heads, ref, s.artifacts[ref]);
    if ref in s.receipts {
      assert ReceiptRowOk(s.artifacts, s.heads, ref, s.receipts[ref]);
    }
  }

  /** A successful new command answers with the record it leaves behind, dated at the
  clock or, if that is later, at the latest thing it follows. */
  lemma {:induction false} AnswerShowsTheRecord(s: StoreState, c: Command, env: Env)
    requires Reachable(s) && ValidCommand(c) && KeyOf(c) !in s.commands && Execute(s, c, env).answer.Ok?
    ensures KeyOf(c) == CommandKey(NamedAuthority(c), NamedId(c))
    ensures var s' := Execute(s, c, env).state;
            && Committed(s', c) && s'.commands[KeyOf(c)].answer == Execute(s, c, env).answer.value
            && Shown(s', Execute(s, c, env).answer.value) && Timely(s, c, env, s'.commands[KeyOf(c)])
  {
    hide PublicIdsUnique, LogsOk, MessagesOk, LinksOk, SubmissionsOk, HeadsOk, CommandsOk, EffectsOk;
    hide TasksOk, GrantsOk, ArtifactsOk, ReceiptsOk, Reachable, Shown, GrantTimely, ReceiptTimely, ChangeTimely, Apply, KeyOf, ValidCommand;
    hide CreateDelta, FreezeDelta, GrantDelta, FenceDelta, ReceiptDelta, TransitionDelta, CreateRefusal, FreezeRefusal, FenceRefusal;
    hide ReceiptRefusal, TransitionRefusal, PlanOf, ClaimedTask, LongestWaiting;
    KeyIsNamed(c);
    ReachableInv(s);
    AnswerRecorded(s, c, env);
    DecidedRecord(s, c, env);
    if Changes(c) {
      ChangeShown(s, c, env);
    } else if c.AcquireLease? {
      GrantShown(s, c, env, c.task);
    } else if c.ClaimLease? {
      ClaimedTaskWaits(s, c.authority);
      LongestWaits(s, c.authority, ClaimedTask(s, c.authority).value);
      GrantShown(s, c, env, ClaimedTask(s, c.authority).value);
    } else if c.CreateTask? {
      CreateShown(s, c, env);
    } else if c.FenceLease? {
      FenceShown(s, c, env);
    } else {
      ReceiptShown(s, c, env);
    }
    assert Execute(s, c, env).state == Apply(s, Decide(s, c, env));
    assert Committed(Execute(s, c, env).state, c);
    RecordInApply(s, Decide(s, c, env), c);
  }

  lemma {:induction false} RecordInApply(s: StoreState, d: Delta, c: Command)
    requires d.command == RecordOf(c, d.command.answer, d.command.createdAt)
    ensures KeyOf(c) in Apply(s, d).commands && Apply(s, d).commands[KeyOf(c)] == d.command
  {}

  /** A claim serves the Task that has waited longest: nothing that waits was created
  earlier, and ties go to the smaller Workspace, then Task identifier. It finds no
  Task only when none waits. */
  lemma {:induction false} ClaimServesTheOldest(s: StoreState, c: Command, env: Env)
    requires Reachable(s) && c.ClaimLease? && ValidCommand(c) && KeyOf(c) !in s.commands
    ensures var r := Execute(s, c, env).answer;
            && (r == Err(LeaseNotFound) <==> !exists ref :: Waiting(s, c.authority, ref))
            && (r.Ok? ==> r.value.AssignmentAnswer? && LongestWaiting(s, c.authority, r.value.assignment.grant.task)
                          && r.value.assignment.grant.worker == c.worker)
  {
    hide Inv, Reachable, ValidCommand, KeyOf, Waiting, LongestWaiting, ClaimedTask, Apply;
    ReachableInv(s);
    F.SoundTasks(s);
    ClaimedTaskWaits(s, c.authority);
    if ClaimedTask(s, c.authority).Some? {
      LongestWaits(s, c.authority, ClaimedTask(s, c.authority).value);
      hide TasksOk;
      InTasks(s, c.authority, ClaimedTask(s, c.authority).value);
    }
  }

  lemma {:induction false} InTasks(s: StoreState, authority: Id, ref: TaskRef)
    requires TasksOk(s.tasks) && Waiting(s, authority, ref)
    ensures ref in s.tasks && s.tasks[ref].task.ref == ref
  {
    RowInRange(s, ref);
  }

  /** The Task goes from one of the states `before` to `to`, one revision on, and its log
  says so. */
  predicate Moves(s: StoreState, s': StoreState, t: TaskRef, before: set<TaskState>, to: TaskState, kind: EventType) {
    && t in s.tasks && s.tasks[t].task.state in before
    && t in s'.tasks && s'.tasks[t].task.state == to
    && var n := s.tasks[t].task.revision + 1;
       && s'.tasks[t].task.revision == n
       && t in s'.events && n in s'.events[t] && s'.events[t][n].kind == kind && s'.events[t][n].state == to
  }

  /** The lifecycle, command by command. */
  lemma {:induction false} LifecycleTable(s: StoreState, c: Command, env: Env)
    requires Reachable(s) && ValidCommand(c) && KeyOf(c) !in s.commands && Changes(c) && Execute(s, c, env).answer.Ok?
    ensures var s' := Execute(s, c, env).state;
            match c
            case AcceptTask(_, t) => Moves(s, s', t, {TaskSubmitted}, TaskWorking, EventTaskAccepted)
            case RejectTask(_, t) => Moves(s, s', t, {TaskSubmitted}, TaskRejected, EventTaskRejected)
            case RequestInput(_, t, _) => Moves(s, s', t, {TaskWorking}, TaskInputRequired, EventInputRequired)
            case ReplyTask(_, t, _) => Moves(s, s', t, {TaskInputRequired}, TaskWorking, EventCallerReplied)
            case CancelTask(_, t) =>
              Moves(s, s', t, {TaskSubmitted, TaskWorking, TaskInputRequired}, TaskCanceled, EventTaskCanceled)
            case FailTask(_, t) => Moves(s, s', t, {TaskWorking, TaskInputRequired}, TaskFailed, EventTaskFailed)
            case CompleteTask(_, t, _, _, _) => Moves(s, s', t, {TaskWorking}, TaskCompleted, EventTaskCompleted)
            case FreezeArtifact(_, t, _, _, _) => Moves(s, s', t, {TaskWorking}, TaskWorking, EventArtifactFrozen)
  {
    hide Reachable, ValidCommand, KeyOf, Execute, Timely, F.Current, C.ContentOk, Sealable, MessageIdUsed, SubmissionIdUsed, ArtifactIdUsed;
    SucceedsIff(s, c, env);
    AnswerShowsTheRecord(s, c, env);
    NextStoreReachable(s, c, env);
    var s' := Execute(s, c, env).state;
    C.CommittedContentIsStored(s', KeyOf(c));
    ContentMoves(s, s', c, s'.commands[KeyOf(c)]);
  }

  lemma {:induction false} NextStoreReachable(s: StoreState, c: Command, env: Env)
    requires Reachable(s)
    ensures Reachable(Execute(s, c, env).state)
  {
    F.NextReachable(s, Action(c, env));
  }

  predicate MovesAs(s: StoreState, s': StoreState, c: Command, to: TaskState, kind: EventType)
    requires Changes(c)
  {
    Moves(s, s', c.task, AcceptedIn(c), to, kind)
  }

  lemma {:induction false} ContentMoves(s: StoreState, s': StoreState, c: Command, r: CommandRecord)
    requires Changes(c) && Ready(s, c) && r.intent == c && C.ContentOk(s', r) && Shown(s', r.answer)
    ensures match c
            case AcceptTask(_, _) => MovesAs(s, s', c, TaskWorking, EventTaskAccepted)
            case RejectTask(_, _) => MovesAs(s, s', c, TaskRejected, EventTaskRejected)
            case RequestInput(_, _, _) => MovesAs(s, s', c, TaskInputRequired, EventInputRequired)
            case ReplyTask(_, _, _) => MovesAs(s, s', c, TaskWorking, EventCallerReplied)
            case CancelTask(_, _) => MovesAs(s, s', c, TaskCanceled, EventTaskCanceled)
            case FailTask(_, _) => MovesAs(s, s', c, TaskFailed, EventTaskFailed)
            case CompleteTask(_, _, _, _, _) => MovesAs(s, s', c, TaskCompleted, EventTaskCompleted)
            case FreezeArtifact(_, _, _, _, _) => MovesAs(s, s', c, TaskWorking, EventArtifactFrozen)
  {
    hide C.MessageStored, C.FrozenAs, C.Discards, C.Publishes, F.Current, AcceptedIn;
  }

  // ---- Limits

  predicate BoundedMessage(m: MessageRecord) {
    && 1 <= |m.parts| <= 32 && TotalBytes(m.parts) <= 2_097_152 && 1 <= m.encodedSize <= 4_194_304
    && forall i | 0 <= i < |m.parts| :: m.parts[i].data != [] && 1 <= |m.parts[i].mediaType| <= 128
  }

  predicate BoundedCommand(c: Command) {
    && 1 <= |NamedId(c)| <= 128
    && (c.CreateTask? ==> c.create.expectedRevision == 0)
    && (Changes(c) ==> 1 <= NamedRevision(c) <= MAX_INT64)
    && (NamedGrant(c).Some? && NamedTask(c).Some? ==>
          NamedGrant(c).value.task == NamedTask(c).value && 1 <= NamedGrant(c).value.fence <= MAX_INT64)
    && (c.FreezeArtifact? ==> 1 <= |c.payload.data| <= 67_108_864 && 1 <= |c.payload.mediaType| <= 128)
    && (c.RecordApplyReceipt? ==>
          && |c.code| <= 128 && |c.note| <= 4096
          && (c.decision == ApplySuccess ==> c.observedRevision == c.resultRevision))
  }

  /** What a reachable store holds is within the limits: no message, Artifact or command
  outgrows them, however it got there. */
  lemma {:induction false} RecordsAreBounded(s: StoreState)
    requires Reachable(s)
    ensures forall key | key in s.messages :: BoundedMessage(s.messages[key])
    ensures forall a | a in s.artifacts :: 1 <= s.artifacts[a].artifact.payloadSize <= 67_108_864
    ensures forall key | key in s.commands :: BoundedCommand(s.commands[key].intent)
  {
    hide TasksOk, PublicIdsUnique, LogsOk, LinksOk, GrantsOk, SubmissionsOk, HeadsOk, ReceiptsOk, EffectsOk, Reachable, BoundedMessage, BoundedCommand;
    ReachableInv(s);
    hide MessagesOk, ArtifactsOk, CommandsOk;
    forall key | key in s.messages ensures BoundedMessage(s.messages[key]) {
      MessageBounds(s, key);
    }
    forall a | a in s.artifacts ensures 1 <= s.artifacts[a].artifact.payloadSize <= 67_108_864 {
      ArtifactBounds(s, a);
    }
    forall key | key in s.commands ensures BoundedCommand(s.commands[key].intent) {
      CommandBounds(s, key);
    }
  }

  lemma {:induction false} MessageBounds(s: StoreState, key: MessageKey)
    requires MessagesOk(s.tasks, s.messages) && key in s.messages
    ensures BoundedMessage(s.messages[key])
  {
    assert MessageRowOk(s.tasks, key, s.messages[key]);
  }

  lemma {:induction false} ArtifactBounds(s: StoreState, a: ArtifactRef)
    requires ArtifactsOk(s.tasks, s.artifacts, s.heads) && a in s.artifacts
    ensures 1 <= s.artifacts[a].artifact.payloadSize <= 67_108_864
  {
    assert ArtifactRowOk(s.tasks, s.heads, a, s.artifacts[a]);
  }

  lemma {:induction false} CommandBounds(s: StoreState, key: CommandKey)
    requires CommandsOk(s) && key in s.commands
    ensures BoundedCommand(s.commands[key].intent)
  {
    hide AnswerOk;
    assert CommandRowOk(s, key, s.commands[key]);
    ValidIsBounded(s.commands[key].intent);
  }

  lemma {:induction false} ValidIsBounded(c: Command)
    requires ValidCommand(c)
    ensures BoundedCommand(c)
  {}
}
