/** Every commit keeps the invariant and grows the store. */
module Commit {
  import opened Types
  import opened Validators
  import opened Store
  import opened Commands
  import opened Invariant
  import opened Tables
  import opened Steps
  import opened Growth

  // ---- One commit

  lemma {:induction false} CreateCommit(s: StoreState, c: Command, env: Env)
    requires Inv(s) && c.CreateTask? && Commits(s, c, env)
    ensures Inv(Apply(s, Decide(s, c, env))) && Grows(s, Apply(s, Decide(s, c, env)))
  {
    hide TasksOk, PublicIdsUnique, LogsOk, MessagesOk, LinksOk, GrantsOk, ArtifactsOk, SubmissionsOk, HeadsOk, ReceiptsOk;
    hide CommandsOk, EffectsOk, ValidCommand, CreateRefusal, CreateDelta, KeyOf, Grows, Apply;
    CreateKeepsInv(s, c, env);
    CreateGrows(s, c, env);
  }

  lemma {:induction false} TransitionCommit(s: StoreState, c: Command, env: Env)
    requires Inv(s) && IsTransition(c) && Commits(s, c, env)
    ensures Inv(Apply(s, Decide(s, c, env))) && Grows(s, Apply(s, Decide(s, c, env)))
  {
    hide TasksOk, PublicIdsUnique, LogsOk, MessagesOk, LinksOk, GrantsOk, ArtifactsOk, SubmissionsOk, HeadsOk, ReceiptsOk;
    hide CommandsOk, EffectsOk, ValidCommand, KeyOf, Grows, Apply, TransitionDelta, TransitionWrites, Admits, PlanOf, TransitionRefusal;
    var p := PlanOf(c);
    PlanOfValid(c);
    Admission(s, p, env);
    SettledRefs(s, p);
    var now := TransitionTime(s, p, env);
    TransitionApplied(s, p, c, env);
    TransitionKeepsInv(s, Apply(s, TransitionDelta(s, p, c, env)), p, c, env.sealedSize, now);
    TransitionGrows(s, Apply(s, TransitionDelta(s, p, c, env)), p, c, env.sealedSize, now);
  }

  lemma {:induction false} SettledRefs(s: StoreState, p: Plan)
    requires TasksOk(s.tasks) && ArtifactsOk(s.tasks, s.artifacts, s.heads) && p.task in s.tasks
    requires var settled := SettledArtifact(p, s.tasks[p.task].task); settled.Some? ==> Frozen(s, settled.value, p.task)
    ensures s.tasks[p.task].task.ref == p.task
    ensures var settled := SettledArtifact(p, s.tasks[p.task].task);
            settled.Some? ==> s.artifacts[settled.value].artifact.ref == settled.value
  {
    assert TaskRowOk(p.task, s.tasks[p.task]);
    var settled := SettledArtifact(p, s.tasks[p.task].task);
    if settled.Some? {
      assert ArtifactRowOk(s.tasks, s.heads, settled.value, s.artifacts[settled.value]);
    }
  }

  lemma {:induction false} FreezeAdmission(s: StoreState, c: Command, env: Env)
    requires c.FreezeArtifact? && FreezeRefusal(s, c, env).None? && TasksOk(s.tasks)
    ensures c.task in s.tasks && s.tasks[c.task].task.ref == c.task
    ensures var now := AtLeast(env.clock, s.tasks[c.task].task.updatedAt);
            && FreezeAdmits(c, s.tasks[c.task], now)
            && SealFits(env.sealedSize, MAX_STORED_ARTIFACT_BYTES) && !ArtifactTaken(s.artifacts, FrozenArtifact(c, now))
            && (c.task.workspace in s.heads ==> s.heads[c.task.workspace].confirmedRevision == c.expectedBase)
  {
    assert TaskRowOk(c.task, s.tasks[c.task]);
  }

  lemma {:induction false} FreezeApplied(s: StoreState, c: Command, env: Env)
    requires c.FreezeArtifact? && c.task in s.tasks && s.tasks[c.task].task.ref == c.task
    ensures FreezeWrites(s, Apply(s, FreezeDelta(s, c, env)), c, env.sealedSize,
                         AtLeast(env.clock, s.tasks[c.task].task.updatedAt))
  {}

  lemma {:induction false} FreshArtifact(s: StoreState, a: Artifact)
    requires ArtifactsOk(s.tasks, s.artifacts, s.heads) && !ArtifactTaken(s.artifacts, a)
    ensures a.ref !in s.artifacts
  {
    assert forall ref | ref in s.artifacts :: ArtifactRowOk(s.tasks, s.heads, ref, s.artifacts[ref]);
  }

  lemma {:induction false} FreezeCommit(s: StoreState, c: Command, env: Env)
    requires Inv(s) && c.FreezeArtifact? && Commits(s, c, env)
    ensures Inv(Apply(s, Decide(s, c, env))) && Grows(s, Apply(s, Decide(s, c, env)))
  {
    hide TasksOk, PublicIdsUnique, LogsOk, MessagesOk, LinksOk, GrantsOk, ArtifactsOk, SubmissionsOk, HeadsOk, ReceiptsOk;
    hide CommandsOk, EffectsOk, ValidCommand, KeyOf, Grows, Apply, FreezeDelta, FreezeWrites, FreezeAdmits, FrozenArtifact;
    hide FreezeRefusal, ArtifactTaken;
    FreezeAdmission(s, c, env);
    var now := AtLeast(env.clock, s.tasks[c.task].task.updatedAt);
    FreezeApplied(s, c, env);
    FreshArtifact(s, FrozenArtifact(c, now));
    FreezeKeepsInv(s, Apply(s, FreezeDelta(s, c, env)), c, env.sealedSize, now);
    FreezeGrows(s, Apply(s, FreezeDelta(s, c, env)), c, env.sealedSize, now);
  }

  lemma {:induction false} FreshGrant(s: StoreState, ref: TaskRef, fence: nat)
    requires ref in s.tasks && GrantsOk(s.tasks, s.grants) && s.tasks[ref].lease.fence < fence
    ensures LeaseKey(ref, fence) !in s.grants
  {
    assert forall key | key in s.grants :: GrantRowOk(s.tasks, s.grants, key);
  }

  lemma {:induction false} GrantCommit(s: StoreState, c: Command, ref: TaskRef, worker: Id, env: Env)
    requires Inv(s) && ValidCommand(c) && ValidId(worker) && KeyOf(c) !in s.commands && GrantsTo(c, ref, worker)
    requires ref in s.tasks && s.tasks[ref].lease.owner == "" && !s.tasks[ref].task.state.Terminal()
    requires s.tasks[ref].lease.fence < MAX_INT64 && ValidTime(env.clock)
    ensures var s' := Apply(s, GrantDelta(s, c, s.tasks[ref], worker, env)); Inv(s') && Grows(s, s')
  {
    hide TasksOk, PublicIdsUnique, LogsOk, MessagesOk, LinksOk, GrantsOk, ArtifactsOk, SubmissionsOk, HeadsOk, ReceiptsOk;
    hide CommandsOk, EffectsOk, ValidCommand, Grows, Apply, GrantDelta, LeaseWrites, Extends, LastGrantedAt, GrantTime;
    var g := GrantRecord(LeaseGrant(ref, worker, s.tasks[ref].lease.fence + 1), GrantTime(s, s.tasks[ref], env));
    var s' := Apply(s, GrantDelta(s, c, s.tasks[ref], worker, env));
    GrantMoment(s, ref, env);
    GrantApplied(s, c, ref, worker, env);
    FreshGrant(s, ref, g.grant.fence);
    InsertExtends(s.grants, g.Key(), g);
    GrantKeepsInv(s, s', c, g);
    LeaseGrows(s, s', ref, LeaseState(worker, g.grant.fence), s.grants[g.Key() := g],
               GrantDelta(s, c, s.tasks[ref], worker, env).command);
  }

  lemma {:induction false} FenceAdmission(s: StoreState, c: Command, env: Env)
    requires c.FenceLease? && FenceRefusal(s, c, env).None? && TasksOk(s.tasks)
    ensures var g := c.grant;
            && g.task in s.tasks && s.tasks[g.task].task.ref == g.task && ValidTime(env.clock)
            && GrantRecorded(s.grants, g) && s.tasks[g.task].lease == LeaseState(g.worker, g.fence)
            && (g.worker != "" ==> RecordGrows(s.tasks[g.task], s.tasks[g.task].(lease := LeaseState("", g.fence))))
  {
    assert TaskRowOk(c.grant.task, s.tasks[c.grant.task]);
  }

  lemma {:induction false} FencedWorker(c: Command)
    requires c.FenceLease? && ValidCommand(c)
    ensures c.grant.worker != ""
  {}

  lemma {:induction false} FenceCommit(s: StoreState, c: Command, env: Env)
    requires Inv(s) && c.FenceLease? && Commits(s, c, env)
    ensures Inv(Apply(s, Decide(s, c, env))) && Grows(s, Apply(s, Decide(s, c, env)))
  {
    hide TasksOk, PublicIdsUnique, LogsOk, MessagesOk, LinksOk, GrantsOk, ArtifactsOk, SubmissionsOk, HeadsOk, ReceiptsOk;
    hide CommandsOk, EffectsOk, ValidCommand, Grows, Apply, FenceDelta, LeaseWrites, FenceRefusal, RecordGrows;
    FencedWorker(c);
    var g := c.grant;
    FenceAdmission(s, c, env);
    FenceApplied(s, c, env);
    FenceKeepsInv(s, Apply(s, FenceDelta(s, c, env)), c, env.clock);
    SameExtends(s.grants);
    LeaseGrows(s, Apply(s, FenceDelta(s, c, env)), g.task, LeaseState("", g.fence), s.grants, RecordOf(c, GrantAnswer(g), env.clock));
  }

  lemma {:induction false} FenceApplied(s: StoreState, c: Command, env: Env)
    requires c.FenceLease? && c.grant.task in s.tasks && s.tasks[c.grant.task].task.ref == c.grant.task
    ensures LeaseWrites(s, Apply(s, FenceDelta(s, c, env)), c.grant.task, LeaseState("", c.grant.fence), s.grants,
                        RecordOf(c, GrantAnswer(c.grant), env.clock))
  {}

  lemma {:induction false} ReceiptCommit(s: StoreState, c: Command, env: Env)
    requires Inv(s) && c.RecordApplyReceipt? && Commits(s, c, env)
    ensures Inv(Apply(s, Decide(s, c, env))) && Grows(s, Apply(s, Decide(s, c, env)))
  {
    hide TasksOk, PublicIdsUnique, LogsOk, MessagesOk, LinksOk, GrantsOk, ArtifactsOk, SubmissionsOk, HeadsOk, ReceiptsOk;
    hide CommandsOk, EffectsOk, ValidCommand, Grows, ArtifactRowOk, ReceiptRowOk, KeyOf, ReceiptTaken, HeadsGrow, Extends;
    var a := s.artifacts[c.artifactRef].artifact;
    var now := ReceiptTime(a, env);
    var s' := Apply(s, Decide(s, c, env));
    ReceiptMoment(s, c, env);
    if c.artifactRef in s.receipts {
      KnownReceiptKeepsInv(s, s', c, now);
      SameExtends(s.receipts);
      SameHeadsGrow(s.heads);
    } else {
      ReceiptRow(s, s'.heads, c, now);
      NewReceiptKeepsInv(s, s', c, now);
      InsertExtends(s.receipts, c.artifactRef, ReceiptOf(c, now));
      HeadSteps(s, s', c, now);
    }
    ReceiptGrows(s, s', Decide(s, c, env).command);
  }

  lemma {:induction false} SameHeadsGrow(heads: Heads)
    ensures HeadsGrow(heads, heads)
  {}

  // ---- One execution

  lemma {:induction false} CommitKeeps(s: StoreState, c: Command, env: Env)
    requires Inv(s) && Commits(s, c, env)
    ensures Inv(Apply(s, Decide(s, c, env))) && Grows(s, Apply(s, Decide(s, c, env)))
  {
    hide Inv, Grows, Apply, GrantDelta, CreateDelta, FreezeDelta, FenceDelta, ReceiptDelta, TransitionDelta;
    hide TransitionRefusal, ReceiptRefusal, FreezeRefusal, FenceRefusal, CreateRefusal;
    match c
    case CreateTask(_, _, _, _) => CreateCommit(s, c, env);
    case FreezeArtifact(_, _, _, _, _) => FreezeCommit(s, c, env);
    case AcquireLease(_, _, _) => GrantCommit(s, c, c.task, c.worker, env);
    case ClaimLease(_, _, _) => GrantCommit(s, c, ClaimedTask(s, c.authority).value, c.worker, env);
    case FenceLease(_, _) => FenceCommit(s, c, env);
    case RecordApplyReceipt(_, _, _, _, _, _, _, _, _, _) => ReceiptCommit(s, c, env);
    case _ => TransitionCommit(s, c, env);
  }

  /** Whatever a command is told, it leaves a sound store that has lost nothing. */
  lemma {:induction false} ExecuteKeeps(s: StoreState, c: Command, env: Env)
    requires Inv(s)
    ensures Inv(Execute(s, c, env).state) && Grows(s, Execute(s, c, env).state)
  {
    hide Inv, Grows, Refusal, Decide, Apply, KeyOf, ValidCommand;
    if Commits(s, c, env) {
      CommitKeeps(s, c, env);
    } else {
      GrowsReflexive(s);
    }
  }
}
