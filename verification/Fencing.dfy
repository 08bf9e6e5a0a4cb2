/** Leases over whole runs: a grant that stops being current is dead. */
module Fencing {
  import opened Types
  import opened Validators
  import opened Store
  import opened Commands
  import opened Invariant
  import opened Growth
  import opened Commit
  import opened Runs

  predicate Current(s: StoreState, g: LeaseGrant) {
    g.task in s.tasks && s.tasks[g.task].lease == LeaseState(g.worker, g.fence)
  }

  /** Not current, and not to come: its fence is one the Task has already reached. */
  predicate Retired(s: StoreState, g: LeaseGrant) {
    g.worker != "" && g.task in s.tasks && g.fence <= s.tasks[g.task].lease.fence && !Current(s, g)
  }

  /** The grant a command acts under. */
  function Carries(c: Command): Option<LeaseGrant> {
    match c
    case FreezeArtifact(m, _, _, _, _) => Some(m.grant)
    case FenceLease(_, g) => Some(g)
    case _ => if IsTransition(c) then PlanOf(c).grant else None
  }

  lemma {:induction false} FencesBelow(s: StoreState, ref: TaskRef, fence: nat, f: nat)
    requires GrantsOk(s.tasks, s.grants) && LeaseKey(ref, fence) in s.grants && 1 <= f <= fence
    ensures LeaseKey(ref, f) in s.grants
    ensures s.grants[LeaseKey(ref, f)].grantedAt <= s.grants[LeaseKey(ref, fence)].grantedAt
    decreases fence
  {
    assert GrantRowOk(s.tasks, s.grants, LeaseKey(ref, fence));
    if f < fence {
      FencesBelow(s, ref, fence - 1, f);
    }
  }

  /** A Task's grants are exactly the fences from 1 to its lease fence, granted at
  non-decreasing times, and a holder is always the worker of the last grant. */
  lemma {:induction false} GrantHistory(s: StoreState, ref: TaskRef)
    requires Reachable(s) && ref in s.tasks
    ensures forall f: nat :: LeaseKey(ref, f) in s.grants <==> 1 <= f <= s.tasks[ref].lease.fence
    ensures forall f: nat | LeaseKey(ref, f) in s.grants ::
              s.grants[LeaseKey(ref, f)].grant == LeaseGrant(ref, s.grants[LeaseKey(ref, f)].grant.worker, f)
    ensures forall f: nat, g: nat | LeaseKey(ref, f) in s.grants && LeaseKey(ref, g) in s.grants && f <= g ::
              s.grants[LeaseKey(ref, f)].grantedAt <= s.grants[LeaseKey(ref, g)].grantedAt
    ensures s.tasks[ref].lease.owner != "" ==>
              && s.tasks[ref].lease.fence > 0
              && s.grants[LeaseKey(ref, s.tasks[ref].lease.fence)].grant.worker == s.tasks[ref].lease.owner
  {
    ReachableInv(s);
    GrantHistoryOf(s, ref);
  }

  lemma {:induction false} GrantHistoryOf(s: StoreState, ref: TaskRef)
    requires GrantsOk(s.tasks, s.grants) && ref in s.tasks
    ensures forall f: nat :: LeaseKey(ref, f) in s.grants <==> 1 <= f <= s.tasks[ref].lease.fence
    ensures forall f: nat | LeaseKey(ref, f) in s.grants ::
              s.grants[LeaseKey(ref, f)].grant == LeaseGrant(ref, s.grants[LeaseKey(ref, f)].grant.worker, f)
    ensures forall f: nat, g: nat | LeaseKey(ref, f) in s.grants && LeaseKey(ref, g) in s.grants && f <= g ::
              s.grants[LeaseKey(ref, f)].grantedAt <= s.grants[LeaseKey(ref, g)].grantedAt
    ensures s.tasks[ref].lease.owner != "" ==>
              && s.tasks[ref].lease.fence > 0
              && s.grants[LeaseKey(ref, s.tasks[ref].lease.fence)].grant.worker == s.tasks[ref].lease.owner
  {
    assert LeaseHeadOk(s.grants, ref, s.tasks[ref].lease);
    forall f: nat | LeaseKey(ref, f) in s.grants
      ensures 1 <= f <= s.tasks[ref].lease.fence
      ensures s.grants[LeaseKey(ref, f)].grant == LeaseGrant(ref, s.grants[LeaseKey(ref, f)].grant.worker, f)
    {
      assert GrantRowOk(s.tasks, s.grants, LeaseKey(ref, f));
    }
    forall f: nat | 1 <= f <= s.tasks[ref].lease.fence ensures LeaseKey(ref, f) in s.grants {
      FencesBelow(s, ref, s.tasks[ref].lease.fence, f);
    }
    forall f: nat, g: nat | LeaseKey(ref, f) in s.grants && LeaseKey(ref, g) in s.grants && f <= g
      ensures s.grants[LeaseKey(ref, f)].grantedAt <= s.grants[LeaseKey(ref, g)].grantedAt
    {
      FencesBelow(s, ref, g, f);
    }
  }

  /** Retirement is permanent. */
  lemma {:induction false} RetiredForever(s: StoreState, s': StoreState, g: LeaseGrant)
    requires Grows(s, s') && Retired(s, g)
    ensures Retired(s', g)
  {
    hide LogsGrow, ArtifactsGrow, HeadsGrow, Extends;
    assert RecordGrows(s.tasks[g.task], s'.tasks[g.task]);
  }

  /** A grant that was current and no longer is has retired. */
  lemma {:induction false} LosingALeaseRetiresIt(s: StoreState, s': StoreState, g: LeaseGrant)
    requires Grows(s, s') && g.worker != "" && Current(s, g) && !Current(s', g)
    ensures Retired(s', g)
  {
    hide LogsGrow, ArtifactsGrow, HeadsGrow, Extends;
    assert RecordGrows(s.tasks[g.task], s'.tasks[g.task]);
  }

  // ---- Who may take a lease away

  predicate Ends(c: Command, task: TaskRef) {
    match c
    case RejectTask(_, t) => t == task
    case CancelTask(_, t) => t == task
    case FailTask(_, t) => t == task
    case CompleteTask(_, t, _, _, _) => t == task
    case _ => false
  }

  predicate Releases(c: Command, g: LeaseGrant) {
    Ends(c, g.task) || (c.FenceLease? && c.grant == g)
  }

  /** Every way in which a commit changes the lease of a Task: a free Task is granted
  under the next fence, a holder is fenced by its own grant, a Task ends. */
  predicate LeaseMoves(c: Command, ref: TaskRef, before: LeaseState, after: LeaseState, answer: Answer) {
    || after == before
    || (&& (c.AcquireLease? || c.ClaimLease?) && before.owner == "" && after == LeaseState(c.worker, before.fence + 1)
        && answer.AssignmentAnswer? && answer.assignment.grant == LeaseGrant(ref, c.worker, before.fence + 1))
    || (after == LeaseState("", before.fence) && Releases(c, LeaseGrant(ref, before.owner, before.fence)))
  }

  lemma {:induction false} TransitionMovesLease(s: StoreState, p: Plan, c: Command, env: Env, ref: TaskRef)
    requires TasksOk(s.tasks) && TransitionRefusal(s, p, env).None? && ref in s.tasks
    ensures var tasks := Apply(s, TransitionDelta(s, p, c, env)).tasks;
            && ref in tasks
            && tasks[ref].lease == if ref == p.task && p.next.Terminal() then LeaseState("", s.tasks[ref].lease.fence) else s.tasks[ref].lease
  {
    hide KeyOf, LeaseRefusal, LateRefusal, LogAfter, SettledRow, EventOf, SubmissionOf;
    assert TaskRowOk(p.task, s.tasks[p.task]);
  }

  lemma {:induction false} PlanEnds(c: Command, task: TaskRef)
    ensures Ends(c, task) <==> IsTransition(c) && PlanOf(c).task == task && PlanOf(c).next.Terminal()
  {}

  lemma {:induction false} GrantMovesLease(s: StoreState, c: Command, env: Env, ref: TaskRef)
    requires TasksOk(s.tasks) && (c.AcquireLease? || c.ClaimLease?) && Refusal(s, c, env).None? && ref in s.tasks
    ensures var d := Decide(s, c, env);
            ref in Apply(s, d).tasks && LeaseMoves(c, ref, s.tasks[ref].lease, Apply(s, d).tasks[ref].lease, d.command.answer)
  {
    hide KeyOf, GrantTime, ValidTaskRecord;
    var granted := if c.AcquireLease? then c.task else ClaimedTask(s, c.authority).value;
    assert TaskRowOk(granted, s.tasks[granted]);
  }

  lemma {:induction false} FenceMovesLease(s: StoreState, c: Command, env: Env, ref: TaskRef)
    requires TasksOk(s.tasks) && c.FenceLease? && FenceRefusal(s, c, env).None? && ref in s.tasks
    ensures var d := FenceDelta(s, c, env);
            && ref in Apply(s, d).tasks
            && LeaseMoves(c, ref, s.tasks[ref].lease, Apply(s, d).tasks[ref].lease, d.command.answer)
            && (c.grant.task == ref ==> Apply(s, d).tasks[ref].lease.owner == "")
  {
    hide KeyOf;
    assert TaskRowOk(c.grant.task, s.tasks[c.grant.task]);
  }

  lemma {:induction false} FreezeMovesNoLease(s: StoreState, c: Command, env: Env, ref: TaskRef)
    requires TasksOk(s.tasks) && c.FreezeArtifact? && c.task in s.tasks && ref in s.tasks
    ensures var tasks := Apply(s, FreezeDelta(s, c, env)).tasks; ref in tasks && tasks[ref].lease == s.tasks[ref].lease
  {
    hide KeyOf, LogAfter, FrozenArtifact;
    assert TaskRowOk(c.task, s.tasks[c.task]);
  }

  lemma {:induction false} OthersMoveNoLease(s: StoreState, c: Command, env: Env, ref: TaskRef)
    requires TasksOk(s.tasks) && (c.CreateTask? || c.FreezeArtifact? || c.RecordApplyReceipt?) && Refusal(s, c, env).None? && ref in s.tasks
    ensures var tasks := Apply(s, Decide(s, c, env)).tasks; ref in tasks && tasks[ref].lease == s.tasks[ref].lease
  {
    hide KeyOf, ReceiptTaken, SameReceiptDecision, LogAfter, TasksOk;
    if c.FreezeArtifact? {
      FreezeMovesNoLease(s, c, env, ref);
      hide FreezeDelta, Apply;
    } else if c.CreateTask? {
      hide ReceiptDelta;
    } else {
      hide CreateDelta, CreateRefusal;
      ReceiptMovesNoTask(s, c, env);
      hide ReceiptDelta, Apply;
    }
  }

  lemma {:induction false} ReceiptMovesNoTask(s: StoreState, c: Command, env: Env)
    requires c.RecordApplyReceipt? && c.artifactRef in s.artifacts
    ensures Apply(s, ReceiptDelta(s, c, env)).tasks == s.tasks
  {
    hide KeyOf, ReceiptTime;
  }

  lemma {:induction false} CommitMovesLease(s: StoreState, c: Command, env: Env, ref: TaskRef)
    requires TasksOk(s.tasks) && Commits(s, c, env) && ref in s.tasks
    ensures var after := Apply(s, Decide(s, c, env)).tasks;
            && ref in after
            && LeaseMoves(c, ref, s.tasks[ref].lease, after[ref].lease, Decide(s, c, env).command.answer)
            && (Ends(c, ref) || (c.FenceLease? && c.grant.task == ref) ==> after[ref].lease.owner == "")
  {
    hide ValidCommand, KeyOf, TasksOk, Apply, TransitionRefusal, TransitionDelta, FenceRefusal, FenceDelta, PlanOf, LeaseMoves, Ends;
    hide CreateRefusal, FreezeRefusal, AcquireRefusal, ClaimRefusal, ReceiptRefusal, CreateDelta, FreezeDelta, GrantDelta, ReceiptDelta;
    PlanEnds(c, ref);
    if IsTransition(c) {
      TransitionMovesLease(s, PlanOf(c), c, env, ref);
      TransitionLease(s, c, ref, Apply(s, Decide(s, c, env)).tasks[ref].lease, Decide(s, c, env).command.answer);
    } else if c.FenceLease? {
      FenceMovesLease(s, c, env, ref);
    } else if c.AcquireLease? || c.ClaimLease? {
      GrantMovesLease(s, c, env, ref);
    } else {
      OthersMoveNoLease(s, c, env, ref);
      SameLease(c, ref, s.tasks[ref].lease, Decide(s, c, env).command.answer);
    }
  }

  lemma {:induction false} SameLease(c: Command, ref: TaskRef, lease: LeaseState, answer: Answer)
    ensures LeaseMoves(c, ref, lease, lease, answer)
  {}

  lemma {:induction false} TransitionLease(s: StoreState, c: Command, ref: TaskRef, after: LeaseState, answer: Answer)
    requires ref in s.tasks
    requires after == if Ends(c, ref) then LeaseState("", s.tasks[ref].lease.fence) else s.tasks[ref].lease
    ensures LeaseMoves(c, ref, s.tasks[ref].lease, after, answer)
  {
    hide Ends;
  }

  /** A held lease is exclusive: its grant stops being current exactly when a commit
  fences that grant or ends its Task. */
  lemma {:induction false} LeaseIsExclusive(s: StoreState, c: Command, env: Env, g: LeaseGrant)
    requires Reachable(s) && Current(s, g) && g.worker != ""
    ensures !Current(Execute(s, c, env).state, g) <==> Commits(s, c, env) && Releases(c, g)
  {
    hide ValidCommand, KeyOf, Refusal, Decide, Apply, Reachable, Inv, Ends;
    ReachableInv(s);
    SoundTasks(s);
    if Commits(s, c, env) {
      CommitMovesLease(s, c, env, g.task);
      if c.FenceLease? {
        FenceNeedsCurrent(s, c, env);
      }
    }
  }

  lemma {:induction false} SoundTasks(s: StoreState)
    requires Inv(s)
    ensures TasksOk(s.tasks)
  {}

  lemma {:induction false} FenceNeedsCurrent(s: StoreState, c: Command, env: Env)
    requires Commits(s, c, env) && c.FenceLease?
    ensures Current(s, c.grant)
  {
    hide ValidCommand, KeyOf;
  }

  /** Over a whole run, a lost grant was fenced by itself or its Task was ended, by a
  command of the run that committed while the grant was still current. */
  lemma {:induction false} LeaseLostInRun(s: StoreState, g: LeaseGrant, actions: seq<Action>) returns (i: nat)
    requires Reachable(s) && Current(s, g) && g.worker != "" && !Current(Run(s, actions), g)
    ensures i < |actions| && Current(Run(s, actions[..i]), g)
    ensures Commits(Run(s, actions[..i]), actions[i].command, actions[i].env) && Releases(actions[i].command, g)
    decreases |actions|
  {
    hide Execute, Commits, Current, Reachable;
    var a := actions[0];
    var next := Execute(s, a.command, a.env).state;
    assert Run(s, actions[..0]) == s;
    if !Current(next, g) {
      LeaseIsExclusive(s, a.command, a.env, g);
      i := 0;
    } else {
      NextReachable(s, a);
      var k := LeaseLostInRun(next, g, actions[1..]);
      i := k + 1;
      assert actions[..i][1..] == actions[1..][..k];
    }
  }

  lemma {:induction false} NextReachable(s: StoreState, a: Action)
    requires Reachable(s)
    ensures Reachable(Execute(s, a.command, a.env).state)
  {
    hide Execute;
    var actions: seq<Action> :| Run(EMPTY, actions) == s;
    RunAppend(EMPTY, actions, [a]);
    assert Run(s, [a]) == Run(Execute(s, a.command, a.env).state, []);
    assert Run(EMPTY, actions + [a]) == Execute(s, a.command, a.env).state;
  }

  lemma {:induction false} CommitsOnlyUnderCurrent(s: StoreState, c: Command, env: Env)
    requires Commits(s, c, env) && Carries(c).Some?
    ensures Current(s, Carries(c).value)
  {}

  lemma {:induction false} NewRecordOnly(s: StoreState, c: Command, env: Env, key: CommandKey)
    requires key in Execute(s, c, env).state.commands && key !in s.commands
    ensures Commits(s, c, env) && Execute(s, c, env).state.commands[key].intent == c
  {
    hide Refusal, ValidCommand, Decide, KeyOf;
    if Commits(s, c, env) {
      DecidedRecord(s, c, env);
    }
  }

  /** No command recorded after a grant retired acts under that grant, whoever
  sends it and however the run continues. */
  lemma {:induction false} RetiredNeverCommits(s: StoreState, g: LeaseGrant, actions: seq<Action>, key: CommandKey)
    requires Reachable(s) && Retired(s, g)
    ensures key in Run(s, actions).commands && key !in s.commands ==>
              Carries(Run(s, actions).commands[key].intent) != Some(g)
  {
    hide Inv, Reachable, Retired, Carries, Run;
    ReachableInv(s);
    if key in Run(s, actions).commands && key !in s.commands {
      NoRecordUnderRetired(s, g, actions, key);
    }
  }

  lemma {:induction false} NoRecordUnderRetired(s: StoreState, g: LeaseGrant, actions: seq<Action>, key: CommandKey)
    requires Inv(s) && Retired(s, g)
    requires key in Run(s, actions).commands && key !in s.commands
    ensures Carries(Run(s, actions).commands[key].intent) != Some(g)
    decreases |actions|
  {
    hide Inv, Grows, Execute, Carries, Commits, Retired, Current;
    if actions != [] {
      var a := actions[0];
      var next := Execute(s, a.command, a.env).state;
      ExecuteKeeps(s, a.command, a.env);
      RetiredForever(s, next, g);
      if key in next.commands {
        RunKeeps(next, actions[1..]);
        FirstRecordUnderRetired(s, g, a, Run(next, actions[1..]), key);
      } else {
        NoRecordUnderRetired(next, g, actions[1..], key);
      }
    }
  }

  lemma {:induction false} FirstRecordUnderRetired(s: StoreState, g: LeaseGrant, a: Action, end: StoreState, key: CommandKey)
    requires Retired(s, g) && Grows(Execute(s, a.command, a.env).state, end)
    requires key in Execute(s, a.command, a.env).state.commands && key !in s.commands
    ensures key in end.commands && Carries(end.commands[key].intent) != Some(g)
  {
    hide Execute, Commits, Carries, TasksGrow, LogsGrow, ArtifactsGrow, HeadsGrow;
    NewRecordOnly(s, a.command, a.env, key);
    if Carries(a.command) == Some(g) {
      CommitsOnlyUnderCurrent(s, a.command, a.env);
    }
  }

  /** A command under a retired grant that was not already committed is refused,
  now and after any further run, and changes nothing. */
  lemma {:induction false} RetiredIsRefused(s: StoreState, c: Command, actions: seq<Action>, env: Env)
    requires Reachable(s) && Carries(c).Some? && Retired(s, Carries(c).value) && !Committed(s, c)
    ensures var t := Run(s, actions); Execute(t, c, env).state == t && Execute(t, c, env).answer.Err?
  {
    hide Inv, Grows, Carries, Refusal, Decide, ValidCommand, Apply, Retired, Current, Reachable;
    ReachableInv(s);
    var g, t := Carries(c).value, Run(s, actions);
    RunKeeps(s, actions);
    RetiredForever(s, t, g);
    if Commits(t, c, env) {
      CommitsOnlyUnderCurrent(t, c, env);
      StillRetired(t, g);
    }
    if Committed(t, c) {
      StillUncommitted(s, t, c);
      NoRecordUnderRetired(s, g, actions, KeyOf(c));
    }
  }

  lemma {:induction false} StillRetired(s: StoreState, g: LeaseGrant)
    requires Retired(s, g)
    ensures !Current(s, g)
  {}

  lemma {:induction false} StillUncommitted(s: StoreState, s': StoreState, c: Command)
    requires Grows(s, s') && !Committed(s, c) && Committed(s', c)
    ensures KeyOf(c) !in s.commands
  {
    hide KeyOf, TasksGrow, LogsGrow, ArtifactsGrow, HeadsGrow;
  }
}
