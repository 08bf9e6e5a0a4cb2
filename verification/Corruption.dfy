/** When a command may report a corrupt store. Reachable stores are sound, yet one
lease check answers a mistaken caller with the corruption error. */
module Corruption {
  import opened Types
  import opened Validators
  import opened Store
  import opened Commands
  import opened Invariant
  import opened Runs
  import opened Growth
  import opened Fencing

  /** The command acts under a fence of an existing Task that was granted to somebody
  else, and makes the lease check that answers this with the corruption error. */
  predicate ForeignFence(s: StoreState, c: Command) {
    && (c.FenceLease? || IsTransition(c)) && Carries(c).Some?
    && var g := Carries(c).value;
       && g.task in s.tasks && LeaseKey(g.task, g.fence) in s.grants
       && s.grants[LeaseKey(g.task, g.fence)].grant.worker != g.worker
  }

  /** Such a command also passes the checks made before its lease check. */
  predicate PresentsForeignFence(s: StoreState, c: Command, env: Env) {
    && ValidCommand(c) && KeyOf(c) !in s.commands && ForeignFence(s, c)
    && (IsTransition(c) && PlanOf(c).message.Some? ==> SealFits(env.sealedSize, MAX_PAGE_BYTES))
  }

  /** A fence stays foreign however the store grows. */
  lemma {:induction false} ForeignFenceStays(s: StoreState, s': StoreState, c: Command)
    requires ForeignFence(s, c) && Grows(s, s')
    ensures ForeignFence(s', c)
  {
    hide Carries, LogsGrow, ArtifactsGrow, HeadsGrow;
  }

  lemma {:induction false} RecordedGrant(s: StoreState, g: LeaseGrant)
    requires GrantsOk(s.tasks, s.grants) && LeaseKey(g.task, g.fence) in s.grants
    ensures s.grants[LeaseKey(g.task, g.fence)].grant == g <==> s.grants[LeaseKey(g.task, g.fence)].grant.worker == g.worker
  {
    assert GrantRowOk(s.tasks, s.grants, LeaseKey(g.task, g.fence));
  }

  lemma {:induction false} OnlyLeaseChecksReport(s: StoreState, c: Command, env: Env)
    requires Refusal(s, c, env) == Some(CorruptStore)
    ensures c.FenceLease? || (IsTransition(c) && PlanOf(c).grant.Some?)
    ensures IsTransition(c) ==> EarlyRefusal(s, PlanOf(c), env) == Some(CorruptStore)
  {}

  lemma {:induction false} TransitionReports(s: StoreState, c: Command, env: Env)
    requires IsTransition(c) && ValidCommand(c) && GrantsOk(s.tasks, s.grants) && KeyOf(c) !in s.commands
    ensures EarlyRefusal(s, PlanOf(c), env) == Some(CorruptStore) <==> PresentsForeignFence(s, c, env)
  {
    hide GrantsOk, KeyOf;
    if PlanOf(c).grant.Some? && LeaseKey(PlanOf(c).task, PlanOf(c).grant.value.fence) in s.grants {
      RecordedGrant(s, PlanOf(c).grant.value);
    }
  }

  lemma {:induction false} FenceReports(s: StoreState, c: Command, env: Env)
    requires c.FenceLease? && ValidCommand(c) && GrantsOk(s.tasks, s.grants) && KeyOf(c) !in s.commands
    ensures FenceRefusal(s, c, env) == Some(CorruptStore) <==> PresentsForeignFence(s, c, env)
  {
    if LeaseKey(c.grant.task, c.grant.fence) in s.grants {
      RecordedGrant(s, c.grant);
    }
  }

  /** In a reachable store, the corruption error means exactly that the caller
  presented a fence granted to another worker. */
  lemma {:induction false} CorruptionMeansForeignFence(s: StoreState, c: Command, env: Env)
    requires Reachable(s)
    ensures Execute(s, c, env).answer == Err(CorruptStore) <==> PresentsForeignFence(s, c, env)
  {
    hide ValidCommand, KeyOf, Refusal, Decide, Apply, Carries, PlanOf, Reachable, GrantsOk;
    hide TasksOk, PublicIdsUnique, LogsOk, MessagesOk, LinksOk, ArtifactsOk, SubmissionsOk, ReceiptsOk, CommandsOk, EffectsOk;
    ReachableInv(s);
    if ValidCommand(c) && KeyOf(c) !in s.commands {
      RefusalReports(s, c, env);
    }
  }

  lemma {:induction false} RefusalReports(s: StoreState, c: Command, env: Env)
    requires ValidCommand(c) && GrantsOk(s.tasks, s.grants) && KeyOf(c) !in s.commands
    ensures Refusal(s, c, env) == Some(CorruptStore) <==> PresentsForeignFence(s, c, env)
  {
    hide ValidCommand, KeyOf, GrantsOk, EarlyRefusal, FenceRefusal, PlanOf, SealFits;
    if Refusal(s, c, env) == Some(CorruptStore) {
      OnlyLeaseChecksReport(s, c, env);
    }
    if IsTransition(c) {
      TransitionReports(s, c, env);
    } else if c.FenceLease? {
      FenceReports(s, c, env);
    }
  }

  const SAMPLE_TASK: TaskRef := TaskRef(WorkspaceRef("a", "w"), "t")
  const SAMPLE_CREATE: Command :=
    CreateTask(Meta("c1", 0), SAMPLE_TASK, ContextRef("a", "x"), MessageInput("m", [Part("a/b", [1])]))
  const SAMPLE_ENV: Env := Env(0, 1, 1)

  /** Two commands reach a store in which an honest mistake of a third caller,
  worker v naming the fence of worker u, is reported as corruption. */
  lemma {:induction false} SoundStoreReportsCorruption()
    ensures var s := Run(EMPTY, [Action(SAMPLE_CREATE, SAMPLE_ENV),
                                 Action(AcquireLease("c2", SAMPLE_TASK, "u"), SAMPLE_ENV)]);
            && Reachable(s) && Inv(s)
            && Execute(s, AcceptTask(WorkerMeta("c3", 1, LeaseGrant(SAMPLE_TASK, "v", 1)), SAMPLE_TASK), SAMPLE_ENV)
               == Outcome(s, Err(CorruptStore))
  {
    hide Execute, Inv, Apply, CreateDelta, ValidCommand;
    var acquire := Action(AcquireLease("c2", SAMPLE_TASK, "u"), SAMPLE_ENV);
    var create := Action(SAMPLE_CREATE, SAMPLE_ENV);
    RunTwo(EMPTY, create, acquire);
    SampleCreated();
    SampleAcquired(Execute(EMPTY, SAMPLE_CREATE, SAMPLE_ENV).state);
    ReachableInv(Run(EMPTY, [create, acquire]));
    StrangerAccepts(Run(EMPTY, [create, acquire]));
  }

  lemma {:induction false} RunTwo(s: StoreState, a: Action, b: Action)
    ensures Run(s, [a, b]) == Execute(Execute(s, a.command, a.env).state, b.command, b.env).state
  {
    hide Execute;
    var next := Execute(s, a.command, a.env).state;
    assert [a, b][1..] == [b];
    assert Run(next, [b]) == Run(Execute(next, b.command, b.env).state, []);
  }

  lemma {:induction false} StrangerAccepts(s: StoreState)
    requires SAMPLE_TASK in s.tasks && LeaseKey(SAMPLE_TASK, 1) in s.grants && CommandKey("a", "c3") !in s.commands
    requires s.grants[LeaseKey(SAMPLE_TASK, 1)].grant == LeaseGrant(SAMPLE_TASK, "u", 1)
    ensures Execute(s, AcceptTask(WorkerMeta("c3", 1, LeaseGrant(SAMPLE_TASK, "v", 1)), SAMPLE_TASK), SAMPLE_ENV)
            == Outcome(s, Err(CorruptStore))
  {
    var c := AcceptTask(WorkerMeta("c3", 1, LeaseGrant(SAMPLE_TASK, "v", 1)), SAMPLE_TASK);
    assert ValidCommand(c);
    assert EarlyRefusal(s, PlanOf(c), SAMPLE_ENV) == Some(CorruptStore);
  }

  lemma {:induction false} SampleValid()
    ensures ValidCommand(SAMPLE_CREATE)
  {
    assert SAMPLE_CREATE.message.parts[1..] == [];
  }

  lemma {:induction false} SampleCreated()
    ensures ValidCommand(SAMPLE_CREATE)
    ensures Execute(EMPTY, SAMPLE_CREATE, SAMPLE_ENV).state == Apply(EMPTY, CreateDelta(SAMPLE_CREATE, SAMPLE_ENV))
  {
    hide ValidCommand;
    SampleValid();
    assert CreateRefusal(EMPTY, SAMPLE_CREATE, SAMPLE_ENV).None?;
  }

  lemma {:induction false} SampleAcquired(s: StoreState)
    requires s == Apply(EMPTY, CreateDelta(SAMPLE_CREATE, SAMPLE_ENV))
    ensures var s2 := Execute(s, AcquireLease("c2", SAMPLE_TASK, "u"), SAMPLE_ENV).state;
            && SAMPLE_TASK in s2.tasks && LeaseKey(SAMPLE_TASK, 1) in s2.grants
            && s2.grants[LeaseKey(SAMPLE_TASK, 1)].grant == LeaseGrant(SAMPLE_TASK, "u", 1)
            && CommandKey("a", "c3") !in s2.commands
  {
    var c := AcquireLease("c2", SAMPLE_TASK, "u");
    assert s.tasks[SAMPLE_TASK].lease == LeaseState("", 0) && s.tasks[SAMPLE_TASK].task.ref == SAMPLE_TASK;
    assert ValidCommand(c);
    assert Refusal(s, c, SAMPLE_ENV) == AcquireRefusal(s, c, SAMPLE_ENV) == None;
    assert KeyOf(c) !in s.commands;
    assert Execute(s, c, SAMPLE_ENV).state == Apply(s, GrantDelta(s, c, s.tasks[SAMPLE_TASK], "u", SAMPLE_ENV));
  }
}
