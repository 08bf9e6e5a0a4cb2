/** Ambiguous commits. An Update may be lost before it reaches the store, or
commit and lose its acknowledgement; both are reported as commit-unknown. */
module Ambiguity {
  import opened Types
  import opened Validators
  import opened Store
  import opened Commands
  import opened Invariant
  import opened Growth
  import opened Commit
  import opened Runs

  datatype Fault = Faultless | Lost | Unacknowledged

  datatype Attempt = Attempt(action: Action, fault: Fault)

  ghost function Try(s: StoreState, a: Attempt): Outcome {
    var o := Execute(s, a.action.command, a.action.env);
    match a.fault
    case Faultless => o
    case Lost => Outcome(s, Err(StoreCommitUnknown))
    case Unacknowledged => if o.answer.Ok? then Outcome(o.state, Err(StoreCommitUnknown)) else o
  }

  ghost function TryAll(s: StoreState, attempts: seq<Attempt>): StoreState
    decreases |attempts|
  {
    if attempts == [] then s else TryAll(Try(s, attempts[0]).state, attempts[1..])
  }

  ghost function Answers(s: StoreState, attempts: seq<Attempt>): (r: seq<Result<Answer>>)
    ensures |r| == |attempts|
    decreases |attempts|
  {
    if attempts == [] then []
    else [Try(s, attempts[0]).answer] + Answers(Try(s, attempts[0]).state, attempts[1..])
  }

  /** The attempts that wrote something, as a fault-free run. */
  ghost function Effective(s: StoreState, attempts: seq<Attempt>): seq<Action>
    decreases |attempts|
  {
    if attempts == [] then []
    else
      var a := attempts[0].action;
      var rest := Effective(Try(s, attempts[0]).state, attempts[1..]);
      if !attempts[0].fault.Lost? && Commits(s, a.command, a.env) then [a] + rest else rest
  }

  lemma {:induction false} TryEffect(s: StoreState, a: Attempt)
    ensures Try(s, a).state ==
            if !a.fault.Lost? && Commits(s, a.action.command, a.action.env)
            then Execute(s, a.action.command, a.action.env).state else s
    ensures Commits(s, a.action.command, a.action.env) ==>
              KeyOf(a.action.command) !in s.commands && Execute(s, a.action.command, a.action.env).answer.Ok?
  {}

  lemma {:induction false} TryKeeps(s: StoreState, a: Attempt)
    requires Inv(s)
    ensures Inv(Try(s, a).state) && Grows(s, Try(s, a).state)
  {
    hide Inv, Grows, Commits, Execute, KeyOf, Try;
    TryEffect(s, a);
    ExecuteKeeps(s, a.action.command, a.action.env);
    GrowsReflexive(s);
  }

  /** Faults lead to no store that a fault-free run does not reach. */
  lemma {:induction false} TryReachable(s: StoreState, a: Attempt)
    requires Reachable(s)
    ensures Reachable(Try(s, a).state)
  {
    hide Execute, Commits, KeyOf, Try;
    TryEffect(s, a);
    var actions: seq<Action> :| Run(EMPTY, actions) == s;
    RunAppend(EMPTY, actions, [a.action]);
    assert Run(s, [a.action]) == Run(Execute(s, a.action.command, a.action.env).state, []);
    assert Reachable(Run(EMPTY, actions + [a.action]));
  }

  /** Every command of the fault-free run commits when its turn comes. */
  ghost predicate AllCommit(s: StoreState, actions: seq<Action>)
    decreases |actions|
  {
    actions == [] ||
    (&& Commits(s, actions[0].command, actions[0].env)
     && AllCommit(Execute(s, actions[0].command, actions[0].env).state, actions[1..]))
  }

  lemma {:induction false} EffectiveRun(s: StoreState, attempts: seq<Attempt>)
    ensures Run(s, Effective(s, attempts)) == TryAll(s, attempts)
    ensures AllCommit(s, Effective(s, attempts))
    decreases |attempts|
  {
    hide Commits, Execute, KeyOf, Try;
    if attempts != [] {
      var a := attempts[0].action;
      var next := Try(s, attempts[0]).state;
      var rest := Effective(next, attempts[1..]);
      TryEffect(s, attempts[0]);
      EffectiveRun(next, attempts[1..]);
      if !attempts[0].fault.Lost? && Commits(s, a.command, a.env) {
        assert ([a] + rest)[1..] == rest;
        assert Run(s, [a] + rest) == Run(Execute(s, a.command, a.env).state, rest);
      }
    }
  }

  /** A run in which everything commits uses every identifier once. */
  lemma {:induction false} EffectiveKeysFresh(s: StoreState, actions: seq<Action>, i: nat)
    requires Inv(s) && AllCommit(s, actions) && i < |actions|
    ensures KeyOf(actions[i].command) !in s.commands
    decreases |actions|
  {
    hide Inv, Commits, Execute, KeyOf, TasksGrow, LogsGrow, ArtifactsGrow, HeadsGrow;
    var a := actions[0];
    CommitsMeans(s, a.command, a.env);
    if i > 0 {
      ExecuteKeeps(s, a.command, a.env);
      EffectiveKeysFresh(Execute(s, a.command, a.env).state, actions[1..], i - 1);
    }
  }

  lemma {:induction false} CommitsMeans(s: StoreState, c: Command, env: Env)
    requires Commits(s, c, env)
    ensures KeyOf(c) !in s.commands && Execute(s, c, env).answer.Ok?
    ensures Committed(Execute(s, c, env).state, c)
  {
    hide ValidCommand, KeyOf, Refusal, Decide;
    DecidedRecord(s, c, env);
  }

  lemma {:induction false} KeysCommitOnce(s: StoreState, actions: seq<Action>, i: nat, j: nat)
    requires Inv(s) && AllCommit(s, actions) && i < j < |actions|
    ensures KeyOf(actions[i].command) != KeyOf(actions[j].command)
    decreases |actions|
  {
    hide Inv, Commits, Execute, KeyOf, Grows;
    var a := actions[0];
    ExecuteKeeps(s, a.command, a.env);
    var next := Execute(s, a.command, a.env).state;
    if i > 0 {
      KeysCommitOnce(next, actions[1..], i - 1, j - 1);
    } else {
      CommitsMeans(s, a.command, a.env);
      EffectiveKeysFresh(next, actions[1..], j - 1);
      assert actions[1..][j - 1] == actions[j];
    }
  }

  /** A successful attempt answers from the receipt the store then holds. */
  lemma {:induction false} SuccessIsRecorded(s: StoreState, a: Attempt)
    requires Try(s, a).answer.Ok?
    ensures var c := a.action.command;
            && Committed(Try(s, a).state, c)
            && Try(s, a).state.commands[KeyOf(c)].answer == Try(s, a).answer.value
  {
    hide ValidCommand, KeyOf, Refusal, Decide, Apply;
    AnswerRecorded(s, a.action.command, a.action.env);
  }

  lemma {:induction false} AnswersAreReceipts(s: StoreState, attempts: seq<Attempt>, i: nat)
    requires Inv(s) && i < |attempts| && Answers(s, attempts)[i].Ok?
    ensures var c := attempts[i].action.command;
            var end := TryAll(s, attempts);
            Committed(end, c) && end.commands[KeyOf(c)].answer == Answers(s, attempts)[i].value
    decreases |attempts|
  {
    hide Inv, Grows, Try, KeyOf;
    var next := Try(s, attempts[0]).state;
    TryKeeps(s, attempts[0]);
    if i == 0 {
      SuccessIsRecorded(s, attempts[0]);
      TryAllKeeps(next, attempts[1..]);
      CommittedStays(next, TryAll(next, attempts[1..]), attempts[0].action.command);
    } else {
      AnswersAreReceipts(next, attempts[1..], i - 1);
    }
  }

  lemma {:induction false} CommittedStays(s: StoreState, s': StoreState, c: Command)
    requires Grows(s, s') && Committed(s, c)
    ensures Committed(s', c) && s'.commands[KeyOf(c)] == s.commands[KeyOf(c)]
  {
    hide TasksGrow, LogsGrow, ArtifactsGrow, HeadsGrow, KeyOf;
  }

  lemma {:induction false} TryAllKeeps(s: StoreState, attempts: seq<Attempt>)
    requires Inv(s)
    ensures Inv(TryAll(s, attempts)) && Grows(s, TryAll(s, attempts))
    decreases |attempts|
  {
    hide Inv, Grows, Try;
    if attempts == [] {
      GrowsReflexive(s);
    } else {
      TryKeeps(s, attempts[0]);
      TryAllKeeps(Try(s, attempts[0]).state, attempts[1..]);
      GrowsTransitive(s, Try(s, attempts[0]).state, TryAll(s, attempts));
    }
  }

  /** `run` is a fault-free account of `attempts`: it ends in the same store, every
  command in it succeeds, no identifier commits twice, and nothing was invented. */
  ghost predicate Accounts(attempts: seq<Attempt>, run: seq<Action>) {
    && Run(EMPTY, run) == TryAll(EMPTY, attempts)
    && AllCommit(EMPTY, run)
    && (forall i, j | 0 <= i < j < |run| :: KeyOf(run[i].command) != KeyOf(run[j].command))
    && (forall i | 0 <= i < |run| :: Attempted(attempts, run[i]))
  }

  ghost predicate Attempted(attempts: seq<Attempt>, a: Action) {
    exists j :: 0 <= j < |attempts| && attempts[j].action == a
  }

  /** Exactly once under ambiguity. However attempts are repeated, lost or left
  unacknowledged, the store ends where some fault-free run ends in which every
  command succeeds and no identifier commits twice. */
  lemma {:induction false} ExactlyOnce(attempts: seq<Attempt>)
    ensures exists run: seq<Action> :: Accounts(attempts, run)
  {
    hide KeyOf, Inv, Attempted, AllCommit, TryAll, Run;
    EmptyInv();
    var run := Effective(EMPTY, attempts);
    EffectiveRun(EMPTY, attempts);
    forall i, j | 0 <= i < j < |run| ensures KeyOf(run[i].command) != KeyOf(run[j].command) {
      KeysCommitOnce(EMPTY, run, i, j);
    }
    forall i | 0 <= i < |run| ensures Attempted(attempts, run[i]) {
      EffectiveIsAttempted(EMPTY, attempts, i);
    }
    assert Accounts(attempts, run);
  }

  /** All successful answers to one command are equal, however often and under
  whatever faults it is repeated. */
  lemma {:induction false} AnswersAgree(attempts: seq<Attempt>, i: nat, j: nat)
    requires i < |attempts| && j < |attempts| && attempts[i].action.command == attempts[j].action.command
    ensures var answers := Answers(EMPTY, attempts);
            answers[i].Ok? && answers[j].Ok? ==> answers[i] == answers[j]
  {
    hide KeyOf, Inv, TryAll;
    EmptyInv();
    var answers := Answers(EMPTY, attempts);
    if answers[i].Ok? && answers[j].Ok? {
      AnswersAreReceipts(EMPTY, attempts, i);
      AnswersAreReceipts(EMPTY, attempts, j);
    }
  }

  lemma {:induction false} EffectiveIsAttempted(s: StoreState, attempts: seq<Attempt>, i: nat)
    requires i < |Effective(s, attempts)|
    ensures Attempted(attempts, Effective(s, attempts)[i])
    decreases |attempts|
  {
    hide Commits, Try;
    var a := attempts[0].action;
    var next := Try(s, attempts[0]).state;
    var first := !attempts[0].fault.Lost? && Commits(s, a.command, a.env);
    if first && i == 0 {
      assert attempts[0].action == Effective(s, attempts)[i];
    } else {
      var k := if first then i - 1 else i;
      EffectiveIsAttempted(next, attempts[1..], k);
      var j :| 0 <= j < |attempts[1..]| && attempts[1..][j].action == Effective(next, attempts[1..])[k];
      assert attempts[j + 1].action == Effective(s, attempts)[i];
    }
  }

  // ---- The preflight read

  /** Commands that carry content look for their receipt in a separate read, seal
  the content, and only then enter the transaction. */
  predicate CarriesContent(c: Command) {
    c.CreateTask? || c.FreezeArtifact? || (IsTransition(c) && PlanOf(c).message.Some?)
  }

  predicate SealRefused(c: Command, env: Env) {
    if c.FreezeArtifact? then |c.payload.data| > env.maxArtifactBytes || !SealFits(env.sealedSize, MAX_STORED_ARTIFACT_BYTES)
    else !SealFits(env.sealedSize, MAX_PAGE_BYTES)
  }

  lemma {:induction false} RefusedSeal(s: StoreState, c: Command, env: Env)
    requires CarriesContent(c) && SealRefused(c, env)
    ensures Refusal(s, c, env) == Some(InvalidArgument)
  {}

  /** Preflight in the store `early`, transaction in the store `late`. */
  ghost function TwoPhase(early: StoreState, late: StoreState, c: Command, env: Env): Outcome {
    if !CarriesContent(c) || !ValidCommand(c) then Execute(late, c, env)
    else if KeyOf(c) in early.commands then Outcome(late, Execute(early, c, env).answer)
    else if SealRefused(c, env) then Outcome(late, Err(InvalidArgument))
    else Execute(late, c, env)
  }

  /** Whatever commits between the two phases, a command behaves as if it ran
  alone in one of them: in the later store, unless its own content was refused
  before it got there. */
  lemma {:induction false} PreflightIsInvisible(early: StoreState, between: seq<Action>, c: Command, env: Env)
    requires Reachable(early)
    ensures var late := Run(early, between);
            if CarriesContent(c) && ValidCommand(c) && KeyOf(c) !in early.commands && SealRefused(c, env)
            then TwoPhase(early, late, c, env) == Outcome(late, Execute(early, c, env).answer) && Execute(early, c, env).state == early
            else TwoPhase(early, late, c, env) == Execute(late, c, env)
  {
    hide Inv, Reachable, Decide, Apply, ValidCommand, KeyOf, TasksGrow, LogsGrow, ArtifactsGrow, HeadsGrow, Refusal;
    hide CarriesContent, SealRefused;
    ReachableInv(early);
    RunKeeps(early, between);
    if CarriesContent(c) && SealRefused(c, env) {
      RefusedSeal(early, c, env);
    }
  }
}
