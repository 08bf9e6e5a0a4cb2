/** Whole runs: any sequence of public commands, under any clock and any seal
sizes, from the empty store. */
module Runs {
  import opened Types
  import opened Validators
  import opened Store
  import opened Commands
  import opened Invariant
  import opened Steps
  import opened Growth
  import opened Commit

  datatype Action = Action(command: Command, env: Env)

  ghost function Run(s: StoreState, actions: seq<Action>): StoreState
    decreases |actions|
  {
    if actions == [] then s
    else Run(Execute(s, actions[0].command, actions[0].env).state, actions[1..])
  }

  ghost predicate Reachable(s: StoreState) {
    exists actions: seq<Action> :: Run(EMPTY, actions) == s
  }

  lemma {:induction false} RunKeeps(s: StoreState, actions: seq<Action>)
    requires Inv(s)
    ensures Inv(Run(s, actions)) && Grows(s, Run(s, actions))
    decreases |actions|
  {
    hide Inv, Grows, Execute;
    if actions == [] {
      GrowsReflexive(s);
    } else {
      var next := Execute(s, actions[0].command, actions[0].env).state;
      ExecuteKeeps(s, actions[0].command, actions[0].env);
      RunKeeps(next, actions[1..]);
      GrowsTransitive(s, next, Run(next, actions[1..]));
    }
  }

  /** Every reachable store satisfies the whole invariant. */
  lemma {:induction false} ReachableInv(s: StoreState)
    requires Reachable(s)
    ensures Inv(s)
  {
    var actions :| Run(EMPTY, actions) == s;
    EmptyInv();
    RunKeeps(EMPTY, actions);
  }

  lemma {:induction false} RunAppend(s: StoreState, before: seq<Action>, after: seq<Action>)
    ensures Run(s, before + after) == Run(Run(s, before), after)
    decreases |before|
  {
    hide Execute;
    if before == [] {
      assert before + after == after;
    } else {
      var next := Execute(s, before[0].command, before[0].env).state;
      assert (before + after)[1..] == before[1..] + after;
      RunAppend(next, before[1..], after);
    }
  }

  // ---- Permanent exact replay

  lemma {:induction false} AnswerRecorded(s: StoreState, c: Command, env: Env)
    requires Execute(s, c, env).answer.Ok?
    ensures var o := Execute(s, c, env);
            ValidCommand(c) && Committed(o.state, c) && o.state.commands[KeyOf(c)].answer == o.answer.value
  {
    hide ValidCommand, Refusal, Decide, KeyOf;
    if Commits(s, c, env) {
      DecidedRecord(s, c, env);
    }
  }

  lemma {:induction false} DecidedRecord(s: StoreState, c: Command, env: Env)
    requires Refusal(s, c, env).None?
    ensures var r := Decide(s, c, env).command;
            r == RecordOf(c, r.answer, r.createdAt)
  {}

  lemma {:induction false} RecordStays(s: StoreState, c: Command, env: Env, later: seq<Action>)
    requires Inv(s) && Execute(s, c, env).answer.Ok?
    ensures var t := Run(Execute(s, c, env).state, later);
            ValidCommand(c) && Committed(t, c) && t.commands[KeyOf(c)].answer == Execute(s, c, env).answer.value
  {
    hide Inv, Execute, KeyOf;
    AnswerRecorded(s, c, env);
    ExecuteKeeps(s, c, env);
    RunKeeps(Execute(s, c, env).state, later);
  }

  /** Once a command has succeeded, repeating it exactly returns the original
  answer and writes nothing, whatever was committed in between. */
  lemma {:induction false} PermanentReplay(s: StoreState, c: Command, env: Env, later: seq<Action>, env': Env)
    requires Reachable(s) && Execute(s, c, env).answer.Ok?
    ensures var t := Run(Execute(s, c, env).state, later);
            Execute(t, c, env') == Outcome(t, Execute(s, c, env).answer)
  {
    hide Inv, Reachable, ValidCommand, Refusal, Decide, Apply, KeyOf;
    ReachableInv(s);
    RecordStays(s, c, env, later);
  }

  /** The identifier of a committed command never serves another input or kind. */
  lemma {:induction false} ReusedIdRefused(s: StoreState, c: Command, env: Env, later: seq<Action>, other: Command, env': Env)
    requires Reachable(s) && Execute(s, c, env).answer.Ok? && KeyOf(other) == KeyOf(c) && other != c
    ensures var t := Run(Execute(s, c, env).state, later);
            Execute(t, other, env') ==
              Outcome(t, Err(if ValidCommand(other) then IdempotencyConflict else InvalidArgument))
  {
    hide Inv, Reachable, ValidCommand, Refusal, Decide, Apply, KeyOf;
    ReachableInv(s);
    RecordStays(s, c, env, later);
  }

  /** A refused command leaves no trace, so its identifier stays free. */
  lemma {:induction false} RefusedLeavesNoTrace(s: StoreState, c: Command, env: Env, later: seq<Action>)
    requires Execute(s, c, env).answer.Err?
    ensures Run(s, [Action(c, env)] + later) == Run(s, later)
  {
    assert ([Action(c, env)] + later)[1..] == later;
  }
}
