/** Concurrent calls. A command that carries content looks for its receipt in one
read, seals the content, and enters its transaction later; other calls look and
act in between, and every transaction may meet a fault. */
module Interleaving {
  import opened Types
  import opened Validators
  import opened Store
  import opened Commands
  import opened Invariant
  import opened Runs
  import opened Ambiguity

  datatype Phase = Ready | Looked | Done(answer: Result<Answer>)

  datatype Calls = Calls(store: StoreState, phases: seq<Phase>)

  datatype Move = Look(call: nat) | Act(call: nat, fault: Fault)

  predicate LooksFirst(c: Command) {
    CarriesContent(c) && ValidCommand(c)
  }

  /** The next step of one call; a call that is not at that step does nothing. */
  ghost function Next(w: Calls, calls: seq<Action>, m: Move): (w': Calls)
    requires |w.phases| == |calls|
    ensures |w'.phases| == |calls|
  {
    if m.call >= |calls| then w
    else
      var a := calls[m.call];
      match m
      case Look(i) =>
        if !w.phases[i].Ready? || !LooksFirst(a.command) then w
        else if KeyOf(a.command) in w.store.commands then
          w.(phases := w.phases[i := Done(Execute(w.store, a.command, a.env).answer)])
        else if SealRefused(a.command, a.env) then w.(phases := w.phases[i := Done(Err(InvalidArgument))])
        else w.(phases := w.phases[i := Looked])
      case Act(i, fault) =>
        if w.phases[i].Done? || (w.phases[i].Ready? && LooksFirst(a.command)) then w
        else
          var o := Try(w.store, Attempt(a, fault));
          Calls(o.state, w.phases[i := Done(o.answer)])
  }

  ghost function MoveAll(w: Calls, calls: seq<Action>, moves: seq<Move>): (w': Calls)
    requires |w.phases| == |calls|
    ensures |w'.phases| == |calls|
    decreases |moves|
  {
    if moves == [] then w else MoveAll(Next(w, calls, moves[0]), calls, moves[1..])
  }

  ghost function Started(calls: seq<Action>): Calls {
    Calls(EMPTY, seq(|calls|, i => Ready))
  }

  /** The move answers its call. */
  ghost predicate Finishes(w: Calls, calls: seq<Action>, m: Move)
    requires |w.phases| == |calls|
  {
    m.call < |calls| && !w.phases[m.call].Done? && Next(w, calls, m).phases[m.call].Done?
  }

  function FaultOf(m: Move): Fault {
    if m.Act? then m.fault else Faultless
  }

  /** The calls in the order in which they were answered, each as one atomic attempt. */
  ghost function Finished(w: Calls, calls: seq<Action>, moves: seq<Move>): seq<Move>
    requires |w.phases| == |calls|
    decreases |moves|
  {
    if moves == [] then []
    else
      var rest := Finished(Next(w, calls, moves[0]), calls, moves[1..]);
      if Finishes(w, calls, moves[0]) then [moves[0]] + rest else rest
  }

  ghost predicate WithinCalls(calls: seq<Action>, order: seq<Move>) {
    forall k | 0 <= k < |order| :: order[k].call < |calls|
  }

  ghost function AttemptsOf(calls: seq<Action>, order: seq<Move>): (r: seq<Attempt>)
    requires WithinCalls(calls, order)
    ensures |r| == |order|
    ensures forall k | 0 <= k < |r| :: r[k] == Attempt(calls[order[k].call], FaultOf(order[k]))
  {
    seq(|order|, k requires 0 <= k < |order| => Attempt(calls[order[k].call], FaultOf(order[k])))
  }

  /** A move that answers a call is one atomic attempt at that moment, and every
  other move leaves the store and the answers alone. */
  lemma {:induction false} NextIsAtomic(w: Calls, calls: seq<Action>, m: Move)
    requires |w.phases| == |calls|
    ensures var w' := Next(w, calls, m);
            if Finishes(w, calls, m)
            then m.call < |calls| && !w.phases[m.call].Done? &&
                 var o := Try(w.store, Attempt(calls[m.call], FaultOf(m)));
                 w' == Calls(o.state, w.phases[m.call := Done(o.answer)])
            else w'.store == w.store
                 && forall i | 0 <= i < |calls| :: w'.phases[i] == w.phases[i] || (!w.phases[i].Done? && !w'.phases[i].Done?)
  {
    hide Refusal, Decide, Apply, ValidCommand, KeyOf, CarriesContent, SealRefused;
    if m.call < |calls| && CarriesContent(calls[m.call].command) && SealRefused(calls[m.call].command, calls[m.call].env) {
      RefusedSeal(w.store, calls[m.call].command, calls[m.call].env);
    }
  }

  /** The calls in `order` were open before and have these answers at the end. */
  ghost predicate Answered(before: seq<Phase>, end: seq<Phase>, order: seq<Move>, answers: seq<Result<Answer>>) {
    && |before| == |end| && |answers| == |order|
    && forall k | 0 <= k < |order| ::
         order[k].call < |before| && !before[order[k].call].Done? && end[order[k].call] == Done(answers[k])
  }

  ghost predicate OncePerCall(order: seq<Move>) {
    forall k, l | 0 <= k < l < |order| :: order[k].call != order[l].call
  }

  ghost predicate InOrder(order: seq<Move>, i: nat) {
    exists k :: 0 <= k < |order| && order[k].call == i
  }

  /** Answers stay, and nothing but the calls in `order` was answered. */
  ghost predicate NoOthers(before: seq<Phase>, end: seq<Phase>, order: seq<Move>) {
    && |before| == |end|
    && (forall i | 0 <= i < |before| && before[i].Done? :: end[i] == before[i])
    && (forall i | 0 <= i < |before| && !before[i].Done? && end[i].Done? :: InOrder(order, i))
  }

  /** From `w`, exactly the calls in `order` were answered, one atomic attempt each, in
  a run of attempts that ends in `end`. */
  ghost predicate Linearizes(w: Calls, calls: seq<Action>, end: Calls, order: seq<Move>) {
    && WithinCalls(calls, order)
    && end.store == TryAll(w.store, AttemptsOf(calls, order))
    && Answered(w.phases, end.phases, order, Answers(w.store, AttemptsOf(calls, order)))
    && OncePerCall(order)
    && NoOthers(w.phases, end.phases, order)
  }

  lemma {:induction false} MovesLinearize(w: Calls, calls: seq<Action>, moves: seq<Move>)
    requires |w.phases| == |calls|
    ensures Linearizes(w, calls, MoveAll(w, calls, moves), Finished(w, calls, moves))
    decreases |moves|
  {
    hide Next, Try, Finishes;
    if moves != [] {
      var m := moves[0];
      var w' := Next(w, calls, m);
      NextIsAtomic(w, calls, m);
      MovesLinearize(w', calls, moves[1..]);
      if Finishes(w, calls, m) {
        FinishedFirst(w, calls, m, w', MoveAll(w, calls, moves), Finished(w', calls, moves[1..]));
      } else {
        Unfinished(w, calls, w', MoveAll(w, calls, moves), Finished(w', calls, moves[1..]));
      }
    }
  }

  lemma {:induction false} Unfinished(w: Calls, calls: seq<Action>, w': Calls, end: Calls, order: seq<Move>)
    requires |w.phases| == |calls| == |w'.phases| == |end.phases|
    requires w'.store == w.store
    requires forall i | 0 <= i < |calls| :: w'.phases[i] == w.phases[i] || (!w.phases[i].Done? && !w'.phases[i].Done?)
    requires Linearizes(w', calls, end, order)
    ensures Linearizes(w, calls, end, order)
  {
    hide InOrder, TryAll, Answers, OncePerCall, WithinCalls;
  }

  lemma {:induction false} OneMore(s: StoreState, first: Attempt, rest: seq<Attempt>)
    ensures TryAll(s, [first] + rest) == TryAll(Try(s, first).state, rest)
    ensures Answers(s, [first] + rest) == [Try(s, first).answer] + Answers(Try(s, first).state, rest)
  {
    hide Try;
    assert ([first] + rest)[1..] == rest;
  }

  lemma {:induction false} AnsweredFirst(before: seq<Phase>, end: seq<Phase>, m: Move, answer: Result<Answer>,
                                         order: seq<Move>, answers: seq<Result<Answer>>)
    requires m.call < |before| && !before[m.call].Done?
    requires var next := before[m.call := Done(answer)];
             Answered(next, end, order, answers) && NoOthers(next, end, order) && OncePerCall(order)
    ensures Answered(before, end, [m] + order, [answer] + answers)
    ensures OncePerCall([m] + order)
  {
    hide InOrder;
    forall k | 0 <= k < |order| ensures order[k].call != m.call && order[k].call < |before| && !before[order[k].call].Done? {}
  }

  lemma {:induction false} NoOthersFirst(before: seq<Phase>, end: seq<Phase>, m: Move, answer: Result<Answer>, order: seq<Move>)
    requires m.call < |before| && !before[m.call].Done?
    requires NoOthers(before[m.call := Done(answer)], end, order)
    ensures NoOthers(before, end, [m] + order)
  {
    var all := [m] + order;
    forall i | 0 <= i < |before| && !before[i].Done? && end[i].Done? ensures InOrder(all, i) {
      if i == m.call {
        assert all[0].call == i;
      } else {
        var k :| 0 <= k < |order| && order[k].call == i;
        assert all[k + 1].call == i;
      }
    }
  }

  lemma {:induction false} FinishedFirst(w: Calls, calls: seq<Action>, m: Move, w': Calls, end: Calls, order: seq<Move>)
    requires m.call < |calls| == |w.phases| && !w.phases[m.call].Done?
    requires var o := Try(w.store, Attempt(calls[m.call], FaultOf(m)));
             w' == Calls(o.state, w.phases[m.call := Done(o.answer)])
    requires Linearizes(w', calls, end, order)
    ensures Linearizes(w, calls, end, [m] + order)
  {
    hide Try, TryAll, Answers, Answered, OncePerCall, NoOthers;
    var first, rest := Attempt(calls[m.call], FaultOf(m)), AttemptsOf(calls, order);
    assert WithinCalls(calls, [m] + order);
    assert AttemptsOf(calls, [m] + order) == [first] + rest;
    OneMore(w.store, first, rest);
    AnsweredFirst(w.phases, end.phases, m, Try(w.store, first).answer, order, Answers(w'.store, rest));
    NoOthersFirst(w.phases, end.phases, m, Try(w.store, first).answer, order);
  }

  /** However the phases of concurrent calls interleave and whatever faults their
  transactions meet, the answered calls are atomic attempts, one each, at the moment
  of their answer. So the store is accounted for by a fault-free run in which no
  identifier commits twice, and successful answers to one command are equal. */
  lemma {:induction false} InterleavedExactlyOnce(calls: seq<Action>, moves: seq<Move>)
    ensures var end := MoveAll(Started(calls), calls, moves);
            var order := Finished(Started(calls), calls, moves);
            && Linearizes(Started(calls), calls, end, order)
            && (exists run: seq<Action> :: Accounts(AttemptsOf(calls, order), run) && Run(EMPTY, run) == end.store)
            && (forall i, j | 0 <= i < |calls| && 0 <= j < |calls| && calls[i].command == calls[j].command
                              && Success(end.phases[i]) && Success(end.phases[j]) :: end.phases[i] == end.phases[j])
  {
    hide MoveAll, Finished, Accounts, TryAll, Answers, Run;
    var start := Started(calls);
    var end := MoveAll(start, calls, moves);
    var order := Finished(start, calls, moves);
    MovesLinearize(start, calls, moves);
    var attempts := AttemptsOf(calls, order);
    ExactlyOnce(attempts);
    var run: seq<Action> :| Accounts(attempts, run);
    AccountsEnd(attempts, run);
    forall i, j | 0 <= i < |calls| && 0 <= j < |calls| && calls[i].command == calls[j].command
                  && Success(end.phases[i]) && Success(end.phases[j])
      ensures end.phases[i] == end.phases[j]
    {
      assert InOrder(order, i) && InOrder(order, j);
      var k :| 0 <= k < |order| && order[k].call == i;
      var l :| 0 <= l < |order| && order[l].call == j;
      AnswersAgree(attempts, k, l);
    }
  }

  lemma {:induction false} AccountsEnd(attempts: seq<Attempt>, run: seq<Action>)
    requires Accounts(attempts, run)
    ensures Run(EMPTY, run) == TryAll(EMPTY, attempts)
  {}

  ghost predicate Success(p: Phase) {
    p.Done? && p.answer.Ok?
  }
}
