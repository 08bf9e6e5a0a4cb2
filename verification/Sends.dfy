/** The A2A client: repeated sends of one message, and cancellation with retry. */
module Sends {
  import opened Types
  import opened Validators
  import opened Store
  import opened Commands
  import opened Invariant
  import opened Growth
  import opened Commit
  import opened Runs
  import opened Ambiguity
  import A = Agent
  import opened Contents
  import H = History
  import V = Verdicts

  /** One message sent without a Task identifier. The three names are derived from
  the authority and the message identifier alone, so every repetition has them. */
  datatype Request = Request(
    authority: Id, message: MessageInput, context: Id, taskName: Id, contextName: Id, commandName: Id)

  function ContextOf(q: Request): ContextRef {
    ContextRef(q.authority, if q.context == "" then q.contextName else q.context)
  }

  function TaskIn(q: Request, workspace: Id): TaskRef {
    TaskRef(WorkspaceRef(q.authority, workspace), q.taskName)
  }

  function CreateOf(q: Request, workspace: Id): Command {
    CreateTask(Meta(q.commandName, 0), TaskIn(q, workspace), ContextOf(q), q.message)
  }

  // ---- Concurrent sends

  /** Where one send stands. A send looks for its message, creates the Task in the
  Workspace its resolver names, and looks again if the creation fails. */
  datatype Phase =
    | Looking
    | Creating(workspace: Id)
    | Recovering(failure: Error)
    | Answered(result: Result<TaskRef>)

  datatype Found = Missing | Conflict | Present(ref: TaskRef)

  /** Looks for the stored message and recognises it exactly. */
  function Look(s: StoreState, q: Request): Found {
    var key := MessageKey(q.authority, q.message.id);
    if key !in s.messages then Missing
    else
      var m := s.messages[key];
      if m.author != AuthorCaller || m.sequence != 1 || m.task.id != q.taskName || m.parts != q.message.parts then Conflict
      else if m.task !in s.tasks || s.tasks[m.task].task.context.id != ContextOf(q).id then Conflict
      else Present(m.task)
  }

  datatype World = World(store: StoreState, sends: seq<Phase>)

  datatype Move =
    | Elsewhere(attempt: Attempt)
    | Advance(send: nat, workspace: Id, env: Env, fault: Fault)

  ghost function Next(s: StoreState, q: Request, phase: Phase, workspace: Id, env: Env, fault: Fault): (StoreState, Phase) {
    match phase
    case Looking =>
      (match Look(s, q)
       case Missing => (s, Creating(workspace))
       case Conflict => (s, Answered(Err(InvalidArgument)))
       case Present(ref) => (s, Answered(Ok(ref))))
    case Creating(w) =>
      var o := Try(s, Attempt(Action(CreateOf(q, w), env), fault));
      (o.state, if o.answer.Ok? then Answered(Ok(TaskIn(q, w))) else Recovering(o.answer.error))
    case Recovering(e) =>
      (match Look(s, q)
       case Missing => (s, Answered(Err(e)))
       case Conflict => (s, Answered(Err(InvalidArgument)))
       case Present(ref) => (s, Answered(Ok(ref))))
    case Answered(_) => (s, phase)
  }

  ghost function Step(w: World, q: Request, m: Move): World {
    match m
    case Elsewhere(a) => w.(store := Try(w.store, a).state)
    case Advance(i, workspace, env, fault) =>
      if i >= |w.sends| then w
      else
        var (store, phase) := Next(w.store, q, w.sends[i], workspace, env, fault);
        World(store, w.sends[i := phase])
  }

  ghost function RunWorld(w: World, q: Request, moves: seq<Move>): World
    decreases |moves|
  {
    if moves == [] then w else RunWorld(Step(w, q, moves[0]), q, moves[1..])
  }

  /** `ref` is the Task this request asks for, and holds its message. */
  predicate Serves(s: StoreState, q: Request, ref: TaskRef) {
    && ref.workspace.authority == q.authority && ref.id == q.taskName
    && CreationStored(s, ref, ContextOf(q), q.message)
    && ref == TaskIn(q, ref.workspace.id)
  }

  ghost predicate WorldOk(w: World, q: Request) {
    && Reachable(w.store)
    && forall i | 0 <= i < |w.sends| && w.sends[i].Answered? && w.sends[i].result.Ok? ::
         Serves(w.store, q, w.sends[i].result.value)
  }

  lemma {:induction false} LookServes(s: StoreState, q: Request)
    requires Reachable(s) && Look(s, q).Present?
    ensures Serves(s, q, Look(s, q).ref)
  {
    hide Reachable, TasksOk, PublicIdsUnique, LogsOk, MessagesOk, LinksOk, GrantsOk, ArtifactsOk, SubmissionsOk, HeadsOk, ReceiptsOk, CommandsOk, EffectsOk;
    ReachableInv(s);
    MessageOf(s, MessageKey(q.authority, q.message.id));
  }

  lemma {:induction false} MessageOf(s: StoreState, key: MessageKey)
    requires TasksOk(s.tasks) && MessagesOk(s.tasks, s.messages) && key in s.messages
    ensures var m := s.messages[key];
            && m.Key() == key && m.task in s.tasks && m.task.workspace.authority == key.authority
            && s.tasks[m.task].task.context.authority == key.authority
  {
    assert MessageRowOk(s.tasks, key, s.messages[key]);
    assert TaskRowOk(s.messages[key].task, s.tasks[s.messages[key].task]);
  }

  lemma {:induction false} CreateServes(s: StoreState, q: Request, w: Id, a: Attempt)
    requires Reachable(s) && a.action.command == CreateOf(q, w) && Try(s, a).answer.Ok?
    ensures Serves(Try(s, a).state, q, TaskIn(q, w))
  {
    hide Reachable, Try, KeyOf, CreationStored;
    SuccessIsRecorded(s, a);
    TryReachable(s, a);
    CommittedContentIsStored(Try(s, a).state, KeyOf(CreateOf(q, w)));
  }

  lemma {:induction false} ServesStays(s: StoreState, s': StoreState, q: Request, ref: TaskRef)
    requires Serves(s, q, ref) && Grows(s, s')
    ensures Serves(s', q, ref)
  {
    hide Grows, CreationStored;
    CreationStays(s, s', ref, ContextOf(q), q.message);
  }

  lemma {:induction false} NextServes(s: StoreState, q: Request, phase: Phase, workspace: Id, env: Env, fault: Fault)
    requires Reachable(s)
    requires phase.Answered? && phase.result.Ok? ==> Serves(s, q, phase.result.value)
    ensures var n := Next(s, q, phase, workspace, env, fault);
            && Reachable(n.0) && Grows(s, n.0)
            && (n.1.Answered? && n.1.result.Ok? ==> Serves(n.0, q, n.1.result.value))
  {
    hide Inv, Reachable, Try, Serves, Grows, Look;
    GrowsReflexive(s);
    ReachableInv(s);
    if phase.Creating? {
      var a := Attempt(Action(CreateOf(q, phase.workspace), env), fault);
      TryKeeps(s, a);
      TryReachable(s, a);
      if Try(s, a).answer.Ok? {
        CreateServes(s, q, phase.workspace, a);
      }
    } else if Look(s, q).Present? {
      LookServes(s, q);
    }
  }

  lemma {:induction false} StepOk(w: World, q: Request, m: Move)
    requires WorldOk(w, q)
    ensures WorldOk(Step(w, q, m), q)
  {
    hide Inv, Reachable, Try, Serves, Grows, Next;
    ReachableInv(w.store);
    var w' := Step(w, q, m);
    if m.Elsewhere? {
      TryKeeps(w.store, m.attempt);
      TryReachable(w.store, m.attempt);
    } else if m.send < |w.sends| {
      NextServes(w.store, q, w.sends[m.send], m.workspace, m.env, m.fault);
    } else {
      GrowsReflexive(w.store);
    }
    forall i | 0 <= i < |w'.sends| && w'.sends[i].Answered? && w'.sends[i].result.Ok?
      ensures Serves(w'.store, q, w'.sends[i].result.value)
    {
      if !(m.Advance? && m.send == i) {
        ServesStays(w.store, w'.store, q, w'.sends[i].result.value);
      }
    }
  }

  lemma {:induction false} RunOk(w: World, q: Request, moves: seq<Move>)
    requires WorldOk(w, q)
    ensures WorldOk(RunWorld(w, q, moves), q)
    decreases |moves|
  {
    hide WorldOk, Step;
    if moves != [] {
      StepOk(w, q, moves[0]);
      RunOk(Step(w, q, moves[0]), q, moves[1..]);
    }
  }

  /** Sends of one message converge: under every interleaving, with any resolver
  answers, faults and other traffic, all successes name the same Task, and that
  Task holds the message. */
  lemma {:induction false} SendsConverge(sends: nat, q: Request, moves: seq<Move>, i: nat, j: nat)
    ensures var e := RunWorld(Start(sends), q, moves);
            i < |e.sends| && j < |e.sends| && Succeeded(e.sends[i]) && Succeeded(e.sends[j]) ==>
              e.sends[i].result == e.sends[j].result && Serves(e.store, q, e.sends[i].result.value)
  {
    StartOk(q, sends);
    RunOk(Start(sends), q, moves);
    hide RunWorld, Reachable, CreationStored;
    ReachableInv(RunWorld(Start(sends), q, moves).store);
    hide TasksOk, LogsOk, MessagesOk, LinksOk, GrantsOk, ArtifactsOk, SubmissionsOk, HeadsOk, ReceiptsOk, CommandsOk, EffectsOk;
  }

  /** At most one Task ever carries the derived identifier. */
  lemma {:induction false} OneTaskPerRequest(s: StoreState, q: Request, a: TaskRef, b: TaskRef)
    requires Reachable(s) && a in s.tasks && b in s.tasks
    requires a.workspace.authority == q.authority == b.workspace.authority && a.id == q.taskName == b.id
    ensures a == b
  {
    hide Reachable, TasksOk, LogsOk, MessagesOk, LinksOk, GrantsOk, ArtifactsOk, SubmissionsOk, HeadsOk, ReceiptsOk, CommandsOk, EffectsOk;
    ReachableInv(s);
  }

  /** After one success every repetition succeeds at once, with the same Task. */
  lemma {:induction false} RetryFindsTask(s: StoreState, q: Request, ref: TaskRef, later: seq<Action>)
    requires Reachable(s) && Serves(s, q, ref)
    ensures Look(Run(s, later), q) == Present(ref)
  {
    hide Inv, Grows, Run, Reachable;
    ReachableInv(s);
    RunKeeps(s, later);
    ServesStays(s, Run(s, later), q, ref);
  }

  /** A send that loses the race recovers: once any creation under this request's
  command identifier has committed with its content, looking again finds it. */
  lemma {:induction false} LoserRecovers(s: StoreState, q: Request, w: Id)
    requires Reachable(s) && Committed(s, CreateOf(q, w))
    ensures Look(s, q) == Present(TaskIn(q, w))
  {
    hide KeyOf, Reachable;
    CommittedContentIsStored(s, KeyOf(CreateOf(q, w)));
  }

  /** Looking finds exactly a Task that serves the request, and misses only a message that
  is not there. */
  lemma {:induction false} LookFindsIff(s: StoreState, q: Request, ref: TaskRef)
    requires Reachable(s)
    ensures Look(s, q) == Present(ref) <==> Serves(s, q, ref)
    ensures Look(s, q).Missing? <==> MessageKey(q.authority, q.message.id) !in s.messages
  {
    hide Reachable;
    if Look(s, q).Present? {
      LookServes(s, q);
    }
  }

  /** A send that no other traffic disturbs. */
  ghost function Alone(s: StoreState, q: Request, workspace: Id, env: Env): (StoreState, Phase) {
    var one := Next(s, q, Looking, workspace, env, Faultless);
    var two := Next(one.0, q, one.1, workspace, env, Faultless);
    Next(two.0, q, two.1, workspace, env, Faultless)
  }

  /** An undisturbed send is answered: with the Task that already serves it, with an
  error if its message identifier is used for something else, and otherwise with the
  new Task exactly if the creation may commit. */
  lemma {:induction false} UndisturbedSend(s: StoreState, q: Request, workspace: Id, env: Env)
    requires Reachable(s)
    ensures var (s', phase) := Alone(s, q, workspace, env);
            var c := CreateOf(q, workspace);
            match Look(s, q)
            case Present(ref) => s' == s && phase == Answered(Ok(ref))
            case Conflict => s' == s && phase == Answered(Err(InvalidArgument))
            case Missing =>
              && phase.Answered?
              && (ValidCommand(c) && KeyOf(c) !in s.commands ==>
                    (phase.result.Ok? <==> V.MayCommit(s, c, env))
                    && (phase.result.Ok? ==> phase.result.value == TaskIn(q, workspace) && Serves(s', q, TaskIn(q, workspace)))
                    && (phase.result.Err? ==> s' == s && V.Explains(s, c, env, phase.result.error)))
  {
    hide Reachable, ValidCommand, KeyOf, Refusal, Decide, Apply, V.MayCommit, V.Explains, Look, Serves;
    var c := CreateOf(q, workspace);
    if Look(s, q).Missing? && ValidCommand(c) && KeyOf(c) !in s.commands {
      V.SucceedsIff(s, c, env);
      V.RefusalTellsTheTruth(s, c, env);
      if Execute(s, c, env).answer.Ok? {
        CreateServes(s, q, workspace, Attempt(Action(c, env), Faultless));
      }
    }
  }

  /** `n` sends about to begin, on an empty store. Other traffic may come first. */
  function Start(n: nat): World {
    World(EMPTY, seq(n, i => Looking))
  }

  predicate Succeeded(phase: Phase) { phase.Answered? && phase.result.Ok? }

  lemma {:induction false} StartOk(q: Request, n: nat)
    ensures WorldOk(Start(n), q)
  {
    assert Run(EMPTY, []) == EMPTY;
  }

  // ---- Cancellation

  lemma {:induction false} CancelAnswer(s: StoreState, c: Command, env: Env)
    requires Inv(s) && c.CancelTask? && Execute(s, c, env).answer.Ok?
    ensures var a := Execute(s, c, env).answer.value; a.TaskAnswer? && a.result.state == TaskCanceled && a.result.ref == c.task
    ensures Committed(Execute(s, c, env).state, c)
  {
    hide TasksOk, PublicIdsUnique, LogsOk, MessagesOk, LinksOk, GrantsOk, ArtifactsOk, SubmissionsOk, HeadsOk, ReceiptsOk, EffectsOk, Grows;
    ExecuteKeeps(s, c, env);
    AnswerRecorded(s, c, env);
    hide Execute;
    var s' := Execute(s, c, env).state;
    assert CommandRowOk(s', KeyOf(c), s'.commands[KeyOf(c)]);
  }

  /** A recorded cancellation is the end of its Task. */
  lemma {:induction false} CancelIsStored(s: StoreState, c: Command)
    requires Inv(s) && c.CancelTask? && Committed(s, c)
    ensures c.task in s.tasks && s.tasks[c.task].task.state == TaskCanceled
  {
    hide TasksOk, PublicIdsUnique, LogsOk, MessagesOk, LinksOk, GrantsOk, ArtifactsOk, SubmissionsOk, HeadsOk, ReceiptsOk;
    hide KeyOf, ValidCommand;
    var r := s.commands[KeyOf(c)];
    assert CommandRowOk(s, KeyOf(c), r) && EffectRowOk(s.events, r);
    H.TerminalEventIsLast(s, c.task, r.answer.result.revision);
  }

  /** Why a cancellation that was not lost is refused. */
  lemma {:induction false} CancelRefused(s: StoreState, c: Command, env: Env, fault: Fault)
    requires Inv(s) && c.CancelTask? && c.task in s.tasks && Try(s, Attempt(Action(c, env), fault)).answer.Err?
    ensures var e := Try(s, Attempt(Action(c, env), fault)).answer.error;
            && e != NotFound
            && (e == TerminalTask ==> s.tasks[c.task].task.state.Terminal() && Try(s, Attempt(Action(c, env), fault)).state == s)
            && (e == RevisionConflict ==> Try(s, Attempt(Action(c, env), fault)).state == s)
            && (e == RevisionConflict ==>
                  s.tasks[c.task].task.revision != c.caller.expectedRevision || s.tasks[c.task].task.revision == MAX_INT64)
  {
    hide Inv, ValidCommand, KeyOf, Refusal, Decide, Apply;
    if ValidCommand(c) {
      V.RefusalVerdict(s, c, env);
    }
    hide V.MayCommit;
  }

  lemma {:induction false} CancelSucceeds(s: StoreState, c: Command, env: Env)
    requires Inv(s) && c.CancelTask? && ValidCommand(c) && KeyOf(c) !in s.commands && V.MayCommit(s, c, env)
    ensures Try(s, Attempt(Action(c, env), Faultless)).answer.Ok?
  {
    hide Inv, ValidCommand, KeyOf, Refusal, Decide, Apply, V.MayCommit;
    V.RefusalVerdict(s, c, env);
  }

  lemma {:induction false} TaskStays(s: StoreState, a: Attempt, ref: TaskRef)
    requires Inv(s) && ref in s.tasks
    ensures ref in Try(s, a).state.tasks
  {
    hide Inv, Try, LogsGrow, ArtifactsGrow, HeadsGrow;
    TryKeeps(s, a);
  }

  ghost predicate CancelMayCommit(s: StoreState, ref: TaskRef, id: Id, env: Env) {
    && ref in s.tasks
    && var c := CancelOf(s, ref, id);
       ValidCommand(c) && KeyOf(c) !in s.commands && V.MayCommit(s, c, env)
  }

  function CancelOf(s: StoreState, ref: TaskRef, id: Id): Command
    requires ref in s.tasks
  {
    CancelTask(Meta(id, s.tasks[ref].task.revision), ref)
  }

  lemma {:induction false} CancelClear(s: StoreState, ref: TaskRef, id: Id, env: Env)
    requires Inv(s) && CancelMayCommit(s, ref, id, env)
    ensures Try(s, Attempt(Action(CancelOf(s, ref, id), env), Faultless)).answer.Ok? && !s.tasks[ref].task.state.Terminal()
  {
    hide Inv, ValidCommand, KeyOf, Try, V.MayCommit;
    CancelSucceeds(s, CancelOf(s, ref, id), env);
    MayCancelOpen(s, CancelOf(s, ref, id), env);
  }

  lemma {:induction false} MayCancelOpen(s: StoreState, c: Command, env: Env)
    requires c.CancelTask? && V.MayCommit(s, c, env)
    ensures c.task in s.tasks && !s.tasks[c.task].task.state.Terminal()
  {}

  lemma {:induction false} TriedIsExecuted(s: StoreState, a: Action, fault: Fault)
    requires Try(s, Attempt(a, fault)).answer.Ok?
    ensures Try(s, Attempt(a, fault)) == Execute(s, a.command, a.env)
  {
    hide Execute;
  }

  /** Cancels against a moving Task: reload and retry on a lost revision race. Other
  commands run before every load and before every attempt. Success means the
  Task is canceled, in the answer and in the store; the Task is reported missing or
  terminal only if it is; and a lost race is given up only when no traffic is left,
  which then only an exhausted revision counter explains. */
  method CancelWithRetry(agent: A.Agent, ref: TaskRef, id: Id, traffic: seq<(Action, Action)>, env: Env) returns (r: Result<Task>)
    requires Inv(agent.store.state)
    modifies agent.store
    ensures Inv(agent.store.state)
    ensures r.Ok? ==> r.value.state == TaskCanceled && r.value.ref == ref
    ensures r.Ok? ==> ref in agent.store.state.tasks && agent.store.state.tasks[ref].task.state == TaskCanceled
    ensures r == Err(NotFound) ==> ref !in agent.store.state.tasks
    ensures r == Err(TerminalTask) ==>
              ref in agent.store.state.tasks && agent.store.state.tasks[ref].task.state.Terminal()
              && agent.store.state.tasks[ref].task.state != TaskCanceled
    ensures r == Err(RevisionConflict) ==>
              ref in agent.store.state.tasks && agent.store.state.tasks[ref].task.revision == MAX_INT64
    ensures (traffic == [] && old(CancelMayCommit(agent.store.state, ref, id, env))
             && old(agent.FaultOf(CancelOf(agent.store.state, ref, id), env)).Faultless?) ==> r.Ok?
  {
    hide Inv, Execute, Try, ValidCommand, KeyOf, V.MayCommit;
    var n := 0;
    while true
      invariant Inv(agent.store.state) && n <= |traffic|
      invariant traffic == [] ==> agent.store.state == old(agent.store.state) && agent.store.lost == old(agent.store.lost)
                                  && agent.store.unacknowledged == old(agent.store.unacknowledged)
      decreases |traffic| - n
    {
      if n < |traffic| {
        var _ := agent.Do(traffic[n].0.command, traffic[n].0.env);
      }
      if ref !in agent.store.state.tasks {
        return Err(NotFound);
      }
      var current := agent.store.state.tasks[ref].task;
      LoadedTask(agent.store.state, ref);
      if CancelMayCommit(agent.store.state, ref, id, env) {
        CancelClear(agent.store.state, ref, id, env);
      }
      if current.state == TaskCanceled {
        return Ok(current);
      }
      if current.state.Terminal() {
        return Err(TerminalTask);
      }
      if n < |traffic| {
        TaskStays(agent.store.state, Attempt(traffic[n].1, agent.FaultOf(traffic[n].1.command, traffic[n].1.env)), ref);
        var _ := agent.Do(traffic[n].1.command, traffic[n].1.env);
      }
      var command := CancelTask(Meta(id, current.revision), ref);
      ghost var s, fault := agent.store.state, agent.FaultOf(command, env);
      var canceled := agent.Do(command, env);
      TaskStays(s, Attempt(Action(command, env), fault), ref);
      if canceled.Ok? {
        TriedIsExecuted(s, Action(command, env), fault);
        CancelAnswer(s, command, env);
        CancelIsStored(agent.store.state, command);
        return Ok(canceled.value.result);
      }
      CancelRefused(s, command, env, fault);
      if canceled.error == RevisionConflict && n < |traffic| {
        n := n + 1;
        continue;
      }
      if canceled.error == TerminalTask || canceled.error == InvalidTransition {
        if ref !in agent.store.state.tasks {
          return Err(NotFound);
        }
        var latest := agent.store.state.tasks[ref].task;
        LoadedTask(agent.store.state, ref);
        if latest.state == TaskCanceled {
          return Ok(latest);
        }
        if latest.state.Terminal() {
          return Err(TerminalTask);
        }
      }
      return Err(canceled.error);
    }
  }

  lemma {:induction false} LoadedTask(s: StoreState, ref: TaskRef)
    requires Inv(s) && ref in s.tasks
    ensures s.tasks[ref].task.ref == ref
  {
    hide PublicIdsUnique, LogsOk, MessagesOk, LinksOk, GrantsOk, ArtifactsOk, SubmissionsOk, HeadsOk, ReceiptsOk, CommandsOk, EffectsOk;
    assert TaskRowOk(ref, s.tasks[ref]);
  }
}
