/** One public call of the Agent: argument check, preflight, Update. */
module Agent {
  import opened Types
  import opened Validators
  import opened Store
  import opened Commands
  import opened Invariant
  import opened MemoryStore
  import opened AgentCore
  import opened AgentCommands
  import opened Ambiguity
  import opened Runs
  import opened Growth

  /** The body of an Update: replay the receipt, or carry the command out. */
  method Transact(tx: Unit, c: Command, env: Env) returns (r: Result<Answer>)
    requires Inv(tx.state) && ValidCommand(c) && (CarriesContent(c) ==> !SealRefused(c, env))
    modifies tx
    ensures r == Execute(old(tx.state), c, env).answer
    ensures r.Ok? ==> tx.state == Execute(old(tx.state), c, env).state
  {
    hide Inv, KeyOf, Refusal, Decide, Apply;
    var replay := Replay(tx, c);
    if replay.Err? {
      return Err(replay.error);
    }
    if replay.value.Some? {
      return Ok(replay.value.value);
    }
    r := Dispatch(tx, c, env);
  }

  method Dispatch(tx: Unit, c: Command, env: Env) returns (r: Result<Answer>)
    requires Inv(tx.state) && ValidCommand(c) && (CarriesContent(c) ==> !SealRefused(c, env)) && KeyOf(c) !in tx.state.commands
    modifies tx
    ensures Refines(old(tx.state), c, env, r, tx.state)
  {
    hide Inv, KeyOf, Refines;
    match c {
      case CreateTask(_, _, _, _) => r := CreateIn(tx, c, env);
      case FreezeArtifact(_, _, _, _, _) => r := FreezeIn(tx, c, env);
      case AcquireLease(_, _, _) => r := AcquireIn(tx, c, env);
      case ClaimLease(_, _, _) => r := ClaimIn(tx, c, env);
      case FenceLease(_, _) => r := FenceIn(tx, c, env);
      case RecordApplyReceipt(_, _, _, _, _, _, _, _, _, _) => r := ReceiptIn(tx, c, env);
      case _ => r := TransitionIn(tx, c, env);
    }
  }

  class Agent {
    const store: AgentStore

    constructor ()
      ensures fresh(store) && store.state == EMPTY && Inv(store.state) && !store.lost && !store.unacknowledged
    {
      store := new AgentStore();
      EmptyInv();
    }

    /** The fault that meets this call: only a call that reaches its Update meets one. */
    ghost function FaultOf(c: Command, env: Env): Fault
      reads store
    {
      if !ValidCommand(c) || (CarriesContent(c) && (KeyOf(c) in store.state.commands || SealRefused(c, env))) then Faultless
      else if store.lost then Lost
      else if store.unacknowledged then Unacknowledged
      else Faultless
    }

    /** Every public command does to the store exactly what the specification says,
    fault or no fault, and keeps it sound. */
    method Do(c: Command, env: Env) returns (r: Result<Answer>)
      requires Inv(store.state)
      modifies store
      ensures Outcome(store.state, r) == Try(old(store.state), Attempt(Action(c, env), old(FaultOf(c, env))))
      ensures Inv(store.state)
      ensures old(Reachable(store.state)) ==> Reachable(store.state)
    {
      hide Inv, KeyOf, Refusal, Decide, Apply, ValidCommand, Grows, Reachable;
      if Reachable(store.state) {
        TryReachable(store.state, Attempt(Action(c, env), FaultOf(c, env)));
      }
      TryKeeps(store.state, Attempt(Action(c, env), FaultOf(c, env)));
      if !ValidCommand(c) {
        return Err(InvalidArgument);
      }
      if CarriesContent(c) {
        var view := new Unit(store.state);
        var replay := Replay(view, c);
        if replay.Err? {
          return Err(replay.error);
        }
        if replay.value.Some? {
          return Ok(replay.value.value);
        }
        if SealRefused(c, env) {
          RefusedSeal(store.state, c, env);
          return Err(InvalidArgument);
        }
      }
      var tx := store.Begin();
      if tx.None? {
        return Err(StoreCommitUnknown);
      }
      var answer := Transact(tx.value, c, env);
      r := store.End(tx.value, answer);
    }
  }
}
