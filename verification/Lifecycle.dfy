/** Admission, draining and release. Every move below happens under one lock; all
interleavings of such moves are considered. */
module Lifecycle {
  import opened Types

  // ---- The admission gate

  /** `open` holds the admitted operations that have not ended. `drains` counts how
  often the drained signal was raised. */
  datatype Gate = Gate(closed: bool, active: nat, open: set<nat>, admitted: nat, drains: nat)

  const NEW_GATE: Gate := Gate(false, 0, {}, 0, 0)

  datatype GateMove = Enter | Leave(operation: nat) | Close

  function Drain(g: Gate): Gate {
    if g.closed && g.active == 0 && g.drains == 0 then g.(drains := 1) else g
  }

  /** An operation ends once, however often its release is called. */
  function GateStep(g: Gate, m: GateMove): Gate {
    match m
    case Enter =>
      if g.closed then g
      else g.(active := g.active + 1, open := g.open + {g.admitted}, admitted := g.admitted + 1)
    case Leave(op) =>
      if op !in g.open then g
      else Drain(g.(active := if g.active > 0 then g.active - 1 else 0, open := g.open - {op}))
    case Close => if g.closed then g else Drain(g.(closed := true))
  }

  ghost predicate GateOk(g: Gate) {
    && g.active == |g.open|
    && (forall op | op in g.open :: op < g.admitted)
    && g.drains == (if g.closed && g.open == {} then 1 else 0)
  }

  /** The signal is raised at most once, and exactly when the gate is closed with no
  admitted operation left; a closed gate admits nothing. */
  lemma {:induction false} GateStepOk(g: Gate, m: GateMove)
    requires GateOk(g)
    ensures GateOk(GateStep(g, m))
    ensures g.closed ==> GateStep(g, m).closed && GateStep(g, m).admitted == g.admitted && GateStep(g, m).open <= g.open
    ensures g.drains == 1 ==> GateStep(g, m) == g
    ensures m.Enter? && !g.closed ==> GateStep(g, m).open == g.open + {g.admitted} && g.admitted !in g.open
    ensures m.Leave? ==> GateStep(g, m).open == g.open - {m.operation} && GateStep(g, m).closed == g.closed
    ensures m.Close? ==> GateStep(g, m).closed && GateStep(g, m).open == g.open
  {
    if m.Leave? && m.operation in g.open {
      assert |g.open - {m.operation}| == |g.open| - 1;
    }
  }

  class AdmissionGate {
    var closed: bool
    var active: nat
    var drains: nat
    ghost var open: set<nat>
    var admitted: nat

    ghost function View(): Gate
      reads this
    {
      Gate(closed, active, open, admitted, drains)
    }

    constructor ()
      ensures View() == NEW_GATE && GateOk(View())
    {
      closed, active, drains, open, admitted := false, 0, 0, {}, 0;
    }

    method Admit() returns (operation: Option<nat>)
      requires GateOk(View())
      modifies this
      ensures View() == GateStep(old(View()), Enter) && GateOk(View())
      ensures operation == if old(closed) then None else Some(old(admitted))
    {
      GateStepOk(View(), Enter);
      if closed {
        return None;
      }
      operation := Some(admitted);
      active := active + 1;
      open := open + {admitted};
      admitted := admitted + 1;
    }

    method End(operation: nat)
      requires GateOk(View()) && operation in open
      modifies this
      ensures View() == GateStep(old(View()), Leave(operation)) && GateOk(View())
    {
      GateStepOk(View(), Leave(operation));
      if active > 0 {
        active := active - 1;
      }
      open := open - {operation};
      if closed && active == 0 && drains == 0 {
        drains := 1;
      }
    }

    method Shut()
      requires GateOk(View())
      modifies this
      ensures View() == GateStep(old(View()), Close) && GateOk(View())
    {
      GateStepOk(View(), Close);
      if !closed {
        closed := true;
        if active == 0 && drains == 0 {
          drains := 1;
        }
      }
    }
  }

  // ---- Owned resources

  /** `calls` counts invocations of the release callback. */
  datatype Owned = Owned(begun: bool, releasing: bool, released: bool, calls: nat)

  const NEW_RESOURCE: Owned := Owned(false, false, false, 0)

  function Begin(r: Owned): Owned {
    if r.begun then r else Owned(true, true, false, r.calls + 1)
  }

  function Finish(r: Owned): Owned {
    if r.releasing then r.(releasing := false, released := true) else r
  }

  predicate Available(r: Owned) { !r.releasing && !r.released }

  predicate OwnedOk(r: Owned) {
    && r.calls == (if r.begun then 1 else 0)
    && (r.begun <==> r.releasing || r.released) && !(r.releasing && r.released)
  }

  lemma {:induction false} ReleaseOnce(r: Owned)
    requires OwnedOk(r)
    ensures OwnedOk(Begin(r)) && OwnedOk(Finish(r))
    ensures !Available(Begin(r)) && (!Available(r) ==> !Available(Finish(r)))
  {}

  datatype ResourceMove = BeginRelease | EndRelease

  function RunResource(r: Owned, moves: seq<ResourceMove>): Owned
    decreases |moves|
  {
    if moves == [] then r
    else RunResource(if moves[0].BeginRelease? then Begin(r) else Finish(r), moves[1..])
  }

  lemma {:induction false} RunResourceOk(r: Owned, moves: seq<ResourceMove>)
    requires OwnedOk(r)
    ensures OwnedOk(RunResource(r, moves)) && (!Available(r) ==> !Available(RunResource(r, moves)))
    ensures BeginRelease in moves ==> !Available(RunResource(r, moves))
    decreases |moves|
  {
    if moves != [] {
      ReleaseOnce(r);
      RunResourceOk(if moves[0].BeginRelease? then Begin(r) else Finish(r), moves[1..]);
      assert moves == [moves[0]] + moves[1..];
    }
  }

  /** However often and by whomever a resource is released, its callback is invoked at
  most once, and its value is available exactly until the first release begins. */
  lemma {:induction false} ReleasedForGood(moves: seq<ResourceMove>)
    ensures var r := RunResource(NEW_RESOURCE, moves);
            && r.calls == (if BeginRelease in moves then 1 else 0)
            && (Available(r) <==> BeginRelease !in moves)
  {
    RunResourceOk(NEW_RESOURCE, moves);
    if BeginRelease !in moves {
      NeverBegun(NEW_RESOURCE, moves);
    }
  }

  lemma {:induction false} NeverBegun(r: Owned, moves: seq<ResourceMove>)
    requires OwnedOk(r) && Available(r) && BeginRelease !in moves
    ensures RunResource(r, moves) == r
    decreases |moves|
  {
    if moves != [] {
      assert moves[0] in moves;
      assert forall m | m in moves[1..] :: m in moves;
      NeverBegun(r, moves[1..]);
    }
  }

  class OwnedResource {
    var begun: bool
    var releasing: bool
    var released: bool
    var calls: nat

    ghost function View(): Owned
      reads this
    {
      Owned(begun, releasing, released, calls)
    }

    constructor ()
      ensures View() == NEW_RESOURCE
    {
      begun, releasing, released, calls := false, false, false, 0;
    }

    /** The value is handed out exactly as long as no release was ever begun. */
    method Value() returns (available: bool)
      requires OwnedOk(View())
      ensures available <==> calls == 0
    {
      return !(releasing || released);
    }

    /** The callback runs between the two lock sections, at most once. */
    method Release() returns (invoked: bool)
      requires OwnedOk(View())
      modifies this
      ensures OwnedOk(View()) && View() == (if old(begun) then old(View()) else Finish(Begin(old(View()))))
      ensures invoked == !old(begun)
      ensures !Available(View()) && calls == 1
    {
      if begun {
        return false;
      }
      begun, releasing := true, true;
      calls := calls + 1;
      releasing, released := false, true;
      return true;
    }
  }

  // ---- Shutdown of the Agent

  /** After draining, the protector and then the store are released; each release is
  given up waiting for after a timeout, without being repeated. */
  datatype Stage = Serving | ReleasingProtector | ReleasingStore | Finished

  datatype Life = Life(gate: Gate, stage: Stage, protector: Owned, store: Owned)

  datatype LifeMove = Calls(gate: GateMove) | Proceed | ProtectorDone | StoreDone

  const NEW_LIFE: Life := Life(NEW_GATE, Serving, NEW_RESOURCE, NEW_RESOURCE)

  function LifeStep(l: Life, m: LifeMove): Life {
    match m
    case Calls(g) => l.(gate := GateStep(l.gate, g))
    case Proceed =>
      if l.gate.drains == 0 then l
      else
        (match l.stage
         case Serving => l.(stage := ReleasingProtector, protector := Begin(l.protector))
         case ReleasingProtector => l.(stage := ReleasingStore, store := Begin(l.store))
         case ReleasingStore => l.(stage := Finished)
         case Finished => l)
    case ProtectorDone => l.(protector := Finish(l.protector))
    case StoreDone => l.(store := Finish(l.store))
  }

  function RunLife(l: Life, moves: seq<LifeMove>): Life
    decreases |moves|
  {
    if moves == [] then l else RunLife(LifeStep(l, moves[0]), moves[1..])
  }

  ghost predicate LifeOk(l: Life) {
    && GateOk(l.gate) && OwnedOk(l.protector) && OwnedOk(l.store)
    && (l.stage != Serving ==> l.gate.drains == 1)
    && (l.protector.begun <==> l.stage != Serving)
    && (l.store.begun <==> l.stage == ReleasingStore || l.stage == Finished)
  }

  lemma {:induction false} LifeStepOk(l: Life, m: LifeMove)
    requires LifeOk(l)
    ensures LifeOk(LifeStep(l, m))
    ensures l.gate.drains == 1 ==> LifeStep(l, m).gate == l.gate
  {
    if m.Calls? {
      GateStepOk(l.gate, m.gate);
    }
  }

  lemma {:induction false} RunLifeOk(l: Life, moves: seq<LifeMove>)
    requires LifeOk(l)
    ensures LifeOk(RunLife(l, moves))
    ensures l.gate.drains == 1 ==> RunLife(l, moves).gate == l.gate
    decreases |moves|
  {
    if moves != [] {
      LifeStepOk(l, moves[0]);
      RunLifeOk(LifeStep(l, moves[0]), moves[1..]);
    }
  }

  /** Drain before release: in every interleaving of calls and shutdowns the drained
  signal rises at most once and only with nothing active, nothing is admitted or
  active afterwards, and each resource begins release only after it, at most
  once, protector first. */
  lemma {:induction false} DrainBeforeRelease(before: seq<LifeMove>, after: seq<LifeMove>)
    ensures var l := RunLife(NEW_LIFE, before);
            && l.gate.drains <= 1
            && (l.gate.drains == 1 <==> l.gate.closed && l.gate.active == 0)
            && l.protector.calls <= 1 && l.store.calls <= 1
            && (l.protector.calls == 1 ==> l.gate.drains == 1)
            && (l.store.calls == 1 ==> l.protector.calls == 1)
            && (l.gate.drains == 1 ==> RunLife(l, after).gate == l.gate && l.gate.active == 0)
            && (l.gate.drains == 1 ==> BothReleased(RunLife(l, [Proceed, Proceed])))
  {
    RunLifeOk(NEW_LIFE, before);
    RunLifeOk(RunLife(NEW_LIFE, before), after);
    TwoSteps(RunLife(NEW_LIFE, before));
  }

  predicate BothReleased(l: Life) {
    l.protector.calls == 1 && l.store.calls == 1
  }

  /** Once drained, two steps of the shutdown have begun both releases. */
  lemma {:induction false} TwoSteps(l: Life)
    requires LifeOk(l)
    ensures l.gate.drains == 1 ==> BothReleased(RunLife(l, [Proceed, Proceed]))
  {
    var one := LifeStep(l, Proceed);
    var two := LifeStep(one, Proceed);
    LifeStepOk(l, Proceed);
    LifeStepOk(one, Proceed);
    assert [Proceed, Proceed][1..] == [Proceed];
    assert RunLife(one, [Proceed]) == RunLife(two, [Proceed][1..]);
  }

  // ---- Worker connections

  datatype Conn = Conn(key: Id, gate: Gate, removed: bool, done: bool)

  /** The endpoint's table of live connections, and every connection ever opened. */
  datatype Registry = Registry(active: map<Id, nat>, conns: seq<Conn>)

  datatype RegistryMove =
    | Open(key: Id)
    | Operate(conn: nat, gate: GateMove)
    | Remove(conn: nat)
    | CloseDone(conn: nat)

  function RegistryStep(r: Registry, m: RegistryMove): Registry {
    match m
    case Open(key) =>
      if key in r.active && r.active[key] < |r.conns| && !r.conns[r.active[key]].done then r
      else Registry(r.active[key := |r.conns|], r.conns + [Conn(key, NEW_GATE, false, false)])
    case Operate(i, g) =>
      if i >= |r.conns| then r else r.(conns := r.conns[i := r.conns[i].(gate := GateStep(r.conns[i].gate, g))])
    case Remove(i) =>
      if i >= |r.conns| || r.conns[i].gate.drains == 0 || r.conns[i].removed then r
      else
        var key := r.conns[i].key;
        Registry(if key in r.active && r.active[key] == i then r.active - {key} else r.active,
                 r.conns[i := r.conns[i].(removed := true)])
    case CloseDone(i) =>
      if i >= |r.conns| || !r.conns[i].removed then r else r.(conns := r.conns[i := r.conns[i].(done := true)])
  }

  predicate ConnOk(r: Registry, i: nat)
    requires i < |r.conns|
  {
    var c := r.conns[i];
    && (c.removed ==> c.gate.drains == 1) && (c.done ==> c.removed)
    && (!c.removed ==> c.key in r.active && r.active[c.key] == i)
  }

  ghost predicate RegistryOk(r: Registry) {
    && (forall i: nat | i < |r.conns| :: ConnOk(r, i) && GateOk(r.conns[i].gate))
    && (forall key | key in r.active :: r.active[key] < |r.conns| && r.conns[r.active[key]].key == key && !r.conns[r.active[key]].removed)
  }

  lemma {:induction false} RegistryStepOk(r: Registry, m: RegistryMove)
    requires RegistryOk(r)
    ensures RegistryOk(RegistryStep(r, m))
  {
    var r' := RegistryStep(r, m);
    if m.Operate? && m.conn < |r.conns| {
      GateStepOk(r.conns[m.conn].gate, m.gate);
    }
    forall i: nat | i < |r'.conns| ensures ConnOk(r', i) && GateOk(r'.conns[i].gate) {
      if i < |r.conns| {
        assert ConnOk(r, i) && GateOk(r.conns[i].gate);
      }
    }
  }

  function RunRegistry(r: Registry, moves: seq<RegistryMove>): Registry
    decreases |moves|
  {
    if moves == [] then r else RunRegistry(RegistryStep(r, moves[0]), moves[1..])
  }

  lemma {:induction false} RunRegistryOk(r: Registry, moves: seq<RegistryMove>)
    requires RegistryOk(r)
    ensures RegistryOk(RunRegistry(r, moves))
    decreases |moves|
  {
    if moves != [] {
      RegistryStepOk(r, moves[0]);
      RunRegistryOk(RegistryStep(r, moves[0]), moves[1..]);
    }
  }

  /** A worker gets a fresh connection exactly when every connection it had before was
  removed, which a connection can be once it is drained and not before; asking again
  changes nothing. */
  lemma {:induction false} ReconnectsIff(moves: seq<RegistryMove>, key: Id)
    ensures var r := RunRegistry(Registry(map[], []), moves);
            var r' := RegistryStep(r, Open(key));
            if forall i: nat | i < |r.conns| && r.conns[i].key == key :: r.conns[i].removed
            then r'.conns == r.conns + [Conn(key, NEW_GATE, false, false)] && r'.active == r.active[key := |r.conns|]
            else r' == r
    ensures var r := RunRegistry(Registry(map[], []), moves);
            forall i: nat | i < |r.conns| :: RegistryStep(r, Remove(i)).conns[i].removed <==> r.conns[i].gate.drains == 1
  {
    RunRegistryOk(Registry(map[], []), moves);
    var r := RunRegistry(Registry(map[], []), moves);
    forall i: nat | i < |r.conns| ensures ConnOk(r, i) && GateOk(r.conns[i].gate) {}
  }

  /** One worker never has two connections that are not yet drained. */
  lemma {:induction false} OneLiveConnection(moves: seq<RegistryMove>, i: nat, j: nat)
    requires var r := RunRegistry(Registry(map[], []), moves);
             && i < |r.conns| && j < |r.conns| && r.conns[i].key == r.conns[j].key
             && r.conns[i].gate.drains == 0 && r.conns[j].gate.drains == 0
    ensures i == j
  {
    RunRegistryOk(Registry(map[], []), moves);
    var r := RunRegistry(Registry(map[], []), moves);
    assert ConnOk(r, i) && ConnOk(r, j);
  }
}
