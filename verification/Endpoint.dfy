/** The worker connection: one event delivery in, one receipt or an error out, with
a bounded cache of receipts that lives as long as the connection. */
module Endpoint {
  import opened Types
  import opened Validators
  import opened Store
  import opened Commands
  import opened Invariant
  import opened Transport
  import opened Runs
  import opened Ambiguity
  import A = Agent

  const RECEIPT_LIMIT: nat := 4096

  datatype Cached = Cached(event: WorkerEvent, receipt: Receipt)
  datatype Cache = Cache(receipts: map<Id, Cached>, order: seq<Id>)

  const EMPTY_CACHE: Cache := Cache(map[], [])

  ghost predicate CacheOk(c: Cache) {
    && |c.order| <= RECEIPT_LIMIT
    && Distinct(c.order)
    && (forall id :: id in c.receipts <==> id in c.order)
  }

  /** Remembers a receipt and, when the cache is full, forgets the oldest one. */
  function Remember(c: Cache, id: Id, event: WorkerEvent, receipt: Receipt): Cache {
    var order := if id in c.receipts then c.order else c.order + [id];
    var receipts := c.receipts[id := Cached(event, receipt)];
    if |order| <= RECEIPT_LIMIT then Cache(receipts, order)
    else Cache(receipts - {order[0]}, order[1..])
  }

  /** The cache stays within its limit, stores what it is given, and forgets only the
  oldest entry, only when it is full and the identifier is new. */
  lemma {:induction false} RememberKeeps(c: Cache, id: Id, event: WorkerEvent, receipt: Receipt)
    requires CacheOk(c)
    ensures var c' := Remember(c, id, event, receipt);
            && CacheOk(c')
            && id in c'.receipts && c'.receipts[id] == Cached(event, receipt)
            && (forall k | k in c'.receipts && k != id :: k in c.receipts && c'.receipts[k] == c.receipts[k])
            && (forall k | k in c.receipts ::
                  k !in c'.receipts <==> id !in c.receipts && |c.order| == RECEIPT_LIMIT && k == c.order[0])
  {
    if id !in c.receipts {
      var order := c.order + [id];
      AppendDistinct(c.order, id);
      if |order| > RECEIPT_LIMIT {
        DropOldest(order);
        assert order[|order| - 1] == id && order[0] != id;
      }
    }
  }

  /** `n` receipts have been remembered since the one for `id`. */
  ghost predicate Aged(c: Cache, id: Id, n: nat) {
    n < |c.order| && c.order[|c.order| - 1 - n] == id
  }

  lemma {:induction false} RememberIsNewest(c: Cache, id: Id, event: WorkerEvent, receipt: Receipt)
    requires id !in c.receipts
    ensures Aged(Remember(c, id, event, receipt), id, 0)
  {}

  lemma {:induction false} OldestIsFirst(c: Cache, id: Id, n: nat)
    requires CacheOk(c) && Aged(c, id, n)
    ensures id in c.receipts && (id == c.order[0] <==> n + 1 == |c.order|)
  {
    assert id in c.order;
  }

  lemma {:induction false} RememberOrder(c: Cache, id: Id, event: WorkerEvent, receipt: Receipt, held: Id, n: nat)
    requires |c.order| <= RECEIPT_LIMIT && id !in c.receipts && Aged(c, held, n) && n + 1 < RECEIPT_LIMIT
    ensures Aged(Remember(c, id, event, receipt), held, n + 1)
  {}

  /** Every new receipt ages the others by one, and the limit is the age at which a
  receipt is forgotten. */
  lemma {:induction false} RememberAges(c: Cache, id: Id, event: WorkerEvent, receipt: Receipt, held: Id, n: nat)
    requires CacheOk(c) && id !in c.receipts && Aged(c, held, n)
    ensures var c' := Remember(c, id, event, receipt);
            if n + 1 < RECEIPT_LIMIT then Aged(c', held, n + 1) && held in c'.receipts && c'.receipts[held] == c.receipts[held]
            else held !in c'.receipts
  {
    RememberKeeps(c, id, event, receipt);
    OldestIsFirst(c, held, n);
    if n + 1 < RECEIPT_LIMIT {
      RememberOrder(c, id, event, receipt, held, n);
    }
  }

  ghost predicate Distinct(s: seq<Id>) {
    forall i, j | 0 <= i < j < |s| :: s[i] != s[j]
  }

  lemma {:induction false} AppendDistinct(s: seq<Id>, id: Id)
    requires Distinct(s) && id !in s
    ensures Distinct(s + [id]) && forall k :: k in s + [id] <==> k in s || k == id
  {}

  lemma {:induction false} DropOldest(s: seq<Id>)
    requires Distinct(s) && s != []
    ensures Distinct(s[1..]) && forall k :: k in s[1..] <==> k in s && k != s[0]
  {
    assert s == [s[0]] + s[1..];
    forall i | 0 <= i < |s[1..]| ensures s[1..][i] != s[0] {
      assert s[1..][i] == s[i + 1];
    }
  }

  /** Text that a receipt may carry. */
  type Diagnostic = s: string | |s| <= 4096 && NoneOf(s, "\0") witness ""

  type Phrase = s: string | |s| <= 2048 && NoneOf(s, "\0") witness ""

  function Joined(a: Phrase, b: Phrase): Diagnostic { a + b }

  const INVALID_TEXT: Diagnostic := "worker event is invalid"
  const FORBIDDEN_TEXT: Diagnostic := Joined("worker event belongs", " to another authority")
  const NOT_FOUND_TEXT: Diagnostic := "worker event target was not found"
  const STALE_TEXT: Diagnostic := "worker lease generation is stale"
  const REVISION_TEXT: Diagnostic := "task revision does not match"
  const CONFLICT_TEXT: Diagnostic := Joined("command identity conflicts", " with committed input")
  const STATE_TEXT: Diagnostic := Joined("task state does not allow", " this worker event")
  const REUSED_TEXT: Diagnostic := Joined("delivery id was reused", " with different input")

  function NackText(code: Code): Diagnostic {
    match code
    case RejectInvalid => INVALID_TEXT
    case RejectForbidden => FORBIDDEN_TEXT
    case RejectNotFound => NOT_FOUND_TEXT
    case RejectStaleLease => STALE_TEXT
    case RejectRevision => REVISION_TEXT
    case RejectCommandConflict => CONFLICT_TEXT
    case RejectState => STATE_TEXT
    case NoCode => ""
  }

  function NackFor(d: Delivery, code: Code): Receipt {
    Receipt(d.id, d.event.id, Nack, code, NackText(code))
  }

  function AckFor(d: Delivery): Receipt {
    Receipt(d.id, d.event.id, Ack, NoCode, "")
  }

  datatype CommitOutcome = CommitOutcome(store: StoreState, cache: Cache, reply: Result<Receipt>)

  /** What an event delivery does to the store, to the cache and to its sender. */
  ghost function CommitSpec(s: StoreState, cache: Cache, d: Delivery, p: Principal, env: Env, fault: Fault): CommitOutcome {
    if d.id in cache.receipts then
      if cache.receipts[d.id].event == d.event then CommitOutcome(s, cache, Ok(cache.receipts[d.id].receipt))
      else CommitOutcome(s, cache,
             Ok(Receipt(d.id, d.event.id, Nack, RejectCommandConflict, REUSED_TEXT)))
    else if !ValidDelivery(d) then Settles(s, cache, d, NackFor(d, RejectInvalid))
    else if d.event.task.workspace.authority != p.authority then Settles(s, cache, d, NackFor(d, RejectForbidden))
    else
      var o := Try(s, Attempt(Action(CommandOf(d.event, p.worker), env), fault));
      if o.answer.Ok? then Settles(o.state, cache, d, AckFor(d))
      else if RejectionCode(o.answer.error).Some? then Settles(o.state, cache, d, NackFor(d, RejectionCode(o.answer.error).value))
      else CommitOutcome(o.state, cache, Err(o.answer.error))
  }

  function Settles(s: StoreState, cache: Cache, d: Delivery, receipt: Receipt): CommitOutcome {
    CommitOutcome(s, Remember(cache, d.id, d.event, receipt), Ok(receipt))
  }

  /** One delivery to the connection, in whatever store and under whatever fault it meets. */
  datatype Served = Served(store: StoreState, delivery: Delivery, env: Env, fault: Fault)

  ghost function ServeOne(cache: Cache, p: Principal, x: Served): CommitOutcome {
    CommitSpec(x.store, cache, x.delivery, p, x.env, x.fault)
  }

  ghost function ServeAll(cache: Cache, p: Principal, run: seq<Served>): Cache
    decreases |run|
  {
    if run == [] then cache else ServeAll(ServeOne(cache, p, run[0]).cache, p, run[1..])
  }

  /** How many of the deliveries were answered for the first time. */
  ghost function NewReceipts(cache: Cache, p: Principal, run: seq<Served>): nat
    decreases |run|
  {
    if run == [] then 0
    else
      var o := ServeOne(cache, p, run[0]);
      (if run[0].delivery.id !in cache.receipts && o.reply.Ok? then 1 else 0) + NewReceipts(o.cache, p, run[1..])
  }

  /** A delivery is remembered exactly when it is answered for the first time. */
  lemma {:induction false} ServeEffect(cache: Cache, p: Principal, x: Served)
    ensures var o := ServeOne(cache, p, x);
            o.cache == if x.delivery.id !in cache.receipts && o.reply.Ok?
                       then Remember(cache, x.delivery.id, x.delivery.event, o.reply.value) else cache
  {
    hide Remember, Try, ValidDelivery, CommandOf, NackText;
  }

  lemma {:induction false} ServeAges(cache: Cache, p: Principal, run: seq<Served>, id: Id, n: nat)
    requires CacheOk(cache) && Aged(cache, id, n)
    ensures var later := ServeAll(cache, p, run);
            var age := n + NewReceipts(cache, p, run);
            && (age < RECEIPT_LIMIT ==> Aged(later, id, age) && id in later.receipts && later.receipts[id] == cache.receipts[id])
            && (age == RECEIPT_LIMIT ==> id !in later.receipts)
    decreases |run|
  {
    hide Remember, ServeOne;
    if run != [] {
      var x := run[0];
      ServeEffect(cache, p, x);
      var o := ServeOne(cache, p, x);
      if x.delivery.id !in cache.receipts && o.reply.Ok? {
        RememberKeeps(cache, x.delivery.id, x.delivery.event, o.reply.value);
        RememberAges(cache, x.delivery.id, x.delivery.event, o.reply.value, id, n);
        if n + 1 < RECEIPT_LIMIT {
          ServeAges(o.cache, p, run[1..], id, n + 1);
        } else if NewReceipts(o.cache, p, run[1..]) == 0 {
          NothingNew(o.cache, p, run[1..]);
        }
      } else {
        ServeAges(o.cache, p, run[1..], id, n);
      }
    }
  }

  lemma {:induction false} NothingNew(cache: Cache, p: Principal, run: seq<Served>)
    requires NewReceipts(cache, p, run) == 0
    ensures ServeAll(cache, p, run) == cache
    decreases |run|
  {
    hide Remember, ServeOne;
    if run != [] {
      ServeEffect(cache, p, run[0]);
      NothingNew(cache, p, run[1..]);
    }
  }

  lemma {:induction false} CacheStays(cache: Cache, p: Principal, run: seq<Served>)
    requires CacheOk(cache)
    ensures CacheOk(ServeAll(cache, p, run))
    decreases |run|
  {
    hide Remember, ServeOne;
    if run != [] {
      var x := run[0];
      ServeEffect(cache, p, x);
      var o := ServeOne(cache, p, x);
      if x.delivery.id !in cache.receipts && o.reply.Ok? {
        RememberKeeps(cache, x.delivery.id, x.delivery.event, o.reply.value);
      }
      CacheStays(o.cache, p, run[1..]);
    }
  }

  /** A connection repeats its first answer to a delivery, acknowledgement or
  rejection, without touching the store, through every sequence of later deliveries
  that are answered fewer than RECEIPT_LIMIT times anew; with the one that reaches
  the limit the answer is forgotten. */
  lemma {:induction false} AnswerIsRepeated(before: seq<Served>, p: Principal, first: Served, later: seq<Served>,
                                            again: Served)
    requires var cache := ServeAll(EMPTY_CACHE, p, before);
             first.delivery.id !in cache.receipts && ServeOne(cache, p, first).reply.Ok?
    requires again.delivery == first.delivery
    ensures var o := ServeOne(ServeAll(EMPTY_CACHE, p, before), p, first);
            var end := ServeAll(o.cache, p, later);
            && (NewReceipts(o.cache, p, later) < RECEIPT_LIMIT ==>
                  ServeOne(end, p, again) == CommitOutcome(again.store, end, o.reply))
            && (NewReceipts(o.cache, p, later) == RECEIPT_LIMIT ==> first.delivery.id !in end.receipts)
  {
    hide Remember, Try, ServeAll, NewReceipts, ValidDelivery, CommandOf, NackText;
    CacheStays(EMPTY_CACHE, p, before);
    var cache := ServeAll(EMPTY_CACHE, p, before);
    ServeEffect(cache, p, first);
    var o := ServeOne(cache, p, first);
    RememberKeeps(cache, first.delivery.id, first.delivery.event, o.reply.value);
    RememberIsNewest(cache, first.delivery.id, first.delivery.event, o.reply.value);
    ServeAges(o.cache, p, later, first.delivery.id, 0);
  }

  class Connection {
    const principal: Principal
    const agent: A.Agent
    var receipts: map<Id, Cached>
    var receiptOrder: seq<Id>

    constructor (p: Principal, service: A.Agent)
      ensures principal == p && agent == service && View() == EMPTY_CACHE
    {
      principal, agent := p, service;
      receipts, receiptOrder := map[], [];
    }

    function View(): Cache
      reads this
    {
      Cache(receipts, receiptOrder)
    }

    method RememberReceipt(id: Id, event: WorkerEvent, receipt: Receipt)
      modifies this
      ensures View() == Remember(old(View()), id, event, receipt)
    {
      if id !in receipts {
        receiptOrder := receiptOrder + [id];
      }
      receipts := receipts[id := Cached(event, receipt)];
      if |receiptOrder| <= RECEIPT_LIMIT {
        return;
      }
      var oldest := receiptOrder[0];
      receiptOrder := receiptOrder[1..];
      receipts := receipts - {oldest};
    }

    /** The fault this delivery meets, if it gets as far as the Agent. */
    ghost function FaultAt(d: Delivery, env: Env): Fault
      reads this, agent.store
    {
      if ValidDelivery(d) && d.event.task.workspace.authority == principal.authority && d.id !in receipts
      then agent.FaultOf(CommandOf(d.event, principal.worker), env) else Faultless
    }

    method CommitEvent(d: Delivery, env: Env) returns (r: Result<Receipt>)
      requires Inv(agent.store.state)
      modifies this, agent.store
      ensures CommitOutcome(agent.store.state, View(), r)
              == CommitSpec(old(agent.store.state), old(View()), d, principal, env, old(FaultAt(d, env)))
      ensures Inv(agent.store.state)
    {
      hide Inv, Execute, Try, Remember, NackText;
      if d.id in receipts {
        if receipts[d.id].event == d.event {
          return Ok(receipts[d.id].receipt);
        }
        return Ok(Receipt(d.id, d.event.id, Nack, RejectCommandConflict, REUSED_TEXT));
      }
      if !ValidDelivery(d) {
        var nack := NackFor(d, RejectInvalid);
        RememberReceipt(d.id, d.event, nack);
        return Ok(nack);
      }
      if d.event.task.workspace.authority != principal.authority {
        var nack := NackFor(d, RejectForbidden);
        RememberReceipt(d.id, d.event, nack);
        return Ok(nack);
      }
      var command := CommandOf(d.event, principal.worker);
      var answer := agent.Do(command, env);
      if answer.Ok? {
        var ack := AckFor(d);
        RememberReceipt(d.id, d.event, ack);
        return Ok(ack);
      }
      var code := RejectionCode(answer.error);
      if code.Some? {
        var nack := NackFor(d, code.value);
        RememberReceipt(d.id, d.event, nack);
        return Ok(nack);
      }
      return Err(answer.error);
    }
  }
}
