/** Worker delivery end to end. One worker's journal sends events over a network that
loses, duplicates and reorders; the connection may be replaced at any time; other
participants and ambiguous commits interleave freely. */
module DeliverySystem {
  import opened Types
  import opened Validators
  import opened Store
  import opened Commands
  import opened Invariant
  import opened Growth
  import opened Runs
  import opened Ambiguity
  import opened Transport
  import opened Endpoint
  import J = Journal
  import Corruption
  import O = Outcomes
  import Fencing

  /** `sent` and `receipts` hold everything ever put on the wire: a copy may arrive
  any number of times, in any order, or never. */
  datatype System = System(
    store: StoreState, journal: J.JournalState, cache: Cache, sent: set<Delivery>, receipts: set<Receipt>)

  datatype Move =
    | Other(attempt: Attempt)
    | Put(put: Delivery)
    | Send(id: Id)
    | Deliver(copy: Delivery, env: Env, fault: Fault)
    | Settle(receipt: Receipt, inFlight: Delivery)
    | Inbox(op: J.Op)
    | Reconnect

  const START: System := System(EMPTY, J.EMPTY_JOURNAL, EMPTY_CACHE, {}, {})

  /** Moves that are not enabled leave the system as it is. */
  ghost function Step(y: System, m: Move, p: Principal): System {
    match m
    case Other(attempt) => y.(store := Try(y.store, attempt).state)
    case Put(d) => y.(journal := J.Step(y.journal, J.PutEvent(J.DigestOfDelivery(d), d), p).state)
    case Send(id) =>
      if id in y.journal.events && y.journal.events[id].pending.Some?
      then y.(sent := y.sent + {y.journal.events[id].pending.value}) else y
    case Deliver(d, env, fault) =>
      if d !in y.sent then y
      else
        var o := CommitSpec(y.store, y.cache, d, p, env, fault);
        y.(store := o.store, cache := o.cache,
           receipts := if o.reply.Ok? then y.receipts + {o.reply.value} else y.receipts)
    case Settle(receipt, inFlight) =>
      if receipt !in y.receipts then y
      else y.(journal := J.Step(y.journal,
                J.SettleEvent(receipt, J.DigestOfDelivery(inFlight), J.DigestOfReceipt(receipt)), p).state)
    case Inbox(op) =>
      if op.PutEvent? || op.SettleEvent? then y else y.(journal := J.Step(y.journal, op, p).state)
    case Reconnect => y.(cache := EMPTY_CACHE)
  }

  ghost function RunSystem(y: System, moves: seq<Move>, p: Principal): System
    decreases |moves|
  {
    if moves == [] then y else RunSystem(Step(y, moves[0], p), moves[1..], p)
  }

  // ---- The invariant

  /** The event's exact input is committed. */
  predicate Landed(s: StoreState, e: WorkerEvent, p: Principal) {
    ValidEvent(e) && Committed(s, CommandOf(e, p.worker))
  }

  predicate EntryOk(j: J.JournalState, id: Id)
    requires id in j.events
  {
    && j.events[id].digest.DigestOfDelivery? && j.events[id].digest.delivery.id == id
    && (j.events[id].pending.Some? ==> j.events[id].pending.value == j.events[id].digest.delivery)
  }

  predicate SentOk(j: J.JournalState, d: Delivery) {
    d.id in j.events && j.events[d.id].digest == J.DigestOfDelivery(d)
  }

  predicate CachedOk(y: System, p: Principal, id: Id)
    requires id in y.cache.receipts
  {
    var c := y.cache.receipts[id];
    && Delivery(id, c.event) in y.sent && c.receipt.delivery == id && c.receipt.event == c.event.id
    && (c.receipt.decision.Ack? ==> Landed(y.store, c.event, p))
  }

  ghost predicate WireOk(y: System, p: Principal, r: Receipt) {
    exists d :: d in y.sent && d.id == r.delivery && d.event.id == r.event
                && (r.decision.Ack? ==> Landed(y.store, d.event, p))
  }

  predicate SettledOk(y: System, p: Principal, id: Id)
    requires id in y.journal.events && EntryOk(y.journal, id)
  {
    y.journal.events[id].pending.None? && id !in y.journal.rejections ==>
      Landed(y.store, y.journal.events[id].digest.delivery.event, p)
  }

  ghost predicate JournalOk(j: J.JournalState) {
    && (forall id | id in j.events :: EntryOk(j, id))
    && (forall id | id in j.events && j.events[id].pending.Some? :: id !in j.rejections)
    && j.rejections.Keys <= j.events.Keys
  }

  ghost predicate Sound(y: System, p: Principal) {
    && Inv(y.store) && JournalOk(y.journal)
    && (forall d | d in y.sent :: SentOk(y.journal, d))
    && (forall id | id in y.cache.receipts :: CachedOk(y, p, id))
    && (forall r | r in y.receipts :: WireOk(y, p, r))
    && (forall id | id in y.journal.events :: SettledOk(y, p, id))
  }

  lemma {:induction false} StartSound(p: Principal)
    ensures Sound(START, p)
  {
    EmptyInv();
  }

  // ---- Preservation

  lemma {:induction false} LandedStays(s: StoreState, s': StoreState, e: WorkerEvent, p: Principal)
    requires Grows(s, s') && Landed(s, e, p)
    ensures Landed(s', e, p)
  {
    hide ValidEvent, CommandOf;
    CommittedStays(s, s', CommandOf(e, p.worker));
  }

  /** The store may grow under a sound system. */
  lemma {:induction false} StoreGrowsSound(y: System, p: Principal, s': StoreState)
    requires Sound(y, p) && Inv(s') && Grows(y.store, s')
    ensures Sound(y.(store := s'), p)
  {
    hide Inv, Grows, Landed;
    var y' := y.(store := s');
    forall id | id in y'.cache.receipts ensures CachedOk(y', p, id) {
      assert CachedOk(y, p, id);
      if y.cache.receipts[id].receipt.decision.Ack? {
        LandedStays(y.store, s', y.cache.receipts[id].event, p);
      }
    }
    forall r | r in y'.receipts ensures WireOk(y', p, r) {
      assert WireOk(y, p, r);
      var d :| d in y.sent && d.id == r.delivery && d.event.id == r.event && (r.decision.Ack? ==> Landed(y.store, d.event, p));
      if r.decision.Ack? {
        LandedStays(y.store, s', d.event, p);
      }
    }
    forall id | id in y'.journal.events ensures SettledOk(y', p, id) {
      assert SettledOk(y, p, id);
      if y.journal.events[id].pending.None? && id !in y.journal.rejections {
        LandedStays(y.store, s', y.journal.events[id].digest.delivery.event, p);
      }
    }
  }

  ghost predicate DigestsKept(j: J.JournalState, j': J.JournalState) {
    forall id | id in j.events :: id in j'.events && j'.events[id].digest == j.events[id].digest
  }

  /** The journal may change under a sound system. */
  lemma {:induction false} JournalChangesSound(y: System, p: Principal, j': J.JournalState)
    requires Sound(y, p) && JournalOk(j') && DigestsKept(y.journal, j')
    requires forall id | id in j'.events :: SettledOk(y.(journal := j'), p, id)
    ensures Sound(y.(journal := j'), p)
  {
    hide Inv, Landed, EntryOk, JournalOk;
    var y' := y.(journal := j');
    forall id | id in y'.cache.receipts ensures CachedOk(y', p, id) {
      assert CachedOk(y, p, id);
    }
    forall r | r in y'.receipts ensures WireOk(y', p, r) {
      assert WireOk(y, p, r);
    }
    forall e | e in y'.sent ensures SentOk(y'.journal, e) {
      assert SentOk(y.journal, e);
    }
  }

  lemma {:induction false} PutSound(y: System, p: Principal, d: Delivery)
    requires Sound(y, p)
    ensures Sound(Step(y, Put(d), p), p)
  {
    hide Inv, Landed, ValidDeliveryFor;
    var j' := J.Step(y.journal, J.PutEvent(J.DigestOfDelivery(d), d), p).state;
    forall id | id in j'.events ensures EntryOk(j', id) && SettledOk(y.(journal := j'), p, id) {
      if id in y.journal.events {
        assert EntryOk(y.journal, id) && SettledOk(y, p, id);
      }
    }
    JournalChangesSound(y, p, j');
  }

  lemma {:induction false} InboxSound(y: System, p: Principal, op: J.Op)
    requires Sound(y, p) && !op.PutEvent? && !op.SettleEvent?
    ensures Sound(y.(journal := J.Step(y.journal, op, p).state), p)
  {
    hide Inv, Landed, J.ValidAssignmentFor, ValidId;
    var j' := J.Step(y.journal, op, p).state;
    assert j'.events == y.journal.events && j'.rejections.Keys == y.journal.rejections.Keys;
    forall id | id in j'.events ensures EntryOk(j', id) && SettledOk(y.(journal := j'), p, id) {
      assert EntryOk(y.journal, id) && SettledOk(y, p, id);
    }
    JournalChangesSound(y, p, j');
  }

  /** A receipt from the wire names the delivery that was sent under its identity, so
  an acknowledgement settles nothing but the input that was committed. */
  lemma {:induction false} AckNamesTheEntry(y: System, p: Principal, r: Receipt)
    requires Sound(y, p) && r in y.receipts && r.decision.Ack?
    ensures r.delivery in y.journal.events && Landed(y.store, y.journal.events[r.delivery].digest.delivery.event, p)
  {
    hide Inv, Landed;
    assert WireOk(y, p, r);
    var d :| d in y.sent && d.id == r.delivery && d.event.id == r.event && Landed(y.store, d.event, p);
    assert SentOk(y.journal, d);
  }

  /** A settlement touches one entry and, rejecting, adds its rejection. */
  lemma {:induction false} SettleTouchesOne(j: J.JournalState, p: Principal, r: Receipt, e: J.JournalDigest, d: J.JournalDigest)
    ensures var j' := J.Step(j, J.SettleEvent(r, e, d), p).state;
            || j' == j
            || (&& r.delivery in j.events && j.events[r.delivery].pending.Some?
                && j'.events == j.events[r.delivery := j.events[r.delivery].(pending := None, receiptDigest := Some(d))]
                && (if r.decision.Ack? then j'.rejections == j.rejections
                    else r.delivery in j'.rejections && j'.rejections == j.rejections[r.delivery := j'.rejections[r.delivery]]))
  {
    hide ReceiptFits;
  }

  /** A settlement leaves its entry pending, acknowledged or rejected, and no other is
  affected. */
  lemma {:induction false} SettleEffect(j: J.JournalState, p: Principal, r: Receipt, e: J.JournalDigest, d: J.JournalDigest)
    requires JournalOk(j)
    ensures var j' := J.Step(j, J.SettleEvent(r, e, d), p).state;
            && JournalOk(j') && DigestsKept(j, j') && j'.events.Keys == j.events.Keys
            && (forall id | id in j.events && id != r.delivery ::
                  j'.events[id] == j.events[id] && (id in j'.rejections <==> id in j.rejections))
            && (r.delivery in j.events && j.events[r.delivery].pending.Some? && j'.events[r.delivery].pending.None? ==>
                  r.decision.Ack? || r.delivery in j'.rejections)
            && (r.delivery in j.events && j.events[r.delivery].pending.None? ==> j' == j)
  {
    hide J.Step;
    SettleTouchesOne(j, p, r, e, d);
    assert forall id | id in j.events :: EntryOk(j, id);
  }

  lemma {:induction false} SettleSound(y: System, p: Principal, r: Receipt, inFlight: Delivery)
    requires Sound(y, p) && r in y.receipts
    ensures Sound(Step(y, Settle(r, inFlight), p), p)
  {
    hide Inv, Landed, ReceiptFits, J.Step, JournalOk, DigestsKept;
    SettleEffect(y.journal, p, r, J.DigestOfDelivery(inFlight), J.DigestOfReceipt(r));
    var j' := J.Step(y.journal, J.SettleEvent(r, J.DigestOfDelivery(inFlight), J.DigestOfReceipt(r)), p).state;
    JournalEntries(y.journal);
    JournalEntries(j');
    forall id | id in j'.events ensures SettledOk(y.(journal := j'), p, id) {
      assert SettledOk(y, p, id);
      if id == r.delivery && r.decision.Ack? {
        AckNamesTheEntry(y, p, r);
      }
      SameDigest(y.journal, j', id);
    }
    JournalChangesSound(y, p, j');
  }

  lemma {:induction false} JournalEntries(j: J.JournalState)
    requires JournalOk(j)
    ensures forall id | id in j.events :: EntryOk(j, id)
  {}

  lemma {:induction false} SameDigest(j: J.JournalState, j': J.JournalState, id: Id)
    requires DigestsKept(j, j') && id in j.events
    ensures id in j'.events && j'.events[id].digest == j.events[id].digest
  {}

  lemma {:induction false} SendSound(y: System, p: Principal, id: Id)
    requires Sound(y, p)
    ensures Sound(Step(y, Send(id), p), p)
  {
    hide Inv, Landed;
    var y' := Step(y, Send(id), p);
    forall r | r in y'.receipts ensures WireOk(y', p, r) {
      assert WireOk(y, p, r);
      var d :| d in y.sent && d.id == r.delivery && d.event.id == r.event && (r.decision.Ack? ==> Landed(y.store, d.event, p));
      assert d in y'.sent;
    }
    forall k | k in y'.cache.receipts ensures CachedOk(y', p, k) {
      assert CachedOk(y, p, k);
    }
    forall k | k in y'.journal.events ensures SettledOk(y', p, k) {
      assert EntryOk(y.journal, k) && SettledOk(y, p, k);
    }
    forall d | d in y'.sent ensures SentOk(y'.journal, d) {
      if d in y.sent {
        assert SentOk(y.journal, d);
      } else {
        assert EntryOk(y.journal, id);
      }
    }
  }

  lemma {:induction false} ReconnectSound(y: System, p: Principal)
    requires Sound(y, p)
    ensures Sound(Step(y, Reconnect, p), p)
  {
    hide Inv, Landed;
    var y' := Step(y, Reconnect, p);
    forall r | r in y'.receipts ensures WireOk(y', p, r) {
      assert WireOk(y, p, r);
    }
    forall id | id in y'.journal.events ensures SettledOk(y', p, id) {
      assert SettledOk(y, p, id);
    }
  }

  // ---- Deliveries

  /** A new receipt for a sent delivery, acknowledging only what has landed. */
  lemma {:induction false} ReplySound(y: System, p: Principal, d: Delivery, r: Receipt)
    requires Sound(y, p) && d in y.sent && r.delivery == d.id && r.event == d.event.id
    requires r.decision.Ack? ==> Landed(y.store, d.event, p)
    ensures Sound(y.(receipts := y.receipts + {r}), p)
    ensures Sound(y.(cache := Remember(y.cache, d.id, d.event, r), receipts := y.receipts + {r}), p)
  {
    hide Inv, Landed, JournalOk, SettledOk;
    var cache' := Remember(y.cache, d.id, d.event, r);
    var y1 := y.(receipts := y.receipts + {r});
    var y2 := y1.(cache := cache');
    assert d == Delivery(d.id, d.event);
    forall x | x in y1.receipts ensures WireOk(y1, p, x) && WireOk(y2, p, x) {
      if x in y.receipts {
        assert WireOk(y, p, x);
        var c :| c in y.sent && c.id == x.delivery && c.event.id == x.event && (x.decision.Ack? ==> Landed(y.store, c.event, p));
        assert c in y1.sent && c in y2.sent;
      } else {
        assert d in y1.sent && d in y2.sent;
      }
    }
    forall id | id in y1.cache.receipts ensures CachedOk(y1, p, id) {
      assert CachedOk(y, p, id);
    }
    forall id | id in y2.cache.receipts ensures CachedOk(y2, p, id) {
      if id != d.id {
        assert CachedOk(y, p, id);
      }
    }
    SameSettled(y, y1, p);
    SameSettled(y, y2, p);
  }

  lemma {:induction false} SameSettled(y: System, y': System, p: Principal)
    requires Sound(y, p) && y'.journal == y.journal && y'.store == y.store && y'.sent == y.sent
    ensures forall id | id in y'.journal.events :: SettledOk(y', p, id)
    ensures forall d | d in y'.sent :: SentOk(y'.journal, d)
  {
    hide Inv, Landed;
    forall id | id in y'.journal.events ensures SettledOk(y', p, id) {
      assert SettledOk(y, p, id);
    }
  }

  /** A reply for the Agent's own answer acknowledges exactly a committed command. */
  lemma {:induction false} AnswerLands(s: StoreState, d: Delivery, p: Principal, env: Env, fault: Fault)
    requires ValidDelivery(d)
    requires Try(s, Attempt(Action(CommandOf(d.event, p.worker), env), fault)).answer.Ok?
    ensures Landed(Try(s, Attempt(Action(CommandOf(d.event, p.worker), env), fault)).state, d.event, p)
  {
    hide Try, Committed, CommandOf, ValidEvent;
    SuccessIsRecorded(s, Attempt(Action(CommandOf(d.event, p.worker), env), fault));
  }

  lemma {:induction false} DeliverSound(y: System, p: Principal, d: Delivery, env: Env, fault: Fault)
    requires Sound(y, p) && d in y.sent
    ensures Sound(Step(y, Deliver(d, env, fault), p), p)
  {
    hide Sound, Inv, Try, Landed, CommandOf, Remember, NackText, ValidEvent, Grows;
    var o := CommitSpec(y.store, y.cache, d, p, env, fault);
    if d.id in y.cache.receipts {
      CachedReply(y, p, d);
      ReplySound(y, p, d, o.reply.value);
    } else if !ValidDelivery(d) || d.event.task.workspace.authority != p.authority {
      ReplySound(y, p, d, o.reply.value);
    } else {
      var a := Attempt(Action(CommandOf(d.event, p.worker), env), fault);
      SoundStore(y, p);
      TryKeeps(y.store, a);
      var y1 := y.(store := Try(y.store, a).state);
      StoreGrowsSound(y, p, y1.store);
      if Try(y.store, a).answer.Ok? {
        AnswerLands(y.store, d, p, env, fault);
      }
      if o.reply.Ok? {
        ReplySound(y1, p, d, o.reply.value);
      }
    }
  }

  lemma {:induction false} SoundStore(y: System, p: Principal)
    requires Sound(y, p)
    ensures Inv(y.store)
  {}

  lemma {:induction false} CachedReply(y: System, p: Principal, d: Delivery)
    requires Sound(y, p) && d in y.sent && d.id in y.cache.receipts
    ensures var c := y.cache.receipts[d.id];
            && c.event == d.event && c.receipt.delivery == d.id && c.receipt.event == d.event.id
            && (c.receipt.decision.Ack? ==> Landed(y.store, d.event, p))
  {
    hide Inv, Landed;
    assert CachedOk(y, p, d.id);
    assert SentOk(y.journal, d) && SentOk(y.journal, Delivery(d.id, y.cache.receipts[d.id].event));
  }

  lemma {:induction false} StepSound(y: System, m: Move, p: Principal)
    requires Sound(y, p)
    ensures Sound(Step(y, m, p), p)
  {
    hide Sound, Inv, Try, J.Step, CommitSpec, Grows;
    match m
    case Other(attempt) =>
      SoundStore(y, p);
      TryKeeps(y.store, attempt);
      StoreGrowsSound(y, p, Try(y.store, attempt).state);
    case Put(d) => PutSound(y, p, d);
    case Send(id) => SendSound(y, p, id);
    case Deliver(d, env, fault) => if d in y.sent { DeliverSound(y, p, d, env, fault); }
    case Settle(r, d) => if r in y.receipts { SettleSound(y, p, r, d); }
    case Inbox(op) => if !op.PutEvent? && !op.SettleEvent? { InboxSound(y, p, op); }
    case Reconnect => ReconnectSound(y, p);
  }

  lemma {:induction false} RunSound(y: System, moves: seq<Move>, p: Principal)
    requires Sound(y, p)
    ensures Sound(RunSystem(y, moves, p), p)
    decreases |moves|
  {
    hide Sound, Step;
    if moves != [] {
      StepSound(y, moves[0], p);
      RunSound(Step(y, moves[0], p), moves[1..], p);
    }
  }

  // ---- The theorems

  /** Acknowledgements are sound end to end: whatever the network, the connections,
  the cache and the commits do, an outbox entry settled without a rejection has
  its exact input committed and has taken its effect: the log holds the event of its
  kind at the revision after the expected one, with its message, Submission or
  Artifact, and no other command produced that event. */
  lemma {:induction false} AckSoundness(moves: seq<Move>, p: Principal, id: Id)
    requires var y := RunSystem(START, moves, p);
             id in y.journal.events && y.journal.events[id].pending.None? && id !in y.journal.rejections
    ensures var y := RunSystem(START, moves, p);
            && y.journal.events[id].digest.DigestOfDelivery?
            && var e := y.journal.events[id].digest.delivery.event;
               Landed(y.store, e, p) && O.TookEffect(y.store, e, p.worker) && O.Once(y.store, e)
  {
    hide Inv, Landed, RunSystem, O.TookEffect, O.Once, Reachable;
    StartSound(p);
    RunSound(START, moves, p);
    EmptyReachable();
    SystemReachable(START, moves, p);
    var y := RunSystem(START, moves, p);
    assert EntryOk(y.journal, id) && SettledOk(y, p, id);
    LandedTookEffect(y.store, y.journal.events[id].digest.delivery.event, p);
  }

  lemma {:induction false} LandedTookEffect(s: StoreState, e: WorkerEvent, p: Principal)
    requires Reachable(s) && Landed(s, e, p)
    ensures O.TookEffect(s, e, p.worker) && O.Once(s, e)
  {
    hide Reachable, ValidEvent, CommandOf, Committed, O.TookEffect, O.Once;
    O.CommittedTookEffect(s, e, p.worker);
  }

  /** An acknowledged delivery is never refused later: after eviction or reconnect it
  is acknowledged again, or its attempt fails without an answer. */
  lemma {:induction false} AckIsPermanent(y: System, moves: seq<Move>, p: Principal, d: Delivery, env: Env, fault: Fault)
    requires y == RunSystem(START, moves, p) && d.id !in y.cache.receipts
    requires Landed(y.store, d.event, p) && ValidId(d.id) && d.event.task.workspace.authority == p.authority
    ensures var o := CommitSpec(y.store, y.cache, d, p, env, fault);
            o.store == y.store && o.reply == (if fault.Faultless? then Ok(AckFor(d)) else Err(StoreCommitUnknown))
  {
    hide Sound, Inv, Remember, NackText, CommandOf, Refusal, Decide, Apply, RunSystem;
    StartSound(p);
    RunSound(START, moves, p);
    var c := CommandOf(d.event, p.worker);
    SoundStore(y, p);
    CommittedValid(y.store, c);
    assert Execute(y.store, c, env) == Outcome(y.store, Ok(y.store.commands[KeyOf(c)].answer));
  }

  lemma {:induction false} CommittedValid(s: StoreState, c: Command)
    requires Inv(s) && Committed(s, c)
    ensures ValidCommand(c)
  {
    hide TasksOk, PublicIdsUnique, LogsOk, MessagesOk, LinksOk, GrantsOk, ArtifactsOk, SubmissionsOk, HeadsOk, ReceiptsOk, EffectsOk;
    assert CommandRowOk(s, KeyOf(c), s.commands[KeyOf(c)]);
  }

  /** An error leaves journal, cache and receipts as they are. */
  lemma {:induction false} ErrorSettlesNothing(y: System, p: Principal, d: Delivery, env: Env, fault: Fault)
    requires d in y.sent && CommitSpec(y.store, y.cache, d, p, env, fault).reply.Err?
    ensures Step(y, Deliver(d, env, fault), p) == y.(store := CommitSpec(y.store, y.cache, d, p, env, fault).store)
  {
    hide Try, Remember, NackText;
  }

  /** A settled entry carries the digest of a receipt that was sent for it, rejecting
  exactly if the entry has a rejection. */
  ghost predicate WasAnswered(y: System, id: Id)
    requires id in y.journal.events
  {
    exists r :: && r in y.receipts && r.delivery == id
                && y.journal.events[id].receiptDigest == Some(J.DigestOfReceipt(r))
                && (r.decision.Nack? <==> id in y.journal.rejections)
  }

  ghost predicate AllAnswered(y: System) {
    forall id | id in y.journal.events && y.journal.events[id].pending.None? :: WasAnswered(y, id)
  }

  lemma {:induction false} AnsweredStays(y: System, y': System, id: Id)
    requires id in y.journal.events && WasAnswered(y, id) && y.receipts <= y'.receipts
    requires id in y'.journal.events && y'.journal.events[id] == y.journal.events[id]
    requires id in y'.journal.rejections <==> id in y.journal.rejections
    ensures WasAnswered(y', id)
  {
    var r :| r in y.receipts && r.delivery == id && y.journal.events[id].receiptDigest == Some(J.DigestOfReceipt(r))
             && (r.decision.Nack? <==> id in y.journal.rejections);
    assert r in y'.receipts;
  }

  lemma {:induction false} SettleAnswers(j: J.JournalState, p: Principal, r: Receipt, e: J.JournalDigest, d: J.JournalDigest)
    requires JournalOk(j) && r.delivery in j.events && j.events[r.delivery].pending.Some?
    ensures var j' := J.Step(j, J.SettleEvent(r, e, d), p).state;
            r.delivery in j'.events && j'.events[r.delivery].pending.None? ==>
              j'.events[r.delivery].receiptDigest == Some(d) && (r.decision.Nack? <==> r.delivery in j'.rejections)
  {
    hide ReceiptFits;
  }

  lemma {:induction false} StepAnswered(y: System, m: Move, p: Principal)
    requires Sound(y, p) && AllAnswered(y)
    ensures AllAnswered(Step(y, m, p))
  {
    hide Sound, CommitSpec, Try, JournalOk, GrantsOk, WasAnswered, EntryOk, SentOk;
    SoundGrants(y, p);
    var y' := Step(y, m, p);
    forall id | id in y'.journal.events && y'.journal.events[id].pending.None? ensures WasAnswered(y', id) {
      if m.Settle? && m.receipt in y.receipts {
        SettleStepAnswered(y, m.receipt, m.inFlight, p, id);
      } else if m.Put? {
        PutStepAnswered(y, m.put, p, id);
      } else if m.Inbox? {
        InboxStepAnswered(y, m.op, p, id);
      } else {
        AnsweredStays(y, y', id);
      }
    }
  }

  lemma {:induction false} SettleStepAnswered(y: System, r: Receipt, f: Delivery, p: Principal, id: Id)
    requires JournalOk(y.journal) && AllAnswered(y) && r in y.receipts
    requires var y' := Step(y, Settle(r, f), p); id in y'.journal.events && y'.journal.events[id].pending.None?
    ensures WasAnswered(Step(y, Settle(r, f), p), id)
  {
    hide J.Step, JournalOk, DigestsKept, WasAnswered;
    var e, d := J.DigestOfDelivery(f), J.DigestOfReceipt(r);
    var y' := Step(y, Settle(r, f), p);
    SettleEffect(y.journal, p, r, e, d);
    if id == r.delivery && y.journal.events[id].pending.Some? {
      SettleAnswers(y.journal, p, r, e, d);
      AnsweredBy(y', id, r);
    } else {
      AnsweredStays(y, y', id);
    }
  }

  lemma {:induction false} AnsweredBy(y: System, id: Id, r: Receipt)
    requires id in y.journal.events && r in y.receipts && r.delivery == id
    requires y.journal.events[id].receiptDigest == Some(J.DigestOfReceipt(r)) && (r.decision.Nack? <==> id in y.journal.rejections)
    ensures WasAnswered(y, id)
  {}

  lemma {:induction false} PutStepAnswered(y: System, d: Delivery, p: Principal, id: Id)
    requires AllAnswered(y)
    requires var y' := Step(y, Put(d), p); id in y'.journal.events && y'.journal.events[id].pending.None?
    ensures WasAnswered(Step(y, Put(d), p), id)
  {
    hide WasAnswered, ValidDeliveryFor;
    AnsweredStays(y, Step(y, Put(d), p), id);
  }

  lemma {:induction false} InboxStepAnswered(y: System, op: J.Op, p: Principal, id: Id)
    requires AllAnswered(y)
    requires var y' := Step(y, Inbox(op), p); id in y'.journal.events && y'.journal.events[id].pending.None?
    ensures WasAnswered(Step(y, Inbox(op), p), id)
  {
    hide WasAnswered, J.ValidAssignmentFor, ValidId;
    AnsweredStays(y, Step(y, Inbox(op), p), id);
  }

  lemma {:induction false} RunAnswered(y: System, moves: seq<Move>, p: Principal)
    requires Sound(y, p) && AllAnswered(y)
    ensures AllAnswered(RunSystem(y, moves, p))
    decreases |moves|
  {
    hide Sound, Step, AllAnswered;
    if moves != [] {
      StepSound(y, moves[0], p);
      StepAnswered(y, moves[0], p);
      RunAnswered(Step(y, moves[0], p), moves[1..], p);
    }
  }

  /** Only a reply settles: in every run, an entry that is no longer pending was settled
  by a receipt some delivery of it returned, and has a rejection exactly if that
  receipt rejects. Deliveries that end in an error leave it pending. */
  lemma {:induction false} SettledWasAnswered(moves: seq<Move>, p: Principal, id: Id)
    ensures var y := RunSystem(START, moves, p);
            id in y.journal.events && y.journal.events[id].pending.None? ==> WasAnswered(y, id)
  {
    hide Sound, RunSystem, WasAnswered;
    StartSound(p);
    RunAnswered(START, moves, p);
  }

  // ---- Deliveries that get no answer

  /** Every refusal of a worker command but the corruption error is a rejection. */
  lemma {:induction false} RefusalsAreRejections(s: StoreState, c: Command, env: Env)
    requires (IsTransition(c) || c.FreezeArtifact?) && Refusal(s, c, env).Some?
    ensures RejectionCode(Refusal(s, c, env).value).Some? <==> Refusal(s, c, env) != Some(CorruptStore)
  {
    hide ValidCommand, SubmissionTaken, ArtifactTaken, Frozen, SealFits, FrozenArtifact;
  }

  lemma {:induction false} AnswersAreRejections(s: StoreState, c: Command, env: Env)
    requires (IsTransition(c) || c.FreezeArtifact?) && Execute(s, c, env).answer.Err?
    ensures RejectionCode(Execute(s, c, env).answer.error).Some? <==> Execute(s, c, env).answer != Err(CorruptStore)
  {
    hide ValidCommand, KeyOf, Refusal, Decide, Apply;
    if Refusal(s, c, env).Some? {
      RefusalsAreRejections(s, c, env);
    }
  }

  lemma {:induction false} WorkerCommand(e: WorkerEvent, worker: Id)
    requires ValidEvent(e)
    ensures var c := CommandOf(e, worker); IsTransition(c) || c.FreezeArtifact?
  {
    hide ValidId, ValidMessageInput, ValidPayload, ValidRevision;
  }

  /** Which deliveries end in an error. In a reachable store a delivery the cache does not
  answer gets none if and only if it is well-formed, belongs to this authority, and
  names another worker's fence, or its commit is lost or not acknowledged. */
  lemma {:induction false} NoAnswerIff(s: StoreState, cache: Cache, p: Principal, d: Delivery, env: Env, fault: Fault)
    requires Reachable(s)
    ensures CommitSpec(s, cache, d, p, env, fault).reply.Err? <==>
            && d.id !in cache.receipts && ValidDeliveryFor(d, p)
            && var c := CommandOf(d.event, p.worker);
               || Corruption.PresentsForeignFence(s, c, env)
               || fault.Lost?
               || (fault.Unacknowledged? && Execute(s, c, env).answer.Ok?)
  {
    hide Reachable, Remember, NackText, CommandOf, ValidEvent, Execute, Corruption.PresentsForeignFence, ValidId, RejectionCode;
    UncodedErrors();
    if d.id !in cache.receipts && ValidDeliveryFor(d, p) {
      var c := CommandOf(d.event, p.worker);
      WorkerCommand(d.event, p.worker);
      Corruption.CorruptionMeansForeignFence(s, c, env);
      if Execute(s, c, env).answer.Err? {
        AnswersAreRejections(s, c, env);
      }
    }
  }

  lemma {:induction false} UncodedErrors()
    ensures RejectionCode(StoreCommitUnknown).None? && RejectionCode(CorruptStore).None?
  {}

  /** A delivery with another worker's fence changes nothing at all. */
  lemma {:induction false} ForeignFenceNeverSettles(s: StoreState, cache: Cache, p: Principal, d: Delivery, env: Env, fault: Fault)
    requires ValidDelivery(d) && d.event.task.workspace.authority == p.authority && d.id !in cache.receipts
    requires GrantsOk(s.tasks, s.grants) && Corruption.PresentsForeignFence(s, CommandOf(d.event, p.worker), env)
    ensures CommitSpec(s, cache, d, p, env, fault)
            == CommitOutcome(s, cache, Err(if fault.Lost? then StoreCommitUnknown else CorruptStore))
  {
    hide GrantsOk, KeyOf, ValidEvent, Refusal, CommandOf, Decide, Apply, Remember, NackText;
    Corruption.RefusalReports(s, CommandOf(d.event, p.worker), env);
  }

  // ---- An outbox entry that never leaves

  /** The entry of `d` is pending, and no receipt for it exists anywhere. */
  predicate Unanswered(y: System, d: Delivery) {
    && d.id in y.journal.events && y.journal.events[d.id].pending == Some(d)
    && d.id !in y.cache.receipts
    && forall r | r in y.receipts :: r.delivery != d.id
  }

  /** Whatever is sealed for a delivery of `d` fits the message limit. */
  predicate SealFitsFor(m: Move, d: Delivery) {
    m.Deliver? && m.copy == d ==> SealFits(m.env.sealedSize, MAX_PAGE_BYTES)
  }

  lemma {:induction false} StoreGrows(y: System, m: Move, p: Principal)
    requires Sound(y, p)
    ensures Grows(y.store, Step(y, m, p).store)
  {
    hide Sound, Inv, Grows, Try, J.Step, Remember, NackText, CommandOf, ValidEvent;
    SoundStore(y, p);
    GrowsReflexive(y.store);
    if m.Other? {
      TryKeeps(y.store, m.attempt);
    } else if m.Deliver? && ValidDelivery(m.copy) {
      TryKeeps(y.store, Attempt(Action(CommandOf(m.copy.event, p.worker), m.env), m.fault));
    }
  }

  lemma {:induction false} RunGrows(y: System, moves: seq<Move>, p: Principal)
    requires Sound(y, p)
    ensures Grows(y.store, RunSystem(y, moves, p).store)
    decreases |moves|
  {
    hide Sound, Grows, Step;
    if moves == [] {
      GrowsReflexive(y.store);
    } else {
      var next := Step(y, moves[0], p);
      StoreGrows(y, moves[0], p);
      StepSound(y, moves[0], p);
      RunGrows(next, moves[1..], p);
      GrowsTransitive(y.store, next.store, RunSystem(next, moves[1..], p).store);
    }
  }

  /** Another delivery leaves no answer under the identity of `d`. */
  lemma {:induction false} OtherDelivery(y: System, p: Principal, d: Delivery, copy: Delivery, env: Env, fault: Fault)
    requires Sound(y, p) && Unanswered(y, d) && copy in y.sent && copy.id != d.id
    ensures Unanswered(Step(y, Deliver(copy, env, fault), p), d)
  {
    hide Sound, Try, CommandOf, ValidEvent, NackText;
    if copy.id in y.cache.receipts {
      CachedReply(y, p, copy);
    }
  }

  /** A copy of `d` itself gets only an error. */
  lemma {:induction false} OwnDelivery(y: System, p: Principal, d: Delivery, env: Env, fault: Fault)
    requires Sound(y, p) && Unanswered(y, d) && ValidDeliveryFor(d, p) && ValidId(p.worker)
    requires Corruption.ForeignFence(y.store, CommandOf(d.event, p.worker)) && SealFits(env.sealedSize, MAX_PAGE_BYTES)
    requires KeyOf(CommandOf(d.event, p.worker)) !in y.store.commands
    ensures Step(y, Deliver(d, env, fault), p) == y
  {
    hide Sound, Inv, CommandOf, ValidEvent, KeyOf, ValidCommand, GrantsOk, CommitSpec, SentOk, JournalOk, PlanOf, Fencing.Carries, ValidId, SealFits;
    EventCommandValid(d.event, p.worker);
    SoundGrants(y, p);
    ForeignFenceNeverSettles(y.store, y.cache, p, d, env, fault);
  }

  lemma {:induction false} SoundGrants(y: System, p: Principal)
    requires Sound(y, p)
    ensures GrantsOk(y.store.tasks, y.store.grants)
    ensures forall d | d in y.sent :: SentOk(y.journal, d)
    ensures JournalOk(y.journal)
  {}

  lemma {:induction false} StillUnanswered(y: System, m: Move, p: Principal, d: Delivery)
    requires Sound(y, p) && Unanswered(y, d) && ValidDeliveryFor(d, p) && ValidId(p.worker) && SealFitsFor(m, d)
    requires Corruption.ForeignFence(y.store, CommandOf(d.event, p.worker))
    requires KeyOf(CommandOf(d.event, p.worker)) !in y.store.commands
    ensures Unanswered(Step(y, m, p), d)
  {
    hide Sound, GrantsOk, Corruption.ForeignFence, ValidEvent, CommitSpec, Try, SealFits, KeyOf, CommandOf, J.Step, SentOk, JournalOk, ValidId;
    SoundGrants(y, p);
    match m
    case Deliver(copy, env, fault) =>
      if copy in y.sent {
        if copy.id == d.id {
          SameEntry(y, d, copy);
          OwnDelivery(y, p, d, env, fault);
        } else {
          OtherDelivery(y, p, d, copy, env, fault);
        }
      }
    case Settle(r, f) =>
      if r in y.receipts {
        SettleEffect(y.journal, p, r, J.DigestOfDelivery(f), J.DigestOfReceipt(r));
      }
    case Put(put) => EntryUntouched(y.journal, J.PutEvent(J.DigestOfDelivery(put), put), p, d.id);
    case Inbox(op) => if !op.SettleEvent? { EntryUntouched(y.journal, op, p, d.id); }
    case _ =>
  }

  /** Only a settlement changes an entry of the outbox. */
  lemma {:induction false} EntryUntouched(j: J.JournalState, op: J.Op, p: Principal, id: Id)
    requires id in j.events && !op.SettleEvent?
    ensures var j' := J.Step(j, op, p).state; id in j'.events && j'.events[id] == j.events[id]
  {
    hide J.ValidAssignmentFor, ValidDeliveryFor, ValidId;
  }

  lemma {:induction false} SameEntry(y: System, d: Delivery, copy: Delivery)
    requires JournalOk(y.journal) && SentOk(y.journal, copy) && copy.id == d.id && Unanswered(y, d)
    ensures copy == d
  {
    assert EntryOk(y.journal, d.id);
  }

  lemma {:induction false} EntryStaysUnanswered(y: System, moves: seq<Move>, p: Principal, d: Delivery)
    requires Sound(y, p) && Unanswered(y, d) && ValidDeliveryFor(d, p) && ValidId(p.worker)
    requires Corruption.ForeignFence(y.store, CommandOf(d.event, p.worker))
    requires forall i | 0 <= i < |moves| :: SealFitsFor(moves[i], d)
    requires KeyOf(CommandOf(d.event, p.worker)) !in RunSystem(y, moves, p).store.commands
    ensures Unanswered(RunSystem(y, moves, p), d)
    decreases |moves|
  {
    hide Sound, Step, Corruption.ForeignFence, Unanswered, SealFitsFor, KeyOf, CommandOf, ValidEvent, Grows, ValidId;
    if moves != [] {
      var c := CommandOf(d.event, p.worker);
      var next := Step(y, moves[0], p);
      RunGrows(y, moves, p);
      UnusedBefore(y.store, RunSystem(y, moves, p).store, c);
      StillUnanswered(y, moves[0], p, d);
      StepSound(y, moves[0], p);
      StoreGrows(y, moves[0], p);
      Corruption.ForeignFenceStays(y.store, next.store, c);
      EntryStaysUnanswered(next, moves[1..], p, d);
    }
  }

  /** An event of the outbox that names another worker's fence stays there: in every
  continuation in which its command identifier stays unused and its seals fit, the
  entry is still pending, unacknowledged and unrejected. */
  lemma {:induction false} ForeignFenceStaysInOutbox(before: seq<Move>, moves: seq<Move>, p: Principal, d: Delivery)
    requires ValidDeliveryFor(d, p) && ValidId(p.worker)
    requires forall i | 0 <= i < |moves| :: SealFitsFor(moves[i], d)
    ensures var y := RunSystem(START, before, p);
            var end := RunSystem(y, moves, p);
            var c := CommandOf(d.event, p.worker);
            Unanswered(y, d) && Corruption.ForeignFence(y.store, c) && KeyOf(c) !in end.store.commands ==> Unanswered(end, d)
  {
    hide Sound, RunSystem, Corruption.ForeignFence, Unanswered, SealFitsFor, KeyOf, CommandOf, ValidEvent, ValidId;
    StartSound(p);
    RunSound(START, before, p);
    var y := RunSystem(START, before, p);
    var c := CommandOf(d.event, p.worker);
    if Unanswered(y, d) && Corruption.ForeignFence(y.store, c) && KeyOf(c) !in RunSystem(y, moves, p).store.commands {
      EntryStaysUnanswered(y, moves, p, d);
    }
  }

  lemma {:induction false} UnusedBefore(s: StoreState, s': StoreState, c: Command)
    requires Grows(s, s') && KeyOf(c) !in s'.commands
    ensures KeyOf(c) !in s.commands
  {
    hide TasksGrow, LogsGrow, ArtifactsGrow, HeadsGrow, KeyOf;
  }

  /** The store of every system run is one that public commands reach. */
  lemma {:induction false} SystemReachable(y: System, moves: seq<Move>, p: Principal)
    requires Reachable(y.store)
    ensures Reachable(RunSystem(y, moves, p).store)
    decreases |moves|
  {
    hide Reachable, Step;
    if moves != [] {
      StepReachable(y, moves[0], p);
      SystemReachable(Step(y, moves[0], p), moves[1..], p);
    }
  }

  lemma {:induction false} StepReachable(y: System, m: Move, p: Principal)
    requires Reachable(y.store)
    ensures Reachable(Step(y, m, p).store)
  {
    hide Reachable, Try, J.Step, Remember, NackText, CommandOf, ValidEvent;
    if m.Other? {
      TryReachable(y.store, m.attempt);
    } else if m.Deliver? && ValidDelivery(m.copy) {
      TryReachable(y.store, Attempt(Action(CommandOf(m.copy.event, p.worker), m.env), m.fault));
    }
  }

  // ---- When a round trip settles

  /** One faultless round trip of a pending entry: send, deliver, settle the reply. */
  ghost function RoundTrip(y: System, d: Delivery, env: Env, p: Principal): System {
    var sent := Step(y, Send(d.id), p);
    var reply := CommitSpec(sent.store, sent.cache, d, p, env, Faultless).reply;
    var delivered := Step(sent, Deliver(d, env, Faultless), p);
    if reply.Ok? then Step(delivered, Settle(reply.value, d), p) else delivered
  }

  /** A reply of the endpoint always fits the delivery it answers. */
  lemma {:induction false} ReplyFits(s: StoreState, cache: Cache, p: Principal, d: Delivery, env: Env)
    requires ValidDeliveryFor(d, p) && d.id !in cache.receipts
    requires CommitSpec(s, cache, d, p, env, Faultless).reply.Ok?
    ensures ReceiptFits(CommitSpec(s, cache, d, p, env, Faultless).reply.value, d)
  {
    hide Try, Remember, CommandOf, ValidEvent, ValidId, NackText, RejectionCode;
    var o := Try(s, Attempt(Action(CommandOf(d.event, p.worker), env), Faultless));
    if o.answer.Err? {
      CodeIsReal(o.answer.error);
    }
  }

  lemma {:induction false} CodeIsReal(e: Error)
    ensures RejectionCode(e) != Some(NoCode)
  {}

  lemma {:induction false} FittingReceiptSettles(j: J.JournalState, p: Principal, d: Delivery, r: Receipt)
    requires d.id in j.events && j.events[d.id].digest == J.DigestOfDelivery(d) && j.events[d.id].pending == Some(d)
    requires ReceiptFits(r, d) && j.next < J.MAX_SEQUENCE
    ensures var j' := J.Step(j, J.SettleEvent(r, J.DigestOfDelivery(d), J.DigestOfReceipt(r)), p).state;
            d.id in j'.events && j'.events[d.id].pending.None?
  {}

  /** Which entries leave the outbox: of a system run so far, one faultless round trip
  settles a pending unanswered entry if and only if it does not present another
  worker's fence. The journal must have a number left for a rejection. */
  lemma {:induction false} RoundTripSettlesIff(before: seq<Move>, p: Principal, d: Delivery, env: Env)
    requires ValidDeliveryFor(d, p)
    ensures var y := RunSystem(START, before, p);
            Unanswered(y, d) && y.journal.next < J.MAX_SEQUENCE ==>
              && d.id in RoundTrip(y, d, env, p).journal.events
              && (RoundTrip(y, d, env, p).journal.events[d.id].pending.None? <==>
                  !Corruption.PresentsForeignFence(y.store, CommandOf(d.event, p.worker), env))
  {
    hide Sound, RunSystem, Reachable, CommitSpec, RoundTrip, Corruption.PresentsForeignFence, CommandOf, ValidEvent, ValidId, Unanswered;
    var y := RunSystem(START, before, p);
    StartSound(p);
    RunSound(START, before, p);
    EmptyReachable();
    SystemReachable(START, before, p);
    if Unanswered(y, d) && y.journal.next < J.MAX_SEQUENCE {
      NoAnswerIff(y.store, y.cache, p, d, env, Faultless);
      UnansweredEntry(y, p, d);
      RoundTripOf(y, p, d, env);
    }
  }

  lemma {:induction false} EmptyReachable()
    ensures Reachable(EMPTY)
  {
    assert Run(EMPTY, []) == EMPTY;
  }

  lemma {:induction false} UnansweredEntry(y: System, p: Principal, d: Delivery)
    requires Sound(y, p) && Unanswered(y, d)
    ensures d.id in y.journal.events && y.journal.events[d.id].digest == J.DigestOfDelivery(d)
    ensures y.journal.events[d.id].pending == Some(d) && d.id !in y.cache.receipts
  {
    hide Inv, Landed;
    assert EntryOk(y.journal, d.id);
  }

  lemma {:induction false} RoundTripOf(y: System, p: Principal, d: Delivery, env: Env)
    requires ValidDeliveryFor(d, p) && y.journal.next < J.MAX_SEQUENCE && d.id !in y.cache.receipts
    requires d.id in y.journal.events && y.journal.events[d.id].digest == J.DigestOfDelivery(d) && y.journal.events[d.id].pending == Some(d)
    ensures var end := RoundTrip(y, d, env, p);
            && d.id in end.journal.events
            && (end.journal.events[d.id].pending.None? <==> CommitSpec(y.store, y.cache, d, p, env, Faultless).reply.Ok?)
  {
    hide CommitSpec, J.Step, ReceiptFits, ValidEvent, ValidId;
    var reply := CommitSpec(y.store, y.cache, d, p, env, Faultless).reply;
    if reply.Ok? {
      ReplyFits(y.store, y.cache, p, d, env);
      FittingReceiptSettles(y.journal, p, d, reply.value);
    }
  }

  // ---- A stuck outbox

  const STUCK: Delivery := Delivery("d", WorkerEvent("c3", KindAccept, Corruption.SAMPLE_TASK, 1, 1, None, "", None, None))

  /** Worker u holds fence 1 of a Task; worker v has queued an acceptance naming it. */
  const STUCK_MOVES: seq<Move> := [
    Other(Attempt(Action(Corruption.SAMPLE_CREATE, Corruption.SAMPLE_ENV), Faultless)),
    Other(Attempt(Action(AcquireLease("c2", Corruption.SAMPLE_TASK, "u"), Corruption.SAMPLE_ENV), Faultless)),
    Put(STUCK)]

  lemma {:induction false} RunThree(y: System, a: Move, b: Move, c: Move, p: Principal)
    ensures RunSystem(y, [a, b, c], p) == Step(Step(Step(y, a, p), b, p), c, p)
  {
    hide Step;
    var y1 := Step(y, a, p);
    var y2 := Step(y1, b, p);
    assert [a, b, c][1..] == [b, c] && [b, c][1..] == [c];
    assert RunSystem(y1, [b, c], p) == RunSystem(y2, [c], p);
    assert RunSystem(y2, [c], p) == RunSystem(Step(y2, c, p), [], p);
  }

  lemma {:induction false} StuckDeliveryValid()
    ensures ValidDeliveryFor(STUCK, Principal("a", "v")) && ValidId("v")
    ensures CommandOf(STUCK.event, "v") == AcceptTask(WorkerMeta("c3", 1, LeaseGrant(Corruption.SAMPLE_TASK, "v", 1)), Corruption.SAMPLE_TASK)
  {}

  lemma {:induction false} StuckPut(y: System)
    requires y.journal == J.EMPTY_JOURNAL && y.cache == EMPTY_CACHE && y.receipts == {}
    ensures var end := Step(y, Put(STUCK), Principal("a", "v")); Unanswered(end, STUCK) && end.store == y.store
  {
    hide ValidDeliveryFor;
    StuckDeliveryValid();
  }

  /** Such an outbox exists: three moves reach one whose entry no round trip settles. */
  lemma {:induction false} StuckOutboxIsReachable()
    ensures var p := Principal("a", "v");
            var y := RunSystem(START, STUCK_MOVES, p);
            && ValidDeliveryFor(STUCK, p) && Unanswered(y, STUCK)
            && Corruption.PresentsForeignFence(y.store, CommandOf(STUCK.event, p.worker), Corruption.SAMPLE_ENV)
  {
    hide Execute, Apply, CreateDelta, Corruption.PresentsForeignFence, J.Step, Unanswered;
    StuckDeliveryValid();
    hide ValidDeliveryFor, CommandOf, ValidId;
    var p := Principal("a", "v");
    var s1 := Execute(EMPTY, Corruption.SAMPLE_CREATE, Corruption.SAMPLE_ENV).state;
    var s2 := Execute(s1, AcquireLease("c2", Corruption.SAMPLE_TASK, "u"), Corruption.SAMPLE_ENV).state;
    RunThree(START, STUCK_MOVES[0], STUCK_MOVES[1], STUCK_MOVES[2], p);
    assert Step(Step(START, STUCK_MOVES[0], p), STUCK_MOVES[1], p) == START.(store := s2);
    StuckPut(START.(store := s2));
    Corruption.SampleCreated();
    Corruption.SampleAcquired(s1);
    StrangerPresents(s2);
  }

  lemma {:induction false} StrangerPresents(s: StoreState)
    requires Corruption.SAMPLE_TASK in s.tasks && LeaseKey(Corruption.SAMPLE_TASK, 1) in s.grants && CommandKey("a", "c3") !in s.commands
    requires s.grants[LeaseKey(Corruption.SAMPLE_TASK, 1)].grant == LeaseGrant(Corruption.SAMPLE_TASK, "u", 1)
    ensures Corruption.PresentsForeignFence(s, AcceptTask(WorkerMeta("c3", 1, LeaseGrant(Corruption.SAMPLE_TASK, "v", 1)), Corruption.SAMPLE_TASK), Corruption.SAMPLE_ENV)
  {
    assert "u" != "v" by {
      assert "u"[0] == 'u' && "v"[0] == 'v';
    }
  }
}
