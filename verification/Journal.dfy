/** The worker's durable journal: an inbox of assignments, an outbox of events, and
the rejections its user must still see, all numbered by one counter. */
module Journal {
  import opened Types
  import opened Validators
  import opened Transport
  import opened Ordering

  const MAX_SEQUENCE: nat := 0xffff_ffff_ffff_ffff
  const MAX_JOURNAL_PAGE: nat := 1024

  datatype AssignmentDelivery = AssignmentDelivery(id: Id, assignment: LeaseAssignment)

  /** Digests of distinct values are distinct. */
  datatype JournalDigest =
    | DigestOfAssignment(assignment: AssignmentDelivery)
    | DigestOfDelivery(delivery: Delivery)
    | DigestOfReceipt(receipt: Receipt)

  datatype AssignmentEntry = AssignmentEntry(digest: JournalDigest, sequence: nat, pending: Option<AssignmentDelivery>)
  datatype EventEntry = EventEntry(digest: JournalDigest, sequence: nat, pending: Option<Delivery>, receiptDigest: Option<JournalDigest>)
  datatype RejectedEvent = RejectedEvent(delivery: Delivery, receipt: Receipt)
  datatype RejectionEntry = RejectionEntry(
    sequence: nat, eventDigest: JournalDigest, receiptDigest: JournalDigest, pending: Option<RejectedEvent>)

  datatype JournalState = JournalState(
    next: nat,
    assignments: map<Id, AssignmentEntry>,
    events: map<Id, EventEntry>,
    rejections: map<Id, RejectionEntry>)

  datatype JournalError = JournalConflict | JournalNotFound | JournalCorrupt | JournalLimit
  datatype Reply = Pending | Settled | Done | Failed(error: JournalError)

  datatype Op =
    | PutAssignment(digest: JournalDigest, assignment: AssignmentDelivery)
    | ConfirmAssignment(id: Id)
    | PutEvent(digest: JournalDigest, delivery: Delivery)
    | SettleEvent(receipt: Receipt, eventDigest: JournalDigest, receiptDigest: JournalDigest)
    | ConfirmRejection(id: Id)

  datatype Outcome = Outcome(state: JournalState, reply: Reply)

  predicate ValidAssignmentFor(a: AssignmentDelivery, p: Principal) {
    && ValidId(a.id) && ValidAssignment(a.assignment)
    && a.assignment.grant.worker == p.worker && a.assignment.grant.task.workspace.authority == p.authority
  }

  // ---- What each operation does

  function EntryReply(settled: bool): Reply {
    if settled then Settled else Pending
  }

  function Step(j: JournalState, op: Op, p: Principal): Outcome {
    match op
    case PutAssignment(digest, a) =>
      if !ValidAssignmentFor(a, p) then Outcome(j, Failed(JournalCorrupt))
      else if a.id in j.assignments then
        var current := j.assignments[a.id];
        Outcome(j, if current.digest != digest then Failed(JournalConflict) else EntryReply(current.pending.None?))
      else if j.next >= MAX_SEQUENCE then Outcome(j, Failed(JournalLimit))
      else Outcome(j.(next := j.next + 1,
                      assignments := j.assignments[a.id := AssignmentEntry(digest, j.next + 1, Some(a))]), Pending)
    case ConfirmAssignment(id) =>
      if !ValidId(id) then Outcome(j, Failed(JournalCorrupt))
      else if id !in j.assignments then Outcome(j, Failed(JournalNotFound))
      else Outcome(j.(assignments := j.assignments[id := j.assignments[id].(pending := None)]), Done)
    case PutEvent(digest, d) =>
      if !ValidDeliveryFor(d, p) then Outcome(j, Failed(JournalCorrupt))
      else if d.id in j.events then
        var current := j.events[d.id];
        Outcome(j, if current.digest != digest then Failed(JournalConflict) else EntryReply(current.pending.None?))
      else if j.next >= MAX_SEQUENCE then Outcome(j, Failed(JournalLimit))
      else Outcome(j.(next := j.next + 1,
                      events := j.events[d.id := EventEntry(digest, j.next + 1, Some(d), None)]), Pending)
    case SettleEvent(receipt, eventDigest, receiptDigest) => SettleStep(j, receipt, eventDigest, receiptDigest)
    case ConfirmRejection(id) =>
      if !ValidId(id) then Outcome(j, Failed(JournalCorrupt))
      else if id !in j.rejections then Outcome(j, Failed(JournalNotFound))
      else Outcome(j.(rejections := j.rejections[id := j.rejections[id].(pending := None)]), Done)
  }

  function SettleStep(j: JournalState, receipt: Receipt, eventDigest: JournalDigest, receiptDigest: JournalDigest): Outcome {
    var id := receipt.delivery;
    if id !in j.events then Outcome(j, Failed(JournalNotFound))
    else
      var current := j.events[id];
      if current.digest != eventDigest then Outcome(j, Failed(JournalConflict))
      else if current.pending.None? then
        Outcome(j, if current.receiptDigest == Some(receiptDigest) then Done else Failed(JournalConflict))
      else if !ReceiptFits(receipt, current.pending.value) then Outcome(j, Failed(JournalCorrupt))
      else
        var settled := j.(events := j.events[id := current.(pending := None, receiptDigest := Some(receiptDigest))]);
        if receipt.decision.Ack? then Outcome(settled, Done)
        else if j.next >= MAX_SEQUENCE then Outcome(j, Failed(JournalLimit))
        else
          var rejected := RejectedEvent(current.pending.value, receipt);
          Outcome(settled.(next := j.next + 1,
                           rejections := j.rejections[id := RejectionEntry(j.next + 1, eventDigest, receiptDigest, Some(rejected))]),
                  Done)
  }

  // ---- Conservation

  datatype Slot = AssignmentSlot(id: Id) | EventSlot(id: Id) | RejectionSlot(id: Id)

  predicate Used(j: JournalState, slot: Slot) {
    match slot
    case AssignmentSlot(id) => id in j.assignments
    case EventSlot(id) => id in j.events
    case RejectionSlot(id) => id in j.rejections
  }

  function SequenceOf(j: JournalState, slot: Slot): nat
    requires Used(j, slot)
  {
    match slot
    case AssignmentSlot(id) => j.assignments[id].sequence
    case EventSlot(id) => j.events[id].sequence
    case RejectionSlot(id) => j.rejections[id].sequence
  }

  /** Which settlements happened, as their observer would note them. */
  type Decisions = map<Id, Decision>

  function Note(j: JournalState, seen: Decisions, op: Op, p: Principal): Decisions {
    if op.SettleEvent? && Step(j, op, p).reply.Done? && j.events[op.receipt.delivery].pending.Some?
    then seen[op.receipt.delivery := op.receipt.decision]
    else seen
  }

  ghost predicate NumbersOk(j: JournalState) {
    && (forall slot | Used(j, slot) :: 1 <= SequenceOf(j, slot) <= j.next)
    && (forall a, b | Used(j, a) && Used(j, b) && SequenceOf(j, a) == SequenceOf(j, b) :: a == b)
    && j.next <= MAX_SEQUENCE
  }

  predicate EventRowOk(j: JournalState, seen: Decisions, id: Id)
    requires id in j.events
  {
    && (id in seen <==> j.events[id].pending.None?)
    && (j.events[id].pending.Some? <==> j.events[id].receiptDigest.None?)
    && (j.events[id].pending.Some? ==> j.events[id].pending.value.id == id)
    && (id in j.rejections <==> id in seen && seen[id].Nack?)
  }

  ghost predicate Conserved(j: JournalState, seen: Decisions) {
    && NumbersOk(j)
    && seen.Keys <= j.events.Keys && j.rejections.Keys <= j.events.Keys
    && forall id | id in j.events :: EventRowOk(j, seen, id)
  }

  lemma {:induction false} NumbersAfterNew(j: JournalState, j': JournalState, slot: Slot)
    requires NumbersOk(j) && !Used(j, slot) && Used(j', slot) && j.next < MAX_SEQUENCE
    requires j'.next == j.next + 1 == SequenceOf(j', slot)
    requires forall s :: Used(j', s) <==> Used(j, s) || s == slot
    requires forall s | Used(j, s) :: SequenceOf(j', s) == SequenceOf(j, s)
    ensures NumbersOk(j')
  {}

  lemma {:induction false} NumbersAfterSame(j: JournalState, j': JournalState)
    requires NumbersOk(j) && j'.next == j.next
    requires forall s :: Used(j', s) <==> Used(j, s)
    requires forall s | Used(j, s) :: SequenceOf(j', s) == SequenceOf(j, s)
    ensures NumbersOk(j')
  {}

  lemma {:induction false} StepNumbers(j: JournalState, op: Op, p: Principal)
    requires NumbersOk(j) && (forall id | id in j.events && j.events[id].pending.Some? :: id !in j.rejections)
    ensures NumbersOk(Step(j, op, p).state)
  {
    hide ValidAssignmentFor, ValidDeliveryFor, ReceiptFits, ValidId;
    var j' := Step(j, op, p).state;
    if j'.next == j.next {
      NumbersAfterSame(j, j');
    } else {
      var slot :=
        match op
        case PutAssignment(_, a) => AssignmentSlot(a.id)
        case PutEvent(_, d) => EventSlot(d.id)
        case SettleEvent(r, _, _) => RejectionSlot(r.delivery)
        case _ => AssignmentSlot("");
      NumbersAfterNew(j, j', slot);
    }
  }

  lemma {:induction false} EventRowAfter(j: JournalState, seen: Decisions, op: Op, p: Principal, id: Id)
    requires id in Step(j, op, p).state.events && seen.Keys <= j.events.Keys && j.rejections.Keys <= j.events.Keys
    requires id in j.events ==> EventRowOk(j, seen, id)
    ensures EventRowOk(Step(j, op, p).state, Note(j, seen, op, p), id)
  {
    hide ValidAssignmentFor, ValidDeliveryFor, ReceiptFits, ValidId;
  }

  lemma {:induction false} StepConserves(j: JournalState, seen: Decisions, op: Op, p: Principal)
    requires Conserved(j, seen)
    ensures Conserved(Step(j, op, p).state, Note(j, seen, op, p))
  {
    hide ValidAssignmentFor, ValidDeliveryFor, ReceiptFits, ValidId, NumbersOk;
    assert forall id | id in j.events :: EventRowOk(j, seen, id);
    StepNumbers(j, op, p);
    var j', seen' := Step(j, op, p).state, Note(j, seen, op, p);
    forall id | id in j'.events ensures EventRowOk(j', seen', id) {
      EventRowAfter(j, seen, op, p, id);
    }
  }

  /** What no operation takes back: entries, their numbers and digests, and the fact
  that they are settled. New entries are numbered above everything before. */
  predicate EntryGrows(j: JournalState, j': JournalState, id: Id)
    requires id in j.events
  {
    && id in j'.events && j'.events[id].digest == j.events[id].digest && j'.events[id].sequence == j.events[id].sequence
    && (j.events[id].pending.None? ==> j'.events[id] == j.events[id])
    && (j'.events[id].pending.Some? ==> j'.events[id].pending == j.events[id].pending)
  }

  predicate RejectionGrows(j: JournalState, j': JournalState, id: Id)
    requires id in j.rejections
  {
    && id in j'.rejections && j'.rejections[id].sequence == j.rejections[id].sequence
    && j'.rejections[id].eventDigest == j.rejections[id].eventDigest
    && j'.rejections[id].receiptDigest == j.rejections[id].receiptDigest
    && (j'.rejections[id].pending.Some? ==> j'.rejections[id].pending == j.rejections[id].pending)
  }

  predicate AssignmentGrows(j: JournalState, j': JournalState, id: Id)
    requires id in j.assignments
  {
    && id in j'.assignments && j'.assignments[id].digest == j.assignments[id].digest
    && j'.assignments[id].sequence == j.assignments[id].sequence
    && (j'.assignments[id].pending.Some? ==> j'.assignments[id].pending == j.assignments[id].pending)
  }

  ghost predicate JournalGrows(j: JournalState, j': JournalState) {
    && j.next <= j'.next
    && (forall id | id in j.events :: EntryGrows(j, j', id))
    && (forall id | id in j.rejections :: RejectionGrows(j, j', id))
    && (forall id | id in j.assignments :: AssignmentGrows(j, j', id))
    && (forall slot | Used(j', slot) && !Used(j, slot) :: j.next < SequenceOf(j', slot))
  }

  lemma {:induction false} StepGrows(j: JournalState, op: Op, p: Principal)
    requires forall id | id in j.events && j.events[id].pending.Some? :: id !in j.rejections
    ensures JournalGrows(j, Step(j, op, p).state)
  {
    hide ValidAssignmentFor, ValidDeliveryFor, ReceiptFits, ValidId, EntryGrows, RejectionGrows, AssignmentGrows;
    var j' := Step(j, op, p).state;
    forall id | id in j.events ensures EntryGrows(j, j', id) {
      EventSurvives(j, op, p, id);
    }
    forall id | id in j.rejections ensures RejectionGrows(j, j', id) {
      RejectionSurvives(j, op, p, id);
    }
    forall id | id in j.assignments ensures AssignmentGrows(j, j', id) {
      AssignmentSurvives(j, op, p, id);
    }
  }

  lemma {:induction false} EventSurvives(j: JournalState, op: Op, p: Principal, id: Id)
    requires id in j.events
    ensures EntryGrows(j, Step(j, op, p).state, id)
  {
    hide ValidAssignmentFor, ValidDeliveryFor, ReceiptFits, ValidId;
  }

  lemma {:induction false} RejectionSurvives(j: JournalState, op: Op, p: Principal, id: Id)
    requires id in j.rejections && (id in j.events && j.events[id].pending.Some? ==> id !in j.rejections)
    ensures RejectionGrows(j, Step(j, op, p).state, id)
  {
    hide ValidAssignmentFor, ValidDeliveryFor, ReceiptFits, ValidId;
  }

  lemma {:induction false} AssignmentSurvives(j: JournalState, op: Op, p: Principal, id: Id)
    requires id in j.assignments
    ensures AssignmentGrows(j, Step(j, op, p).state, id)
  {
    hide ValidAssignmentFor, ValidDeliveryFor, ReceiptFits, ValidId;
  }

  lemma {:induction false} JournalGrowsTransitive(a: JournalState, b: JournalState, c: JournalState)
    requires JournalGrows(a, b) && JournalGrows(b, c)
    ensures JournalGrows(a, c)
  {
    forall id | id in a.events ensures EntryGrows(a, c, id) {
      assert EntryGrows(a, b, id) && EntryGrows(b, c, id);
    }
    forall id | id in a.rejections ensures RejectionGrows(a, c, id) {
      assert RejectionGrows(a, b, id) && RejectionGrows(b, c, id);
    }
    forall id | id in a.assignments ensures AssignmentGrows(a, c, id) {
      assert AssignmentGrows(a, b, id) && AssignmentGrows(b, c, id);
    }
    forall slot | Used(c, slot) && !Used(a, slot) ensures a.next < SequenceOf(c, slot) {
      if Used(b, slot) {
        assert SequenceOf(b, slot) == SequenceOf(c, slot) by {
          match slot
          case AssignmentSlot(id) => assert AssignmentGrows(b, c, id);
          case EventSlot(id) => assert EntryGrows(b, c, id);
          case RejectionSlot(id) => assert RejectionGrows(b, c, id);
        }
      }
    }
  }

  // ---- When entries appear and go

  /** The receipt answers this delivery: it names it and its event, acknowledges only a
  well-formed one without a code, and rejects only with a code. */
  predicate AnswersDelivery(r: Receipt, d: Delivery) {
    && ValidId(d.id) && r.delivery == d.id && r.event == d.event.id
    && (r.decision.Ack? ==> ValidEvent(d.event) && r.code == NoCode && r.message == "")
    && (r.decision.Nack? ==> r.code != NoCode && |r.message| <= 4096 && forall i | 0 <= i < |r.message| :: r.message[i] != '\0')
  }

  /** An event enters the outbox exactly by being put there whole, while numbers are left,
  and is settled exactly by a receipt that answers it; a rejection is then kept with
  both. */
  lemma {:induction false} OutboxChangesIff(j: JournalState, op: Op, p: Principal, id: Id)
    ensures var j' := Step(j, op, p).state;
            && (id !in j.events ==>
                  (id in j'.events <==> op.PutEvent? && op.delivery.id == id && ValidDelivery(op.delivery)
                                        && op.delivery.event.task.workspace.authority == p.authority && j.next < MAX_SEQUENCE))
            && (id !in j.events && id in j'.events ==>
                  j'.events[id] == EventEntry(op.digest, j.next + 1, Some(op.delivery), None) && j'.next == j.next + 1)
            && (id in j.events && j.events[id].pending.Some? ==>
                  (id in j'.events && j'.events[id].pending.None? <==>
                     && op.SettleEvent? && op.receipt.delivery == id && op.eventDigest == j.events[id].digest
                     && AnswersDelivery(op.receipt, j.events[id].pending.value)
                     && (op.receipt.decision.Nack? ==> j.next < MAX_SEQUENCE)))
  {
    hide ValidAssignmentFor, ValidEvent, ValidId;
  }

  lemma {:induction false} RejectionKept(j: JournalState, receipt: Receipt, eventDigest: JournalDigest, receiptDigest: JournalDigest, p: Principal)
    requires receipt.delivery in j.events && j.events[receipt.delivery].pending.Some?
    ensures var id, j' := receipt.delivery, Step(j, SettleEvent(receipt, eventDigest, receiptDigest), p).state;
            id in j'.events && j'.events[id].pending.None? ==>
              && j'.events[id].receiptDigest == Some(receiptDigest)
              && if receipt.decision.Ack? then j'.rejections == j.rejections && j'.next == j.next
                 else
                   && j'.next == j.next + 1
                   && j'.rejections == j.rejections[id := RejectionEntry(j.next + 1, eventDigest, receiptDigest,
                                                            Some(RejectedEvent(j.events[id].pending.value, receipt)))]
  {
    hide ReceiptFits;
  }

  /** A rejection and an assignment stay until their own identifier is confirmed, and an
  assignment enters exactly by being put there for this worker. */
  lemma {:induction false} InboxChangesIff(j: JournalState, op: Op, p: Principal, id: Id)
    requires id in j.events && j.events[id].pending.Some? ==> id !in j.rejections
    ensures var j' := Step(j, op, p).state;
            && (id in j.rejections && j.rejections[id].pending.Some? ==>
                  (id in j'.rejections && j'.rejections[id].pending.None? <==> op == ConfirmRejection(id) && ValidId(id)))
            && (id in j.assignments && j.assignments[id].pending.Some? ==>
                  (id in j'.assignments && j'.assignments[id].pending.None? <==> op == ConfirmAssignment(id) && ValidId(id)))
            && (id !in j.assignments ==>
                  (id in j'.assignments <==> op.PutAssignment? && op.assignment.id == id && ValidAssignmentFor(op.assignment, p)
                                             && j.next < MAX_SEQUENCE))
            && (id !in j.assignments && id in j'.assignments ==>
                  j'.assignments[id] == AssignmentEntry(op.digest, j.next + 1, Some(op.assignment)) && j'.next == j.next + 1)
  {
    hide ValidAssignmentFor, ValidDeliveryFor, ReceiptFits, ValidId;
  }

  /** Putting the same thing again tells whether it is still pending; putting another
  under its identifier is a conflict. */
  lemma {:induction false} PutAgain(j: JournalState, digest: JournalDigest, d: Delivery, p: Principal)
    requires ValidDelivery(d) && d.event.task.workspace.authority == p.authority && d.id in j.events
    ensures var o := Step(j, PutEvent(digest, d), p);
            && o.state == j
            && (o.reply == Pending <==> digest == j.events[d.id].digest && j.events[d.id].pending.Some?)
            && (o.reply == Settled <==> digest == j.events[d.id].digest && j.events[d.id].pending.None?)
            && (o.reply == Failed(JournalConflict) <==> digest != j.events[d.id].digest)
  {
    hide ValidEvent, ValidId;
  }

  datatype Audited = Audited(state: JournalState, seen: Decisions)

  const EMPTY_JOURNAL: JournalState := JournalState(0, map[], map[], map[])

  function RunJournal(a: Audited, ops: seq<Op>, p: Principal): Audited
    decreases |ops|
  {
    if ops == [] then a
    else RunJournal(Audited(Step(a.state, ops[0], p).state, Note(a.state, a.seen, ops[0], p)), ops[1..], p)
  }

  lemma {:induction false} JournalRunKeeps(a: Audited, ops: seq<Op>, p: Principal)
    requires Conserved(a.state, a.seen)
    ensures var end := RunJournal(a, ops, p); Conserved(end.state, end.seen) && JournalGrows(a.state, end.state)
    decreases |ops|
  {
    assert forall id | id in a.state.events :: EventRowOk(a.state, a.seen, id);
    if ops != [] {
      StepConserves(a.state, a.seen, ops[0], p);
      StepGrows(a.state, ops[0], p);
      var next := Audited(Step(a.state, ops[0], p).state, Note(a.state, a.seen, ops[0], p));
      JournalRunKeeps(next, ops[1..], p);
      JournalGrowsTransitive(a.state, next.state, RunJournal(next, ops[1..], p).state);
    }
  }

  /** A refused operation, exhaustion of the counter included, could as well never have
  been tried. */
  lemma {:induction false} FailureLeavesNoTrace(a: Audited, op: Op, later: seq<Op>, p: Principal)
    requires Step(a.state, op, p).reply.Failed?
    ensures RunJournal(a, [op] + later, p) == RunJournal(a, later, p)
  {
    assert ([op] + later)[1..] == later;
  }

  const START: Audited := Audited(EMPTY_JOURNAL, map[])

  lemma {:induction false} EmptyJournalConserved()
    ensures Conserved(START.state, START.seen)
  {}

  /** In every run from the empty journal, numbers are unique and increasing; each event
  is in exactly one of pending, acknowledged and rejected; a rejection exists exactly
  for a rejecting settlement; and whatever the run goes on to do, digests and pending
  contents stay and nothing settled comes back. */
  lemma {:induction false} JournalConserves(before: seq<Op>, after: seq<Op>, p: Principal)
    ensures var middle := RunJournal(START, before, p);
            var end := RunJournal(middle, after, p);
            && Conserved(middle.state, middle.seen) && Conserved(end.state, end.seen)
            && JournalGrows(middle.state, end.state)
  {
    EmptyJournalConserved();
    JournalRunKeeps(START, before, p);
    JournalRunKeeps(RunJournal(START, before, p), after, p);
  }

  // ---- The journal object

  datatype JournalEvent = JournalEvent(sequence: nat, digest: JournalDigest, delivery: Delivery)

  predicate EventBefore(a: JournalEvent, b: JournalEvent) { a.sequence < b.sequence }

  /** The pending events numbered above `after`. */
  ghost function Waiting(j: JournalState, after: nat): set<JournalEvent> {
    set id | id in j.events && j.events[id].pending.Some? && j.events[id].sequence > after ::
      JournalEvent(j.events[id].sequence, j.events[id].digest, j.events[id].pending.value)
  }

  class MemoryJournal {
    const principal: Principal
    var next: nat
    var assignments: map<Id, AssignmentEntry>
    var events: map<Id, EventEntry>
    var rejections: map<Id, RejectionEntry>

    constructor (p: Principal)
      ensures principal == p && View() == EMPTY_JOURNAL
    {
      principal := p;
      next := 0;
      assignments, events, rejections := map[], map[], map[];
    }

    function View(): JournalState
      reads this
    {
      JournalState(next, assignments, events, rejections)
    }

    /** The next number, or nothing once the counter is exhausted. */
    method AllocateSequence() returns (r: Option<nat>)
      modifies this`next
      ensures r == if old(next) >= MAX_SEQUENCE then None else Some(old(next) + 1)
      ensures next == if r.Some? then r.value else old(next)
    {
      if next >= MAX_SEQUENCE {
        return None;
      }
      next := next + 1;
      return Some(next);
    }

    method PutAssignment(digest: JournalDigest, a: AssignmentDelivery) returns (reply: Reply)
      modifies this
      ensures Outcome(View(), reply) == Step(old(View()), Op.PutAssignment(digest, a), principal)
    {
      if !ValidAssignmentFor(a, principal) {
        return Failed(JournalCorrupt);
      }
      if a.id in assignments {
        if assignments[a.id].digest != digest {
          return Failed(JournalConflict);
        }
        return EntryReply(assignments[a.id].pending.None?);
      }
      var sequence := AllocateSequence();
      if sequence.None? {
        return Failed(JournalLimit);
      }
      assignments := assignments[a.id := AssignmentEntry(digest, sequence.value, Some(a))];
      return Pending;
    }

    method ConfirmAssignment(id: Id) returns (reply: Reply)
      modifies this
      ensures Outcome(View(), reply) == Step(old(View()), Op.ConfirmAssignment(id), principal)
    {
      if !ValidId(id) {
        return Failed(JournalCorrupt);
      }
      if id !in assignments {
        return Failed(JournalNotFound);
      }
      assignments := assignments[id := assignments[id].(pending := None)];
      return Done;
    }

    method PutEvent(digest: JournalDigest, d: Delivery) returns (reply: Reply)
      modifies this
      ensures Outcome(View(), reply) == Step(old(View()), Op.PutEvent(digest, d), principal)
    {
      if !ValidDeliveryFor(d, principal) {
        return Failed(JournalCorrupt);
      }
      if d.id in events {
        if events[d.id].digest != digest {
          return Failed(JournalConflict);
        }
        return EntryReply(events[d.id].pending.None?);
      }
      var sequence := AllocateSequence();
      if sequence.None? {
        return Failed(JournalLimit);
      }
      events := events[d.id := EventEntry(digest, sequence.value, Some(d), None)];
      return Pending;
    }

    /** Settles first and undoes it again if no number is left for the rejection. */
    method SettleEvent(receipt: Receipt, eventDigest: JournalDigest, receiptDigest: JournalDigest) returns (reply: Reply)
      modifies this
      ensures Outcome(View(), reply) == Step(old(View()), Op.SettleEvent(receipt, eventDigest, receiptDigest), principal)
    {
      var id := receipt.delivery;
      if id !in events {
        return Failed(JournalNotFound);
      }
      var current := events[id];
      if current.digest != eventDigest {
        return Failed(JournalConflict);
      }
      if current.pending.None? {
        if current.receiptDigest != Some(receiptDigest) {
          return Failed(JournalConflict);
        }
        return Done;
      }
      if !ReceiptFits(receipt, current.pending.value) {
        return Failed(JournalCorrupt);
      }
      ghost var before := events;
      events := events[id := current.(pending := None, receiptDigest := Some(receiptDigest))];
      if receipt.decision.Nack? {
        var sequence := AllocateSequence();
        if sequence.None? {
          events := events[id := current];
          assert events == before;
          return Failed(JournalLimit);
        }
        var rejected := RejectedEvent(current.pending.value, receipt);
        rejections := rejections[id := RejectionEntry(sequence.value, eventDigest, receiptDigest, Some(rejected))];
      }
      return Done;
    }

    method ConfirmRejection(id: Id) returns (reply: Reply)
      modifies this
      ensures Outcome(View(), reply) == Step(old(View()), Op.ConfirmRejection(id), principal)
    {
      if !ValidId(id) {
        return Failed(JournalCorrupt);
      }
      if id !in rejections {
        return Failed(JournalNotFound);
      }
      rejections := rejections[id := rejections[id].(pending := None)];
      return Done;
    }

    /** A page is the beginning of the one list of waiting events in number order. */
    method ListEvents(after: nat, limit: int) returns (r: Option<seq<JournalEvent>>, ghost all: seq<JournalEvent>)
      requires NumbersOk(View()) && forall id | id in events && events[id].pending.Some? :: events[id].pending.value.id == id
      ensures r.None? <==> !(1 <= limit <= MAX_JOURNAL_PAGE)
      ensures r.Some? ==> Lists(EventBefore, Waiting(View(), after), all) && r.value == Take(all, limit)
    {
      all := [];
      if limit < 1 || limit > MAX_JOURNAL_PAGE {
        return None, all;
      }
      var list: seq<JournalEvent> := [];
      ghost var found: set<JournalEvent> := {};
      var rest := events.Keys;
      while rest != {}
        invariant rest <= events.Keys
        invariant found == set id | id in events && id !in rest && events[id].pending.Some? && events[id].sequence > after ::
                    JournalEvent(events[id].sequence, events[id].digest, events[id].pending.value)
        invariant Lists(EventBefore, found, list)
      {
        var id :| id in rest;
        var current := events[id];
        if current.pending.Some? && current.sequence > after {
          var e := JournalEvent(current.sequence, current.digest, current.pending.value);
          forall x | x in found ensures exists k :: k !in rest && Shows(View(), k, x) {
            var k :| k in events && k !in rest && events[k].pending.Some? && events[k].sequence > after
                     && x == JournalEvent(events[k].sequence, events[k].digest, events[k].pending.value);
            assert Shows(View(), k, x);
          }
          NumbersOrder(View(), found, e, id, rest);
          list := Insert(EventBefore, e, list, found);
          found := found + {e};
        }
        rest := rest - {id};
      }
      all := list;
      return Some(Take(list, limit)), all;
    }
  }

  predicate Shows(j: JournalState, id: Id, x: JournalEvent) {
    && id in j.events && j.events[id].pending.Some?
    && x == JournalEvent(j.events[id].sequence, j.events[id].digest, j.events[id].pending.value)
  }

  lemma {:induction false} OneEventPerNumber(j: JournalState, a: Id, x: JournalEvent, b: Id, y: JournalEvent)
    requires NumbersOk(j) && Shows(j, a, x) && Shows(j, b, y)
    ensures x.sequence == y.sequence <==> a == b
  {
    assert Used(j, EventSlot(a)) && Used(j, EventSlot(b));
    assert SequenceOf(j, EventSlot(a)) == SequenceOf(j, EventSlot(b)) ==> EventSlot(a) == EventSlot(b);
  }

  lemma {:induction false} NumbersOrder(j: JournalState, found: set<JournalEvent>, e: JournalEvent, id: Id, rest: set<Id>)
    requires NumbersOk(j) && id in rest && Shows(j, id, e)
    requires forall x | x in found :: exists k :: k !in rest && Shows(j, k, x)
    ensures e !in found && Orders(EventBefore, found + {e})
  {
    forall x | x in found ensures x.sequence != e.sequence {
      var k :| k !in rest && Shows(j, k, x);
      OneEventPerNumber(j, k, x, id, e);
    }
    forall x, y | x in found && y in found && x.sequence == y.sequence ensures x == y {
      var k :| k !in rest && Shows(j, k, x);
      var l :| l !in rest && Shows(j, l, y);
      OneEventPerNumber(j, k, x, l, y);
    }
  }

  lemma {:induction false} WaitingOrders(j: JournalState, after: nat)
    requires NumbersOk(j)
    ensures Orders(EventBefore, Waiting(j, after))
  {
    forall x, y | x in Waiting(j, after) && y in Waiting(j, after) && x.sequence == y.sequence ensures x == y {
      var k :| k in j.events && Shows(j, k, x);
      var l :| l in j.events && Shows(j, l, y);
      OneEventPerNumber(j, k, x, l, y);
    }
  }

  /** What waits after the last event read is the rest of the listing. */
  lemma {:induction false} WaitingSuffix(j: JournalState, all: seq<JournalEvent>, k: nat, later: seq<JournalEvent>)
    requires NumbersOk(j) && Lists(EventBefore, Waiting(j, 0), all) && k <= |all|
    requires Lists(EventBefore, Waiting(j, if k == 0 then 0 else all[k - 1].sequence), later)
    ensures later == all[k..]
  {
    hide NumbersOk;
    WaitingOrders(j, 0);
    if k == 0 {
      SortedUnique(EventBefore, Waiting(j, 0), later, all);
    } else {
      CursorSuffix(EventBefore, Waiting(j, 0), all, k - 1, Waiting(j, all[k - 1].sequence), later);
    }
  }

  /** A journal may return fewer events than asked for, but an invalid request stays
  invalid. */
  function ShortLimit(pageSize: int, limit: int): int {
    if pageSize > 0 && limit > pageSize && limit <= MAX_JOURNAL_PAGE then pageSize else limit
  }

  /** Reading until an empty page returns every waiting event once, in order, however
  short the pages in between. */
  method DrainOutbox(journal: MemoryJournal, pageSizes: nat -> int, limit: int) returns (read: seq<JournalEvent>)
    requires NumbersOk(journal.View()) && 1 <= limit <= MAX_JOURNAL_PAGE
    requires forall id | id in journal.events && journal.events[id].pending.Some? :: journal.events[id].pending.value.id == id
    ensures Lists(EventBefore, Waiting(journal.View(), 0), read) && |read| == |Waiting(journal.View(), 0)|
  {
    hide NumbersOk;
    var page, first := journal.ListEvents(0, ShortLimit(pageSizes(0), limit));
    ghost var all := first;
    read := page.value;
    var turn := 1;
    while page.value != []
      invariant page.Some? && read <= all && (page.value == [] ==> read == all) && (page.value != [] ==> read != [])
      decreases |all| - |read|, |page.value|
    {
      ghost var k := |read|;
      assert read[k - 1] == all[k - 1];
      ghost var rest;
      page, rest := journal.ListEvents(read[|read| - 1].sequence, ShortLimit(pageSizes(turn), limit));
      WaitingSuffix(journal.View(), all, k, rest);
      read := read + page.value;
      turn := turn + 1;
    }
    WaitingOrders(journal.View(), 0);
    NoRepeats(EventBefore, Waiting(journal.View(), 0), read);
  }
}
