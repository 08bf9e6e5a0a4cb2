/** Event pages, and the polling tail that streams a Task's events to a subscriber. */
module Streaming {
  import opened Types
  import opened Validators
  import opened Store
  import opened Commands
  import opened Invariant
  import opened Growth
  import opened Runs
  import opened MemoryStore
  import opened AgentCore
  import opened Ordering
  import opened Paging

  predicate NatLess(a: nat, b: nat) { a < b }

  ghost function Upto(after: nat, count: nat): seq<nat>
    requires after <= count
  {
    seq(count - after, i requires 0 <= i => after + 1 + i)
  }

  lemma {:induction false} NatOrders(s: set<nat>)
    ensures Orders(NatLess, s)
  {}

  lemma {:induction false} UptoLists(after: nat, count: nat, numbers: set<nat>)
    requires after <= count && forall n: nat :: n in numbers <==> after < n <= count
    ensures Lists(NatLess, numbers, Upto(after, count)) && Orders(NatLess, numbers)
  {
    var list := Upto(after, count);
    forall n: nat ensures n in list <==> n in numbers {
      if n in numbers {
        assert list[n - after - 1] == n;
      }
    }
  }

  /** Events `after + 1` to `after + k`. */
  function Slice(log: Log, after: nat, k: nat): seq<Event>
    requires forall n: nat | after < n <= after + k :: n in log
  {
    seq(k, i requires 0 <= i < k => log[after + 1 + i])
  }

  method SortedNumbers(log: Log, after: nat, ghost count: nat) returns (list: seq<nat>)
    requires after <= count && forall n: nat :: n in log <==> 1 <= n <= count
    ensures list == Upto(after, count)
  {
    list := [];
    ghost var found: set<nat> := {};
    var rest := log.Keys;
    while rest != {}
      invariant rest <= log.Keys
      invariant forall n: nat :: n in found <==> n in log && n !in rest && n > after
      invariant Lists(NatLess, found, list)
    {
      var n: nat :| n in rest;
      if n > after {
        NatOrders(found + {n});
        list := Insert<nat>(NatLess, n, list, found);
        found := found + {n};
      }
      rest := rest - {n};
    }
    UptoLists(after, count, found);
    SortedUnique<nat>(NatLess, found, list, Upto(after, count));
  }

  method ScanEvents(tx: Unit, ref: TaskRef, after: nat, limit: nat, ghost count: nat) returns (r: Result<seq<Event>>)
    requires ref in tx.state.events && after <= count
    requires forall n: nat :: n in tx.state.events[ref] <==> 1 <= n <= count
    ensures r == if !(1 <= limit <= MAX_PAGE_SIZE + 1) then Err(InvalidArgument)
                 else Ok(Slice(tx.state.events[ref], after, PageLength(after, count, limit)))
  {
    if limit < 1 || limit > MAX_PAGE_SIZE + 1 {
      return Err(InvalidArgument);
    }
    var log := tx.state.events[ref];
    var list := SortedNumbers(log, after, count);
    var numbers := Take(list, limit);
    var result: seq<Event> := [];
    while |result| < |numbers|
      invariant |result| <= |numbers|
      invariant forall k | 0 <= k < |result| :: result[k] == log[after + 1 + k]
      decreases |numbers| - |result|
    {
      assert numbers[|result|] == after + 1 + |result|;
      result := result + [log[numbers[|result|]]];
    }
    assert result == Slice(log, after, PageLength(after, count, limit));
    return Ok(result);
  }

  datatype EventPage = EventPage(items: seq<Event>, next: nat, hasMore: bool)

  function PageLength(after: nat, count: nat, limit: nat): nat
    requires after <= count
  {
    if count - after <= limit then count - after else limit
  }

  /** A page of a sound store is the next slice of the log, without gap. */
  method ReadEvents(tx: Unit, ref: TaskRef, after: nat, requested: int) returns (r: Result<EventPage>)
    requires TasksOk(tx.state.tasks) && LogsOk(tx.state.tasks, tx.state.events)
    ensures after > MAX_INT64 || NormalLimit(requested).None? ==> r == Err(InvalidArgument)
    ensures after <= MAX_INT64 && NormalLimit(requested).Some? ==>
              if ref !in tx.state.tasks then r == Err(NotFound)
              else
                var count := tx.state.tasks[ref].task.eventCount;
                if after > count then r == Err(InvalidArgument)
                else
                  var k := PageLength(after, count, NormalLimit(requested).value);
                  && ref in tx.state.events && (forall n: nat | after < n <= after + k :: n in tx.state.events[ref])
                  && r == Ok(EventPage(Slice(tx.state.events[ref], after, k), after + k, after + k < count))
  {
    hide TasksOk, LogsOk, ValidTaskRecord, LogOk, ValidStoredEvent;
    var limit := NormalLimit(requested);
    if after > MAX_INT64 || limit.None? {
      return Err(InvalidArgument);
    }
    var loaded := LoadTask(tx, ref);
    if loaded.Err? {
      return Err(loaded.error);
    }
    var count := loaded.value.task.eventCount;
    if after > count {
      return Err(InvalidArgument);
    }
    LogDomain(tx.state, ref);
    var records := ScanEvents(tx, ref, after, limit.value + 1, count);
    r := CheckEvents(records.Extract(), ref, tx.state.events[ref], after, limit.value, count);
  }

  lemma {:induction false} LogDomain(s: StoreState, ref: TaskRef)
    requires LogsOk(s.tasks, s.events) && ref in s.tasks
    ensures ref in s.events && forall n: nat :: n in s.events[ref] <==> 1 <= n <= s.tasks[ref].task.eventCount
    ensures forall n: nat | n in s.events[ref] ::
              var e := s.events[ref][n]; e.task == ref && e.sequence == n && ValidStoredEvent(e)
  {
    assert LogOk(ref, s.events[ref], s.tasks[ref].task);
    forall n: nat | n in s.events[ref] ensures EventRowOk(ref, n, s.events[ref][n]) {
      assert LogRowOk(ref, s.events[ref], n);
    }
  }

  method CheckEvents(records: seq<Event>, ref: TaskRef, log: Log, after: nat, limit: nat, count: nat) returns (r: Result<EventPage>)
    requires after <= count && limit >= 1
    requires forall n: nat :: n in log <==> 1 <= n <= count
    requires records == Slice(log, after, PageLength(after, count, limit + 1))
    requires forall n: nat | n in log :: log[n].task == ref && log[n].sequence == n && ValidStoredEvent(log[n])
    ensures var k := PageLength(after, count, limit); r == Ok(EventPage(Slice(log, after, k), after + k, after + k < count))
  {
    hide ValidStoredEvent;
    var items: seq<Event> := [];
    var hasMore := false;
    var expected := after + 1;
    while |items| < |records| && !hasMore
      invariant |items| <= |records| && |items| <= limit && expected == after + 1 + |items|
      invariant items == records[..|items|]
      invariant hasMore ==> |items| == limit && limit < |records|
      decreases |records| - |items|, !hasMore
    {
      if |items| == limit {
        hasMore := true;
      } else {
        var event := records[|items|];
        assert event == log[expected];
        if event.task != ref || event.sequence != expected || !ValidStoredEvent(event) {
          return Err(CorruptStore);
        }
        items := items + [event];
        expected := expected + 1;
      }
    }
    assert items == Slice(log, after, PageLength(after, count, limit));
    var next := after + |items|;
    if !hasMore && next != count {
      return Err(CorruptStore);
    }
    return Ok(EventPage(items, next, hasMore));
  }

  // ---- The tail

  predicate Stops(e: Event, stopOnInput: bool) {
    e.state.Terminal() || (stopOnInput && e.state == TaskInputRequired)
  }

  /** The kinds of event that end a stream. */
  predicate EndsStream(kind: EventType, stopOnInput: bool) {
    || kind == EventTaskRejected || kind == EventTaskCanceled || kind == EventTaskFailed || kind == EventTaskCompleted
    || (stopOnInput && kind == EventInputRequired)
  }

  lemma {:induction false} StopsByKind(e: Event, stopOnInput: bool)
    requires ValidStoredEvent(e)
    ensures Stops(e, stopOnInput) <==> EndsStream(e.kind, stopOnInput)
  {}

  /** The stores seen by successive polls: commits may fall between any two. */
  ghost predicate Evolves(stores: seq<StoreState>) {
    && (forall i | 0 <= i < |stores| :: Reachable(stores[i]))
    && (forall i, j | 0 <= i <= j < |stores| :: Becomes(stores[i], stores[j]))
  }

  ghost predicate Becomes(s: StoreState, s': StoreState) {
    exists actions: seq<Action> :: s' == Run(s, actions)
  }

  lemma {:induction false} BecomesGrows(s: StoreState, s': StoreState)
    requires Reachable(s) && Reachable(s') && Becomes(s, s')
    ensures Inv(s) && Inv(s') && Grows(s, s')
  {
    hide Inv, Grows, Run, Reachable;
    ReachableInv(s);
    ReachableInv(s');
    var actions: seq<Action> :| s' == Run(s, actions);
    RunKeeps(s, actions);
  }

  /** The events of `ref` after `cursor`, as far as they were emitted, up to the log of `s`. */
  ghost predicate Emitted(s: StoreState, ref: TaskRef, cursor: nat, events: seq<Event>) {
    && ref in s.tasks && ref in s.events && cursor + |events| <= s.tasks[ref].task.eventCount
    && forall i | 0 <= i < |events| :: At(s.events[ref], cursor + 1 + i, events[i])
  }

  predicate At(log: Log, n: nat, e: Event) {
    n in log && log[n] == e
  }

  lemma {:induction false} EmittedGrows(s: StoreState, s': StoreState, ref: TaskRef, cursor: nat, events: seq<Event>)
    requires Emitted(s, ref, cursor, events) && Grows(s, s') && Inv(s) && Inv(s')
    ensures Emitted(s', ref, cursor, events)
  {
    hide PublicIdsUnique, MessagesOk, LinksOk, GrantsOk, ArtifactsOk, SubmissionsOk, HeadsOk, ReceiptsOk, CommandsOk, EffectsOk;
    hide ArtifactsGrow, HeadsGrow, LogsOk, ValidStoredTask;
    LogDomain(s', ref);
    assert RecordGrows(s.tasks[ref], s'.tasks[ref]);
    assert Extends(s.events[ref], s'.events[ref]);
    assert TaskRowOk(ref, s.tasks[ref]) && TaskRowOk(ref, s'.tasks[ref]);
    CountsAgree(s.tasks[ref]);
    CountsAgree(s'.tasks[ref]);
  }

  lemma {:induction false} CountsAgree(r: TaskRecord)
    requires ValidTaskRecord(r)
    ensures r.task.eventCount == r.task.revision
  {}

  ghost predicate QuietBefore(events: seq<Event>, end: nat, stopOnInput: bool)
    requires end <= |events|
  {
    forall i | 0 <= i < end :: !Stops(events[i], stopOnInput)
  }

  /** Hands one page to the subscriber, up to and including the first stopping event. */
  method Emit(items: seq<Event>, before: seq<Event>, stopOnInput: bool) returns (emitted: seq<Event>, stopped: bool)
    requires QuietBefore(before, |before|, stopOnInput)
    ensures before <= emitted <= before + items
    ensures stopped ==> |emitted| > |before| && Stops(emitted[|emitted| - 1], stopOnInput) && QuietBefore(emitted, |emitted| - 1, stopOnInput)
    ensures !stopped ==> emitted == before + items && QuietBefore(emitted, |emitted|, stopOnInput)
  {
    emitted := before;
    var i := 0;
    while i < |items|
      invariant i <= |items| && emitted == before + items[..i] && QuietBefore(emitted, |emitted|, stopOnInput)
    {
      emitted := emitted + [items[i]];
      if Stops(items[i], stopOnInput) {
        assert emitted == before + items[..i + 1];
        return emitted, true;
      }
      i := i + 1;
    }
    return emitted, false;
  }

  function Least(a: nat, b: nat): nat { if a < b then a else b }

  /** The log of `ref` only gets longer from store to store. */
  ghost predicate CountsAscend(stores: seq<StoreState>, ref: TaskRef, start: nat) {
    && (forall k | 0 <= k < |stores| :: ref in stores[k].tasks && start <= stores[k].tasks[ref].task.eventCount)
    && (forall j, k | 0 <= j <= k < |stores| ::
          stores[j].tasks[ref].task.eventCount <= stores[k].tasks[ref].task.eventCount)
  }

  ghost predicate AllDelivered(stores: seq<StoreState>, ref: TaskRef, start: nat, polls: nat, emitted: nat)
    requires CountsAscend(stores, ref, start) && polls <= |stores|
  {
    forall k | 0 <= k < polls :: Delivered(stores, ref, start, k, polls, emitted)
  }

  /** After `polls` polls, everything that poll `k` found in the log has been emitted, up
  to one page for each poll made since. */
  predicate Delivered(stores: seq<StoreState>, ref: TaskRef, start: nat, k: nat, polls: nat, emitted: nat)
    requires k < |stores| && k < polls && ref in stores[k].tasks && start <= stores[k].tasks[ref].task.eventCount
  {
    emitted >= Least(MAX_PAGE_SIZE * (polls - k), stores[k].tasks[ref].task.eventCount - start)
  }

  /** The stream ends with the first event of an ending kind, or has met none. */
  ghost predicate EndsByKind(emitted: seq<Event>, stopped: bool, stopOnInput: bool) {
    var quiet := if stopped && emitted != [] then |emitted| - 1 else |emitted|;
    && (forall i | 0 <= i < quiet :: !EndsStream(emitted[i].kind, stopOnInput))
    && (stopped ==> emitted != [] && EndsStream(emitted[|emitted| - 1].kind, stopOnInput))
  }

  lemma {:induction false} EndsAsItStops(s: StoreState, ref: TaskRef, start: nat, emitted: seq<Event>, stopped: bool, stopOnInput: bool)
    requires Inv(s) && Emitted(s, ref, start, emitted)
    requires stopped ==> emitted != [] && Stops(emitted[|emitted| - 1], stopOnInput) && QuietBefore(emitted, |emitted| - 1, stopOnInput)
    requires !stopped ==> QuietBefore(emitted, |emitted|, stopOnInput)
    ensures EndsByKind(emitted, stopped, stopOnInput)
  {
    hide TasksOk, PublicIdsUnique, MessagesOk, LinksOk, GrantsOk, ArtifactsOk, SubmissionsOk, HeadsOk, ReceiptsOk, CommandsOk, EffectsOk, LogsOk;
    hide Stops, EndsStream, ValidStoredEvent;
    LogDomain(s, ref);
    forall i | 0 <= i < |emitted| ensures Stops(emitted[i], stopOnInput) <==> EndsStream(emitted[i].kind, stopOnInput) {
      assert At(s.events[ref], start + 1 + i, emitted[i]);
      StopsByKind(emitted[i], stopOnInput);
    }
  }

  lemma {:induction false} SoundAt(stores: seq<StoreState>, k: nat)
    requires Evolves(stores) && k < |stores|
    ensures Inv(stores[k])
  {
    ReachableInv(stores[k]);
  }

  /** Polls until an event stops the stream. For every interleaving of commits with
  polls, each event after the start is emitted once, in order and without gap; the
  stream ends at the first terminal (or input-required) event and nowhere before;
  and whatever a poll finds committed has arrived once the pages it needs are read. */
  method TailEvents(stores: seq<StoreState>, ref: TaskRef, start: nat, stopOnInput: bool)
    returns (emitted: seq<Event>, stopped: bool, polls: nat)
    requires stores != [] && Evolves(stores) && ref in stores[0].tasks && start <= stores[0].tasks[ref].task.eventCount
    ensures 1 <= polls <= |stores| && Emitted(stores[polls - 1], ref, start, emitted)
    ensures stopped ==> emitted != [] && Stops(emitted[|emitted| - 1], stopOnInput) && QuietBefore(emitted, |emitted| - 1, stopOnInput)
    ensures !stopped ==> polls == |stores| && QuietBefore(emitted, |emitted|, stopOnInput)
    ensures EndsByKind(emitted, stopped, stopOnInput)
    ensures CountsAscend(stores, ref, start)
    ensures !stopped ==> AllDelivered(stores, ref, start, |stores|, |emitted|)
  {
    hide Evolves, Emitted, QuietBefore, AllDelivered, CountsAscend, EndsByKind, Inv;
    emitted, stopped, polls := [], false, 0;
    FirstPoll(stores, ref, start, stopOnInput);
    CountsGrow(stores, ref, start);
    while polls < |stores|
      invariant polls <= |stores| && !stopped && QuietBefore(emitted, |emitted|, stopOnInput)
      invariant Emitted(stores[LastPoll(polls)], ref, start, emitted)
      invariant AllDelivered(stores, ref, start, polls, |emitted|)
      decreases |stores| - polls
    {
      emitted, stopped := PollAt(stores, polls, ref, start, emitted, stopOnInput);
      polls := polls + 1;
      if stopped {
        break;
      }
    }
    SoundAt(stores, polls - 1);
    EndsAsItStops(stores[polls - 1], ref, start, emitted, stopped, stopOnInput);
  }

  function LastPoll(polls: nat): nat { if polls == 0 then 0 else polls - 1 }

  /** One turn of the loop, against the store that the poll finds. */
  method PollAt(stores: seq<StoreState>, k: nat, ref: TaskRef, start: nat, before: seq<Event>, stopOnInput: bool)
    returns (emitted: seq<Event>, stopped: bool)
    requires k < |stores| && Evolves(stores) && ref in stores[0].tasks && CountsAscend(stores, ref, start)
    requires Emitted(stores[LastPoll(k)], ref, start, before) && QuietBefore(before, |before|, stopOnInput)
    requires AllDelivered(stores, ref, start, k, |before|)
    ensures Emitted(stores[k], ref, start, emitted)
    ensures stopped ==> emitted != [] && Stops(emitted[|emitted| - 1], stopOnInput) && QuietBefore(emitted, |emitted| - 1, stopOnInput)
    ensures !stopped ==> QuietBefore(emitted, |emitted|, stopOnInput) && AllDelivered(stores, ref, start, k + 1, |emitted|)
  {
    hide Evolves, QuietBefore, AllDelivered, CountsAscend, TasksOk, LogsOk;
    NextPoll(stores, k, ref, start, before);
    emitted, stopped := Poll(stores[k], ref, start, before, stopOnInput);
    if !stopped {
      StillDelivered(stores, ref, start, k, |before|, |emitted|);
    }
  }

  lemma {:induction false} StillDelivered(stores: seq<StoreState>, ref: TaskRef, start: nat, polls: nat, before: nat, after: nat)
    requires CountsAscend(stores, ref, start) && polls < |stores| && AllDelivered(stores, ref, start, polls, before)
    requires after >= Least(before + MAX_PAGE_SIZE, stores[polls].tasks[ref].task.eventCount - start)
    ensures AllDelivered(stores, ref, start, polls + 1, after)
  {
    var turns := polls + 1;
    forall k | 0 <= k < polls ensures Delivered(stores, ref, start, k, turns, after) {
      assert Delivered(stores, ref, start, k, polls, before);
    }
  }

  lemma {:induction false} CountsGrow(stores: seq<StoreState>, ref: TaskRef, start: nat)
    requires stores != [] && Evolves(stores) && ref in stores[0].tasks && start <= stores[0].tasks[ref].task.eventCount
    ensures CountsAscend(stores, ref, start) && AllDelivered(stores, ref, start, 0, 0)
  {
    hide Inv, Grows, Reachable, Becomes;
    forall k | 0 <= k < |stores| ensures ref in stores[k].tasks {
      assert Becomes(stores[0], stores[k]);
      BecomesGrows(stores[0], stores[k]);
      CountGrows(stores[0], stores[k], ref);
    }
    forall j, k | 0 <= j <= k < |stores|
      ensures stores[j].tasks[ref].task.eventCount <= stores[k].tasks[ref].task.eventCount
    {
      assert Becomes(stores[j], stores[k]);
      BecomesGrows(stores[j], stores[k]);
      CountGrows(stores[j], stores[k], ref);
    }
  }

  lemma {:induction false} CountGrows(s: StoreState, s': StoreState, ref: TaskRef)
    requires Inv(s) && Inv(s') && Grows(s, s') && ref in s.tasks
    ensures ref in s'.tasks && s.tasks[ref].task.eventCount <= s'.tasks[ref].task.eventCount
  {
    hide TasksOk, PublicIdsUnique, LogsOk, MessagesOk, LinksOk, GrantsOk, ArtifactsOk, SubmissionsOk, HeadsOk, ReceiptsOk, CommandsOk, EffectsOk;
    hide LogsGrow, ArtifactsGrow, HeadsGrow, Extends;
    assert RecordGrows(s.tasks[ref], s'.tasks[ref]);
    TaskRowAt(s, ref);
    TaskRowAt(s', ref);
  }

  /** One poll of the tail: reads the next page and emits it. */
  method Poll(s: StoreState, ref: TaskRef, start: nat, before: seq<Event>, stopOnInput: bool) returns (emitted: seq<Event>, stopped: bool)
    requires TasksOk(s.tasks) && LogsOk(s.tasks, s.events) && Emitted(s, ref, start, before)
    requires s.tasks[ref].task.eventCount <= MAX_INT64 && QuietBefore(before, |before|, stopOnInput)
    requires forall n: nat :: n in s.events[ref] <==> 1 <= n <= s.tasks[ref].task.eventCount
    ensures Emitted(s, ref, start, emitted)
    ensures stopped ==> emitted != [] && Stops(emitted[|emitted| - 1], stopOnInput) && QuietBefore(emitted, |emitted| - 1, stopOnInput)
    ensures !stopped ==> QuietBefore(emitted, |emitted|, stopOnInput)
    ensures !stopped ==> |emitted| >= Least(|before| + MAX_PAGE_SIZE, s.tasks[ref].task.eventCount - start)
  {
    hide TasksOk, LogsOk, QuietBefore;
    var tx := new Unit(s);
    var page := ReadEvents(tx, ref, start + |before|, 0);
    var items := page.Extract().items;
    emitted, stopped := Emit(items, before, stopOnInput);
    StillEmitted(s, ref, start, before, items, emitted);
  }

  lemma {:induction false} FirstPoll(stores: seq<StoreState>, ref: TaskRef, start: nat, stopOnInput: bool)
    requires stores != [] && Evolves(stores) && ref in stores[0].tasks && start <= stores[0].tasks[ref].task.eventCount
    ensures Emitted(stores[0], ref, start, []) && QuietBefore([], 0, stopOnInput)
  {
    hide TasksOk, PublicIdsUnique, MessagesOk, LinksOk, GrantsOk, ArtifactsOk, SubmissionsOk, HeadsOk, ReceiptsOk, CommandsOk, EffectsOk, LogsOk;
    hide Reachable, Becomes;
    assert Reachable(stores[0]);
    ReachableInv(stores[0]);
    LogDomain(stores[0], ref);
  }

  lemma {:induction false} NextPoll(stores: seq<StoreState>, k: nat, ref: TaskRef, start: nat, emitted: seq<Event>)
    requires Evolves(stores) && k < |stores| && ref in stores[0].tasks
    requires Emitted(stores[LastPoll(k)], ref, start, emitted)
    ensures Emitted(stores[k], ref, start, emitted)
    ensures TasksOk(stores[k].tasks) && LogsOk(stores[k].tasks, stores[k].events)
    ensures stores[k].tasks[ref].task.eventCount <= MAX_INT64
    ensures stores[0].tasks[ref].task.eventCount <= stores[k].tasks[ref].task.eventCount
    ensures forall n: nat :: n in stores[k].events[ref] <==> 1 <= n <= stores[k].tasks[ref].task.eventCount
  {
    hide PublicIdsUnique, MessagesOk, LinksOk, GrantsOk, ArtifactsOk, SubmissionsOk, HeadsOk, ReceiptsOk, CommandsOk, EffectsOk, LogsOk;
    hide Emitted, TasksOk, ArtifactsGrow, HeadsGrow, LogsGrow, Extends;
    hide Reachable, Becomes;
    var last := LastPoll(k);
    assert Reachable(stores[k]) && Reachable(stores[0]) && Reachable(stores[last]);
    assert Becomes(stores[0], stores[k]) && Becomes(stores[last], stores[k]);
    BecomesGrows(stores[0], stores[k]);
    BecomesGrows(stores[last], stores[k]);
    EmittedGrows(stores[last], stores[k], ref, start, emitted);
    EmittedHere(stores[k], ref, start, emitted);
    LogDomain(stores[k], ref);
    TaskRowAt(stores[k], ref);
    TaskRowAt(stores[0], ref);
    assert RecordGrows(stores[0].tasks[ref], stores[k].tasks[ref]);
  }

  lemma {:induction false} EmittedHere(s: StoreState, ref: TaskRef, start: nat, emitted: seq<Event>)
    requires Emitted(s, ref, start, emitted)
    ensures ref in s.tasks
  {}

  lemma {:induction false} StillEmitted(s: StoreState, ref: TaskRef, start: nat, before: seq<Event>, items: seq<Event>, emitted: seq<Event>)
    requires Emitted(s, ref, start, before) && before <= emitted <= before + items
    requires start + |before| + |items| <= s.tasks[ref].task.eventCount
    requires forall n: nat :: n in s.events[ref] <==> 1 <= n <= s.tasks[ref].task.eventCount
    requires forall i | 0 <= i < |items| :: items[i] == s.events[ref][start + |before| + 1 + i]
    ensures Emitted(s, ref, start, emitted)
  {
    forall i | 0 <= i < |emitted| ensures At(s.events[ref], start + 1 + i, emitted[i]) {
      if i >= |before| {
        assert emitted[i] == items[i - |before|];
      }
    }
  }

  /** Reading events on top of a view. */
  function ReadAll(v: LogView, events: seq<Event>): LogView {
    if events == [] then v else ReadEvent(ReadAll(v, events[..|events| - 1]), events[|events| - 1])
  }

  lemma {:induction false} FoldTail(log: Log, count: nat, events: seq<Event>)
    requires forall i | 0 <= i < |events| :: At(log, count + 1 + i, events[i])
    ensures ReadAll(Fold(log, count), events) == Fold(log, count + |events|)
    decreases |events|
  {
    if events != [] {
      var k := |events| - 1;
      assert forall i | 0 <= i < k :: events[..k][i] == events[i];
      FoldTail(log, count, events[..k]);
      assert At(log, count + 1 + k, events[k]);
    }
  }

  /** A snapshot and the events streamed after it tell the same story as the log. */
  lemma {:induction false} SnapshotThenTail(s: StoreState, s': StoreState, ref: TaskRef, events: seq<Event>)
    requires Reachable(s) && Reachable(s') && Becomes(s, s') && ref in s.tasks
    requires Emitted(s', ref, s.tasks[ref].task.eventCount, events)
    ensures ReadAll(ViewOf(s.tasks[ref].task), events) == Fold(s'.events[ref], s.tasks[ref].task.eventCount + |events|)
  {
    hide TasksOk, PublicIdsUnique, MessagesOk, LinksOk, GrantsOk, ArtifactsOk, SubmissionsOk, HeadsOk, ReceiptsOk, CommandsOk, EffectsOk;
    hide TasksGrow, ArtifactsGrow, HeadsGrow, ReadAll, LogsOk, Fold, LogsGrow, Reachable, Becomes;
    BecomesGrows(s, s');
    SnapshotFold(s, s', ref);
    FoldTail(s'.events[ref], s.tasks[ref].task.eventCount, events);
  }

  lemma {:induction false} SnapshotFold(s: StoreState, s': StoreState, ref: TaskRef)
    requires LogsOk(s.tasks, s.events) && LogsGrow(s.events, s'.events) && ref in s.tasks && ref in s'.events
    ensures Fold(s'.events[ref], s.tasks[ref].task.eventCount) == ViewOf(s.tasks[ref].task)
  {
    assert LogOk(ref, s.events[ref], s.tasks[ref].task);
    SameFold(s.events[ref], s'.events[ref], s.tasks[ref].task.eventCount);
  }

  lemma {:induction false} SameFold(log: Log, log': Log, n: nat)
    requires Extends(log, log') && forall k: nat :: 1 <= k <= n ==> k in log
    ensures Fold(log', n) == Fold(log, n)
  {
    if n > 0 {
      SameFold(log, log', n - 1);
    }
  }
}
