/** Message and event pages of one Task. */
module Paging {
  import opened Types
  import opened Validators
  import opened Store
  import opened Commands
  import opened Invariant
  import opened MemoryStore
  import opened AgentCore
  import opened Ordering
  import opened Runs

  function NormalLimit(limit: int): Option<nat> {
    if limit == 0 then Some(MAX_PAGE_SIZE)
    else if limit < 0 || limit > MAX_PAGE_SIZE then None
    else Some(limit)
  }

  // ---- The byte budget

  predicate SequenceLess(a: MessageRecord, b: MessageRecord) { a.sequence < b.sequence }

  function EncodedSize(m: MessageRecord): nat { m.encodedSize }

  // ---- The message history

  ghost predicate IsMessage(s: StoreState, ref: TaskRef, n: nat, m: MessageRecord) {
    m.Key() in s.messages && s.messages[m.Key()] == m && m.task == ref && m.sequence == n
  }

  /** `all` lists the messages of a Task in order, one per sequence number. */
  ghost predicate IsHistory(s: StoreState, ref: TaskRef, all: seq<MessageRecord>) {
    && ref in s.tasks && |all| == s.tasks[ref].task.messageCount
    && forall i | 0 <= i < |all| :: IsMessage(s, ref, i + 1, all[i])
  }

  /** A Task has one history, so it does not matter how its messages were read. */
  lemma {:induction false} HistoryUnique(s: StoreState, ref: TaskRef, a: seq<MessageRecord>, b: seq<MessageRecord>)
    requires Reachable(s) && IsHistory(s, ref, a) && IsHistory(s, ref, b)
    ensures a == b
  {
    hide TasksOk, PublicIdsUnique, LogsOk, LinksOk, GrantsOk, ArtifactsOk, SubmissionsOk, HeadsOk, ReceiptsOk, CommandsOk, EffectsOk;
    hide Reachable, MessageTableOk, MessagesComplete;
    ReachableInv(s);
    forall i | 0 <= i < |a| ensures a[i] == b[i] {
      assert IsMessage(s, ref, i + 1, a[i]) && IsMessage(s, ref, i + 1, b[i]);
    }
  }

  lemma {:induction false} MessageFacts(s: StoreState, key: MessageKey)
    requires MessagesOk(s.tasks, s.messages) && key in s.messages
    ensures var m := s.messages[key];
            && m.Key() == key && m.task in s.tasks && 1 <= m.sequence <= s.tasks[m.task].task.messageCount
            && SealFits(m.encodedSize, MAX_PAGE_BYTES)
            && ValidStoredMessage(m.id, m.task, m.sequence, m.author, m.parts, m.createdAt)
  {
    assert MessageRowOk(s.tasks, key, s.messages[key]);
  }

  ghost function Later(s: StoreState, ref: TaskRef, after: nat): set<MessageRecord> {
    set key | key in s.messages && s.messages[key].task == ref && s.messages[key].sequence > after :: s.messages[key]
  }

  lemma {:induction false} LaterOrders(s: StoreState, ref: TaskRef, after: nat, found: set<MessageRecord>)
    requires MessagesOk(s.tasks, s.messages) && found <= Later(s, ref, after)
    ensures Orders(SequenceLess, found)
  {
    forall a, b | a in found && b in found && a.sequence == b.sequence ensures a == b {
      var k :| k in s.messages && s.messages[k] == a;
      var l :| l in s.messages && s.messages[l] == b;
    }
  }

  /** The one sorted listing of the later messages is the history from there on. */
  lemma {:induction false} LaterIsSuffix(s: StoreState, ref: TaskRef, after: nat, list: seq<MessageRecord>)
    requires MessagesOk(s.tasks, s.messages) && ref in s.tasks && after <= s.tasks[ref].task.messageCount
    requires Lists(SequenceLess, Later(s, ref, after), list)
    ensures |list| == s.tasks[ref].task.messageCount - after
    ensures forall i | 0 <= i < |list| :: IsMessage(s, ref, after + 1 + i, list[i])
  {
    LaterOrders(s, ref, after, Later(s, ref, after));
    forall i | 0 <= i < |list| ensures IsMessage(s, ref, list[i].sequence, list[i]) && after < list[i].sequence <= s.tasks[ref].task.messageCount {
      assert list[i] in Elements(list);
      var key :| key in s.messages && s.messages[key] == list[i] && list[i].sequence > after && list[i].task == ref;
      MessageFacts(s, key);
    }
    forall n: nat | after < n <= s.tasks[ref].task.messageCount ensures Covers(list, n) {
      assert HasMessage(s.messages, ref, n);
      var key :| key in s.messages && s.messages[key].task == ref && s.messages[key].sequence == n;
      assert s.messages[key] in Later(s, ref, after);
      assert s.messages[key] in Elements(list);
    }
    DenseFrom(list, after, s.tasks[ref].task.messageCount, 0);
  }

  ghost predicate Covers(list: seq<MessageRecord>, n: nat) {
    exists i :: 0 <= i < |list| && list[i].sequence == n
  }

  /** A strictly increasing list that covers an interval is that interval. */
  lemma {:induction false} DenseFrom(list: seq<MessageRecord>, after: nat, count: nat, k: nat)
    requires Sorted(SequenceLess, list) && after <= count && k <= |list| && k <= count - after
    requires forall i | 0 <= i < |list| :: after < list[i].sequence <= count
    requires forall n: nat | after < n <= count :: Covers(list, n)
    requires forall i | 0 <= i < k :: list[i].sequence == after + 1 + i
    ensures |list| == count - after
    ensures forall i | 0 <= i < |list| :: list[i].sequence == after + 1 + i
    decreases count - after - k
  {
    assert 0 < k < |list| ==> SequenceLess(list[k - 1], list[k]);
    assert k < |list| ==> after < list[k].sequence <= count;
    if k < count - after {
      var n: nat := after + 1 + k;
      assert Covers(list, n);
      var i :| 0 <= i < |list| && list[i].sequence == n;
      assert i > k ==> SequenceLess(list[k], list[i]);
      DenseFrom(list, after, count, k + 1);
    }
  }

  // ---- Message pages

  datatype MessagePage = MessagePage(items: seq<MessageRecord>, next: nat, hasMore: bool)

  method CollectLater(tx: Unit, ref: TaskRef, after: nat) returns (list: seq<MessageRecord>)
    requires MessagesOk(tx.state.tasks, tx.state.messages)
    ensures Lists(SequenceLess, Later(tx.state, ref, after), list)
  {
    list := [];
    ghost var found: set<MessageRecord> := {};
    var rest := tx.state.messages.Keys;
    MessageKeys(tx.state);
    hide MessagesOk;
    while rest != {}
      invariant rest <= tx.state.messages.Keys
      invariant found == set key | key in tx.state.messages && key !in rest
                                   && tx.state.messages[key].task == ref && tx.state.messages[key].sequence > after :: tx.state.messages[key]
      invariant Lists(SequenceLess, found, list)
    {
      var key :| key in rest;
      var m := tx.state.messages[key];
      if m.task == ref && m.sequence > after {
        assert m.Key() in rest && m !in found;
        assert m in Later(tx.state, ref, after);
        LaterOrders(tx.state, ref, after, found + {m});
        list := Insert(SequenceLess, m, list, found);
        found := found + {m};
      }
      rest := rest - {key};
    }
    assert found == Later(tx.state, ref, after);
  }

  /** The scan behind a page: sorted, cut to the limit, then to the byte budget. An
  oversized first record is an error, not an empty page. */
  method ScanMessages(tx: Unit, ref: TaskRef, after: nat, limit: nat, budget: nat)
    returns (r: Result<seq<MessageRecord>>, ghost all: seq<MessageRecord>)
    requires MessagesOk(tx.state.tasks, tx.state.messages)
    ensures Lists(SequenceLess, Later(tx.state, ref, after), all)
    ensures r == if !(1 <= limit <= MAX_PAGE_SIZE + 1) then Err(InvalidArgument)
                 else if budget < 1 || (all != [] && all[0].encodedSize > budget) then Err(RecordTooLarge)
                 else Ok(Affordable(Take(all, limit), EncodedSize, budget))
  {
    var list := CollectLater(tx, ref, after);
    all := list;
    if limit < 1 || limit > MAX_PAGE_SIZE + 1 {
      return Err(InvalidArgument), all;
    }
    if budget < 1 {
      return Err(RecordTooLarge), all;
    }
    var fits, page := CutToBudget(Take(list, limit), EncodedSize, budget);
    r := if fits then Ok(page) else Err(RecordTooLarge);
  }

  lemma {:induction false} MessageKeys(s: StoreState)
    requires MessagesOk(s.tasks, s.messages)
    ensures forall key | key in s.messages :: s.messages[key].Key() == key
  {
    forall key | key in s.messages ensures s.messages[key].Key() == key {
      MessageFacts(s, key);
    }
  }

  /** What a page selects from the messages that follow its cursor. */
  function Selected(rest: seq<MessageRecord>, limit: nat): seq<MessageRecord> {
    Take(Affordable(Take(rest, limit + 1), EncodedSize, MAX_PAGE_BYTES), limit)
  }

  predicate AllFit(list: seq<MessageRecord>) {
    forall i | 0 <= i < |list| :: list[i].encodedSize <= MAX_PAGE_BYTES
  }

  /** Every stored message fits the budget, so no page before the end is empty. */
  lemma {:induction false} SelectedProgress(rest: seq<MessageRecord>, limit: nat)
    requires AllFit(rest) && limit >= 1
    ensures Selected(rest, limit) <= rest && |Selected(rest, limit)| <= limit
    ensures rest != [] ==> Selected(rest, limit) != []
  {
    var window := Take(rest, limit + 1);
    AffordableIsPrefix(window, EncodedSize, MAX_PAGE_BYTES);
  }

  /** A page of a sound store never reports corruption: it is the next selection of
  the history, and says truthfully whether more follows. */
  method ListMessages(tx: Unit, ref: TaskRef, after: nat, requested: int) returns (r: Result<MessagePage>, ghost rest: seq<MessageRecord>)
    requires TasksOk(tx.state.tasks) && MessagesOk(tx.state.tasks, tx.state.messages)
    ensures after > MAX_INT64 || NormalLimit(requested).None? ==> r == Err(InvalidArgument)
    ensures after <= MAX_INT64 && NormalLimit(requested).Some? ==>
              if ref !in tx.state.tasks then r == Err(NotFound)
              else if after > tx.state.tasks[ref].task.messageCount then r == Err(InvalidArgument)
              else
                var count := tx.state.tasks[ref].task.messageCount;
                && AllFit(rest) && |rest| == count - after
                && (forall i | 0 <= i < |rest| :: IsMessage(tx.state, ref, after + 1 + i, rest[i]))
                && var items := Selected(rest, NormalLimit(requested).value);
                   r == Ok(MessagePage(items, after + |items|, after + |items| < count))
  {
    hide TasksOk, MessagesOk, ValidTaskRecord, Lists, Selected, Affordable, Readable;
    rest := [];
    var limit := NormalLimit(requested);
    if after > MAX_INT64 || limit.None? {
      return Err(InvalidArgument), rest;
    }
    var loaded := LoadTask(tx, ref);
    if loaded.Err? {
      return Err(loaded.error), rest;
    }
    var task := loaded.value.task;
    if after > task.messageCount {
      return Err(InvalidArgument), rest;
    }
    var records;
    records, rest := ScanMessages(tx, ref, after, limit.value + 1, MAX_PAGE_BYTES);
    LaterIsSuffix(tx.state, ref, after, rest);
    RestFits(tx.state, ref, after, rest);
    if records.Err? {
      return Err(CorruptStore), rest;
    }
    r := CheckPage(records.value, ref, after, limit.value, task.messageCount, rest);
    SelectedProgress(rest, limit.value);
    var readable := OpenMessages(r.Extract().items);
    if !readable {
      return Err(CorruptStore), rest;
    }
  }

  /** What opening a stored message checks. */
  predicate Readable(m: MessageRecord) {
    SealFits(m.encodedSize, MAX_PAGE_BYTES) && ValidStoredMessage(m.id, m.task, m.sequence, m.author, m.parts, m.createdAt)
  }

  /** Opens the selected messages one by one. */
  method OpenMessages(items: seq<MessageRecord>) returns (readable: bool)
    ensures readable <==> forall i | 0 <= i < |items| :: Readable(items[i])
  {
    var i := 0;
    while i < |items|
      invariant i <= |items| && forall k | 0 <= k < i :: Readable(items[k])
    {
      if !Readable(items[i]) {
        return false;
      }
      i := i + 1;
    }
    return true;
  }

  lemma {:induction false} RestFits(s: StoreState, ref: TaskRef, after: nat, rest: seq<MessageRecord>)
    requires MessagesOk(s.tasks, s.messages) && forall i | 0 <= i < |rest| :: IsMessage(s, ref, after + 1 + i, rest[i])
    ensures AllFit(rest) && forall i | 0 <= i < |rest| :: Readable(rest[i])
  {
    hide MessagesOk, ValidStoredMessage;
    forall i | 0 <= i < |rest| ensures Readable(rest[i]) {
      assert IsMessage(s, ref, after + 1 + i, rest[i]);
      MessageFacts(s, rest[i].Key());
    }
  }

  /** The gap and count checks on the scanned records. */
  method CheckPage(records: seq<MessageRecord>, ref: TaskRef, after: nat, limit: nat, count: nat, ghost rest: seq<MessageRecord>)
    returns (r: Result<MessagePage>)
    requires AllFit(rest) && limit >= 1 && after + |rest| == count && records == Affordable(Take(rest, limit + 1), EncodedSize, MAX_PAGE_BYTES)
    requires forall i | 0 <= i < |rest| :: rest[i].task == ref && rest[i].sequence == after + 1 + i
    ensures var items := Selected(rest, limit); r == Ok(MessagePage(items, after + |items|, after + |items| < count))
  {
    AffordableIsPrefix(Take(rest, limit + 1), EncodedSize, MAX_PAGE_BYTES);
    SelectedProgress(rest, limit);
    var selected: seq<MessageRecord> := [];
    var hasMore := false;
    var expected := after + 1;
    var index := 0;
    while index < |records| && !hasMore
      invariant index <= |records| && index <= limit && expected == after + 1 + index
      invariant selected == records[..index] && records <= rest
      invariant hasMore ==> index == limit && limit < |records|
      decreases |records| - index, !hasMore
    {
      if index == limit {
        hasMore := true;
      } else {
        var record := records[index];
        assert record == rest[index];
        if record.task != ref || record.sequence != expected {
          return Err(CorruptStore);
        }
        selected := selected + [record];
        expected := expected + 1;
        index := index + 1;
      }
    }
    assert selected == Selected(rest, limit);
    var next := after + |selected|;
    assert selected != [] ==> selected[|selected| - 1].sequence == next;
    if next > count {
      return Err(CorruptStore);
    }
    if next < count {
      if selected == [] {
        return Err(CorruptStore);
      }
      hasMore := true;
    }
    return Ok(MessagePage(selected, next, hasMore));
  }

  lemma {:induction false} ReadingFacts(s: StoreState, ref: TaskRef)
    requires Reachable(s) && ref in s.tasks
    ensures TasksOk(s.tasks) && MessagesOk(s.tasks, s.messages)
    ensures 1 <= s.tasks[ref].task.messageCount <= MAX_INT64
  {
    hide TasksOk, PublicIdsUnique, LogsOk, MessagesOk, LinksOk, GrantsOk, ArtifactsOk, SubmissionsOk, HeadsOk, ReceiptsOk, CommandsOk, EffectsOk;
    hide Reachable;
    ReachableInv(s);
    TaskRowAt(s, ref);
  }

  /** Following `next` from 0 while more is announced reads the whole history of the
  Task, each message once and in order, in at most as many pages as messages. */
  method ReadAllMessages(tx: Unit, ref: TaskRef, requested: int) returns (read: seq<MessageRecord>, pages: nat)
    requires Reachable(tx.state) && ref in tx.state.tasks && NormalLimit(requested).Some?
    ensures IsHistory(tx.state, ref, read)
    ensures 1 <= pages <= tx.state.tasks[ref].task.messageCount
  {
    hide Reachable, TasksOk, MessagesOk, Selected;
    ReadingFacts(tx.state, ref);
    ghost var count := tx.state.tasks[ref].task.messageCount;
    read, pages := [], 0;
    var after, more := 0, true;
    while more
      invariant after == |read| <= count && pages <= |read| && (more <==> |read| < count) && (!more ==> pages >= 1)
      invariant forall i | 0 <= i < |read| :: IsMessage(tx.state, ref, i + 1, read[i])
      decreases count - |read|
    {
      var page, rest := ListMessages(tx, ref, after, requested);
      SelectedProgress(rest, NormalLimit(requested).value);
      var items := page.Extract().items;
      forall i | 0 <= i < |items| ensures IsMessage(tx.state, ref, |read| + 1 + i, items[i]) {
        assert items[i] == rest[i];
      }
      read := read + items;
      after, more := page.Extract().next, page.Extract().hasMore;
      pages := pages + 1;
    }
  }
}
