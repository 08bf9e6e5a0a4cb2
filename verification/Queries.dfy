/** Keyset listings over many Tasks: the authority-wide query and a worker's leases. */
module Queries {
  import opened Types
  import opened Validators
  import opened Store
  import opened Commands
  import opened Invariant
  import opened MemoryStore
  import opened AgentCore
  import opened Ordering
  import opened Paging

  // ---- Authority queries

  datatype TaskCursor = TaskCursor(updatedAt: Time, workspace: Id, task: Id)

  datatype TaskQuery = TaskQuery(
    context: Id, state: Option<TaskState>, updatedAtOrAfter: Option<Time>, after: Option<TaskCursor>, limit: int)

  predicate Matches(t: Task, authority: Id, q: TaskQuery) {
    && t.ref.workspace.authority == authority
    && (q.context != "" ==> t.context.id == q.context)
    && (q.state.Some? ==> t.state == q.state.value)
    && (q.updatedAtOrAfter.Some? ==> q.updatedAtOrAfter.value <= t.updatedAt)
  }

  /** Most recently updated first, then by Workspace and Task identifier. */
  predicate UpdatedLess(a: TaskRecord, b: TaskRecord) {
    if a.task.updatedAt != b.task.updatedAt then b.task.updatedAt < a.task.updatedAt
    else if a.task.ref.workspace.id != b.task.ref.workspace.id then IdLess(a.task.ref.workspace.id, b.task.ref.workspace.id)
    else IdLess(a.task.ref.id, b.task.ref.id)
  }

  predicate AfterCursor(t: Task, c: TaskCursor) {
    if t.updatedAt != c.updatedAt then t.updatedAt < c.updatedAt
    else if t.ref.workspace.id != c.workspace then IdLess(c.workspace, t.ref.workspace.id)
    else IdLess(c.task, t.ref.id)
  }

  function CursorOf(r: TaskRecord): TaskCursor {
    TaskCursor(r.task.updatedAt, r.task.ref.workspace.id, r.task.ref.id)
  }

  function Keeps(after: Option<TaskCursor>): TaskRecord -> bool {
    (r: TaskRecord) => after.Some? ==> AfterCursor(r.task, after.value)
  }

  function AfterRecord(r: TaskRecord): TaskRecord -> bool {
    Keeps(Some(CursorOf(r)))
  }

  ghost function Matching(tasks: map<TaskRef, TaskRecord>, authority: Id, q: TaskQuery): set<TaskRecord> {
    set ref | ref in tasks && Matches(tasks[ref].task, authority, q) :: tasks[ref]
  }

  lemma {:induction false} UpdatedTotal(a: TaskRecord, b: TaskRecord)
    requires a.task.ref.workspace.authority == b.task.ref.workspace.authority
    ensures !(UpdatedLess(a, b) && UpdatedLess(b, a))
    ensures a.task.ref != b.task.ref ==> UpdatedLess(a, b) || UpdatedLess(b, a)
  {
    IdLessTotal(a.task.ref.workspace.id, b.task.ref.workspace.id);
    IdLessTotal(a.task.ref.id, b.task.ref.id);
  }

  lemma {:induction false} UpdatedTransitive(a: TaskRecord, b: TaskRecord, c: TaskRecord)
    requires UpdatedLess(a, b) && UpdatedLess(b, c)
    ensures UpdatedLess(a, c)
  {
    var x, y, z := a.task.ref, b.task.ref, c.task.ref;
    IdLessTotal(x.workspace.id, y.workspace.id);
    IdLessTotal(x.workspace.id, z.workspace.id);
    if IdLess(x.workspace.id, y.workspace.id) && IdLess(y.workspace.id, z.workspace.id) {
      IdLessTransitive(x.workspace.id, y.workspace.id, z.workspace.id);
    }
    if IdLess(x.id, y.id) && IdLess(y.id, z.id) {
      IdLessTransitive(x.id, y.id, z.id);
    }
  }

  lemma {:induction false} MatchingOrders(tasks: map<TaskRef, TaskRecord>, authority: Id, q: TaskQuery, s: set<TaskRecord>)
    requires (forall ref | ref in tasks :: tasks[ref].task.ref == ref) && s <= Matching(tasks, authority, q)
    ensures Orders(UpdatedLess, s)
  {
    forall a, b | a in s && b in s
      ensures !(UpdatedLess(a, b) && UpdatedLess(b, a)) && (a != b ==> UpdatedLess(a, b) || UpdatedLess(b, a))
    {
      UpdatedTotal(a, b);
    }
    forall a, b, c | a in s && b in s && c in s && UpdatedLess(a, b) && UpdatedLess(b, c) ensures UpdatedLess(a, c) {
      UpdatedTransitive(a, b, c);
    }
  }

  method SortMatching(tx: Unit, authority: Id, q: TaskQuery) returns (list: seq<TaskRecord>)
    requires forall ref | ref in tx.state.tasks :: tx.state.tasks[ref].task.ref == ref
    ensures Lists(UpdatedLess, Matching(tx.state.tasks, authority, q), list)
  {
    list := [];
    ghost var found: set<TaskRecord> := {};
    var tasks := tx.state.tasks;
    var rest := tasks.Keys;
    while rest != {}
      invariant rest <= tasks.Keys
      invariant found == set ref | ref in tasks && ref !in rest && Matches(tasks[ref].task, authority, q) :: tasks[ref]
      invariant Lists(UpdatedLess, found, list)
    {
      var ref :| ref in rest;
      if Matches(tasks[ref].task, authority, q) {
        assert tasks[ref].task.ref in rest && tasks[ref] !in found;
        MatchingOrders(tasks, authority, q, found + {tasks[ref]});
        list := Insert(UpdatedLess, tasks[ref], list, found);
        found := found + {tasks[ref]};
      }
      rest := rest - {ref};
    }
    assert found == Matching(tasks, authority, q);
  }

  /** Counts every match, then cuts one page behind the cursor. */
  method ScanAuthorityTasks(tx: Unit, authority: Id, q: TaskQuery, limit: nat)
    returns (r: Result<(seq<TaskRecord>, nat)>, ghost all: seq<TaskRecord>)
    requires forall ref | ref in tx.state.tasks :: tx.state.tasks[ref].task.ref == ref
    ensures Lists(UpdatedLess, Matching(tx.state.tasks, authority, q), all)
    ensures r == if !(1 <= limit <= MAX_PAGE_SIZE + 1) then Err(InvalidArgument)
                 else Ok((Take(Filter(all, Keeps(q.after)), limit), |all|))
  {
    var list := SortMatching(tx, authority, q);
    all := list;
    if limit < 1 || limit > MAX_PAGE_SIZE + 1 {
      return Err(InvalidArgument), all;
    }
    var page := CutPage(list, q.after, limit);
    return Ok((page, |list|)), all;
  }

  method CutPage(list: seq<TaskRecord>, after: Option<TaskCursor>, limit: nat) returns (page: seq<TaskRecord>)
    requires limit >= 1
    ensures page == Take(Filter(list, Keeps(after)), limit)
  {
    page := [];
    var keep := Keeps(after);
    var i := 0;
    while i < |list|
      invariant i <= |list| && |page| < limit && page == Filter(list[..i], keep)
    {
      assert list[..i + 1] == list[..i] + [list[i]];
      FilterAppend(list[..i], list[i], keep);
      if keep(list[i]) {
        page := page + [list[i]];
        if |page| == limit {
          FilterPrefix(list, i + 1, keep);
          return;
        }
      }
      i := i + 1;
    }
    assert list[..i] == list;
  }

  lemma {:induction false} FilterPrefix<T>(s: seq<T>, k: nat, keep: T -> bool)
    requires k <= |s|
    ensures Filter(s[..k], keep) <= Filter(s, keep)
    decreases |s|
  {
    if k > 0 {
      assert s[..k][1..] == s[1..][..k - 1];
      FilterPrefix(s[1..], k - 1, keep);
    }
  }

  datatype TaskPage = TaskPage(items: seq<TaskRecord>, next: Option<TaskCursor>, hasMore: bool, total: nat)

  function PageOf(rest: seq<TaskRecord>, limit: nat, total: nat): TaskPage
    requires limit >= 1
  {
    var items := Take(rest, limit);
    TaskPage(items, if |rest| > limit then Some(CursorOf(items[|items| - 1])) else None, |rest| > limit, total)
  }

  predicate ValidCursor(c: TaskCursor) {
    ValidTime(c.updatedAt) && ValidId(c.workspace) && ValidId(c.task)
  }

  predicate ValidQuery(authority: Id, q: TaskQuery) {
    && ValidId(authority) && NormalLimit(q.limit).Some? && (q.context != "" ==> ValidId(q.context))
    && (q.updatedAtOrAfter.Some? ==> ValidTime(q.updatedAtOrAfter.value))
    && (q.after.Some? ==> ValidCursor(q.after.value))
  }

  /** On a sound store the core's checks accept every page the store returns: the page
  is the next cut of the one sorted listing, and the total ignores the cursor. */
  method ListAuthorityTasks(tx: Unit, authority: Id, q: TaskQuery) returns (r: Result<TaskPage>, ghost all: seq<TaskRecord>)
    requires TasksOk(tx.state.tasks)
    ensures !ValidQuery(authority, q) ==> r == Err(InvalidArgument)
    ensures ValidQuery(authority, q) ==>
              && Lists(UpdatedLess, Matching(tx.state.tasks, authority, q), all)
              && r == Ok(PageOf(Filter(all, Keeps(q.after)), NormalLimit(q.limit).value, |all|))
  {
    all := [];
    if !ValidQuery(authority, q) {
      return Err(InvalidArgument), all;
    }
    hide TasksOk, Lists;
    TaskKeys(tx.state);
    var limit := NormalLimit(q.limit).value;
    var scanned;
    scanned, all := ScanAuthorityTasks(tx, authority, q, limit + 1);
    var records, total := scanned.Extract().0, scanned.Extract().1;
    ScanFacts(tx.state, authority, q, all, limit + 1);
    if |records| > limit + 1 || total < |records| {
      return Err(CorruptStore), all;
    }
    var sound := CheckRecords(records, authority, q);
    if !sound {
      return Err(CorruptStore), all;
    }
    var hasMore := |records| > limit;
    var items := if hasMore then records[..limit] else records;
    ghost var rest := Filter(all, Keeps(q.after));
    assert hasMore <==> |rest| > limit;
    assert items == Take(rest, limit);
    return Ok(TaskPage(items, if hasMore then Some(CursorOf(items[|items| - 1])) else None, hasMore, total)), all;
  }

  ghost predicate Acceptable(records: seq<TaskRecord>, authority: Id, q: TaskQuery) {
    && (forall i | 0 <= i < |records| ::
          ValidTaskRecord(records[i]) && Matches(records[i].task, authority, q) && Keeps(q.after)(records[i]))
    && Sorted(UpdatedLess, records)
  }

  method CheckRecords(records: seq<TaskRecord>, authority: Id, q: TaskQuery) returns (sound: bool)
    requires Acceptable(records, authority, q)
    ensures sound
  {
    hide ValidTaskRecord, Matches;
    var i := 0;
    while i < |records|
      invariant i <= |records|
    {
      var record := records[i];
      assert ValidTaskRecord(record) && Matches(record.task, authority, q) && Keeps(q.after)(record);
      assert i > 0 ==> UpdatedLess(records[i - 1], record);
      if !ValidTaskRecord(record) || !Matches(record.task, authority, q)
         || (q.after.Some? && !AfterCursor(record.task, q.after.value))
         || (i > 0 && !UpdatedLess(records[i - 1], record)) {
        return false;
      }
      i := i + 1;
    }
    return true;
  }

  lemma {:induction false} FilterFacts<T>(s: seq<T>, keep: T -> bool)
    ensures |Filter(s, keep)| <= |s|
    ensures forall x | x in Filter(s, keep) :: x in s && keep(x)
    decreases |s|
  {
    if s != [] {
      FilterFacts(s[1..], keep);
    }
  }

  lemma {:induction false} FilterSorted<T(!new)>(less: Order<T>, s: seq<T>, keep: T -> bool)
    requires Sorted(less, s)
    ensures Sorted(less, Filter(s, keep))
    decreases |s|
  {
    if s != [] {
      FilterSorted(less, s[1..], keep);
      FilterFacts(s[1..], keep);
      var rest := Filter(s[1..], keep);
      forall j | 0 <= j < |rest| ensures less(s[0], rest[j]) {
        assert rest[j] in s[1..];
      }
    }
  }

  lemma {:induction false} ScanFacts(s: StoreState, authority: Id, q: TaskQuery, all: seq<TaskRecord>, limit: nat)
    requires TasksOk(s.tasks) && Lists(UpdatedLess, Matching(s.tasks, authority, q), all)
    ensures Acceptable(Take(Filter(all, Keeps(q.after)), limit), authority, q)
    ensures |Take(Filter(all, Keeps(q.after)), limit)| <= |all|
  {
    FilterFacts(all, Keeps(q.after));
    FilterSorted(UpdatedLess, all, Keeps(q.after));
    var records := Take(Filter(all, Keeps(q.after)), limit);
    forall i | 0 <= i < |records|
      ensures ValidTaskRecord(records[i]) && Matches(records[i].task, authority, q) && Keeps(q.after)(records[i])
    {
      assert records[i] in Filter(all, Keeps(q.after));
      assert records[i] in Elements(all);
      var ref :| ref in s.tasks && Matches(s.tasks[ref].task, authority, q) && records[i] == s.tasks[ref];
      TaskRowAt(s, ref);
    }
  }

  /** A cursor made from a listed Task selects exactly the Tasks listed after it. */
  lemma {:induction false} AuthorityKeyset(s: StoreState, authority: Id, q: TaskQuery, all: seq<TaskRecord>)
    requires TasksOk(s.tasks) && Lists(UpdatedLess, Matching(s.tasks, authority, q), all)
    ensures Keyset(UpdatedLess, all, AfterRecord)
  {
    TaskKeys(s);
    MatchingOrders(s.tasks, authority, q, Matching(s.tasks, authority, q));
    forall x, y | x in all && y in all
      ensures !(UpdatedLess(x, y) && UpdatedLess(y, x)) && (AfterRecord(x)(y) <==> UpdatedLess(x, y))
    {
      assert x in Elements(all) && y in Elements(all);
    }
  }

  lemma {:induction false} MatchingFacts(s: StoreState, authority: Id, q: TaskQuery, all: seq<TaskRecord>)
    requires TasksOk(s.tasks) && Lists(UpdatedLess, Matching(s.tasks, authority, q), all)
    ensures Keyset(UpdatedLess, all, AfterRecord) && Orders(UpdatedLess, Matching(s.tasks, authority, q))
    ensures forall i | 0 <= i < |all| :: ValidCursor(CursorOf(all[i]))
  {
    AuthorityKeyset(s, authority, q, all);
    TaskKeys(s);
    MatchingOrders(s.tasks, authority, q, Matching(s.tasks, authority, q));
    forall i | 0 <= i < |all| ensures ValidCursor(CursorOf(all[i])) {
      assert all[i] in Elements(all);
      var ref :| ref in s.tasks && Matches(s.tasks[ref].task, authority, q) && all[i] == s.tasks[ref];
      assert TaskRowOk(ref, s.tasks[ref]);
    }
  }

  /** The cursor of the last Task read is valid and selects the rest of the listing. */
  lemma {:induction false} NextPage(s: StoreState, authority: Id, q: TaskQuery, all: seq<TaskRecord>, k: nat)
    requires TasksOk(s.tasks) && Lists(UpdatedLess, Matching(s.tasks, authority, q), all) && k <= |all|
    requires k == 0 ==> q.after.None?
    requires k > 0 ==> q.after == Some(CursorOf(all[k - 1]))
    ensures Filter(all, Keeps(q.after)) == all[k..]
  {
    MatchingFacts(s, authority, q, all);
    RestIsSuffix(UpdatedLess, all, AfterRecord, k);
    if k == 0 {
      FilterAll(all, Keeps(None));
    }
  }

  /** The cursor is no part of what a query matches. */
  lemma {:induction false} SameListing(s: StoreState, authority: Id, q: TaskQuery, q': TaskQuery, all: seq<TaskRecord>, all': seq<TaskRecord>)
    requires TasksOk(s.tasks) && q' == q.(after := q'.after)
    requires Lists(UpdatedLess, Matching(s.tasks, authority, q), all) && Lists(UpdatedLess, Matching(s.tasks, authority, q'), all')
    ensures all' == all
  {
    MatchingFacts(s, authority, q, all);
    assert Matching(s.tasks, authority, q') == Matching(s.tasks, authority, q);
    SortedUnique(UpdatedLess, Matching(s.tasks, authority, q), all, all');
  }

  /** Most recently updated first; ties go to the smaller Workspace, then Task identifier. */
  ghost predicate Newer(a: Task, b: Task) {
    || b.updatedAt < a.updatedAt
    || (a.updatedAt == b.updatedAt && Lexicographic(a.ref.workspace.id, b.ref.workspace.id))
    || (a.updatedAt == b.updatedAt && a.ref.workspace.id == b.ref.workspace.id && Lexicographic(a.ref.id, b.ref.id))
  }

  predicate Asked(t: Task, authority: Id, q: TaskQuery) {
    && t.ref.workspace.authority == authority
    && (q.context == "" || t.context.id == q.context)
    && (q.state.None? || t.state == q.state.value)
    && (q.updatedAtOrAfter.None? || t.updatedAt >= q.updatedAtOrAfter.value)
  }

  /** The Tasks of the authority that were asked for, all of them, newest first. */
  ghost predicate AnswersQuery(s: StoreState, authority: Id, q: TaskQuery, read: seq<TaskRecord>) {
    && (forall i, j | 0 <= i < j < |read| :: Newer(read[i].task, read[j].task))
    && (forall ref | ref in s.tasks :: s.tasks[ref] in read <==> Asked(s.tasks[ref].task, authority, q))
    && (forall x | x in read :: x.task.ref in s.tasks && s.tasks[x.task.ref] == x)
  }

  lemma {:induction false} UpdatedLessMeans(a: TaskRecord, b: TaskRecord)
    ensures UpdatedLess(a, b) <==> Newer(a.task, b.task)
  {
    IdLessIsLexicographic(a.task.ref.workspace.id, b.task.ref.workspace.id);
    IdLessIsLexicographic(a.task.ref.id, b.task.ref.id);
    IdLessTotal(a.task.ref.workspace.id, b.task.ref.workspace.id);
    hide Lexicographic;
  }

  lemma {:induction false} ListingAnswers(s: StoreState, authority: Id, q: TaskQuery, read: seq<TaskRecord>)
    requires TasksOk(s.tasks) && Lists(UpdatedLess, Matching(s.tasks, authority, q), read)
    ensures AnswersQuery(s, authority, q, read)
  {
    hide TasksOk, Newer, UpdatedLess;
    TaskKeys(s);
    forall i, j | 0 <= i < j < |read| ensures Newer(read[i].task, read[j].task) {
      UpdatedLessMeans(read[i], read[j]);
    }
    forall x: TaskRecord ensures x in read <==> x in Matching(s.tasks, authority, q) {
      assert x in read <==> x in Elements(read);
    }
  }

  /** Reading page after page, each with the cursor the one before returned, gives the
  whole sorted listing; every such cursor is accepted. */
  method ReadAllTasks(tx: Unit, authority: Id, q: TaskQuery) returns (read: seq<TaskRecord>)
    requires TasksOk(tx.state.tasks) && ValidQuery(authority, q) && q.after.None?
    ensures Lists(UpdatedLess, Matching(tx.state.tasks, authority, q), read)
    ensures |read| == |Matching(tx.state.tasks, authority, q)| && AnswersQuery(tx.state, authority, q, read)
  {
    hide AnswersQuery, TasksOk, Lists, Keyset, Orders, ValidId, ValidTime;
    var page, all := ListAuthorityTasks(tx, authority, q);
    NextPage(tx.state, authority, q, all, 0);
    MatchingFacts(tx.state, authority, q, all);
    read := page.Extract().items;
    while page.Extract().hasMore
      invariant page.Ok? && read <= all && (page.value.hasMore <==> |read| < |all|)
      invariant page.value.hasMore ==> read != [] && page.value.next == Some(CursorOf(read[|read| - 1]))
      decreases |all| - |read|
    {
      ghost var k := |read|;
      assert read[k - 1] == all[k - 1];
      var query := q.(after := page.value.next);
      ghost var same;
      page, same := ListAuthorityTasks(tx, authority, query);
      SameListing(tx.state, authority, q, query, all, same);
      NextPage(tx.state, authority, query, all, k);
      read := read + page.Extract().items;
    }
    assert read == all;
    NoRepeats(UpdatedLess, Matching(tx.state.tasks, authority, q), read);
    ListingAnswers(tx.state, authority, q, read);
  }
}
