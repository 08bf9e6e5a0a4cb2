/** The recovery listing of a worker's current leases. */
module Leases {
  import opened Types
  import opened Validators
  import opened Store
  import opened Commands
  import opened Invariant
  import opened MemoryStore
  import opened AgentCore
  import opened Ordering
  import opened Paging
  import Queries

  datatype LeaseCursor = LeaseCursor(grantedAt: Time, workspace: Id, task: Id, fence: nat)

  predicate LeaseLess(a: LeaseAssignment, b: LeaseAssignment) {
    if a.grantedAt != b.grantedAt then a.grantedAt < b.grantedAt
    else if a.task.ref.workspace.id != b.task.ref.workspace.id then IdLess(a.task.ref.workspace.id, b.task.ref.workspace.id)
    else if a.task.ref.id != b.task.ref.id then IdLess(a.task.ref.id, b.task.ref.id)
    else a.grant.fence < b.grant.fence
  }

  predicate AfterCursor(a: LeaseAssignment, c: LeaseCursor) {
    if a.grantedAt != c.grantedAt then c.grantedAt < a.grantedAt
    else if a.task.ref.workspace.id != c.workspace then IdLess(c.workspace, a.task.ref.workspace.id)
    else if a.task.ref.id != c.task then IdLess(c.task, a.task.ref.id)
    else c.fence < a.grant.fence
  }

  function CursorOf(a: LeaseAssignment): LeaseCursor {
    LeaseCursor(a.grantedAt, a.grant.task.workspace.id, a.grant.task.id, a.grant.fence)
  }

  function Keeps(after: Option<LeaseCursor>): LeaseAssignment -> bool {
    (a: LeaseAssignment) => after.Some? ==> AfterCursor(a, after.value)
  }

  function AfterLease(a: LeaseAssignment): LeaseAssignment -> bool {
    Keeps(Some(CursorOf(a)))
  }

  predicate Holds(s: StoreState, authority: Id, worker: Id, ref: TaskRef) {
    && ref in s.tasks && ref.workspace.authority == authority && s.tasks[ref].lease.owner == worker
    && LeaseKey(ref, s.tasks[ref].lease.fence) in s.grants
  }

  function AssignmentOf(s: StoreState, ref: TaskRef): LeaseAssignment
    requires ref in s.tasks && LeaseKey(ref, s.tasks[ref].lease.fence) in s.grants
  {
    var g := s.grants[LeaseKey(ref, s.tasks[ref].lease.fence)];
    LeaseAssignment(g.grant, s.tasks[ref].task, g.grantedAt)
  }

  ghost function Held(s: StoreState, authority: Id, worker: Id, after: Option<LeaseCursor>): set<LeaseAssignment> {
    set ref | ref in s.tasks && Holds(s, authority, worker, ref) && Keeps(after)(AssignmentOf(s, ref)) :: AssignmentOf(s, ref)
  }

  /** In a sound store a held lease is a valid assignment that agrees with its history. */
  lemma {:induction false} HeldFacts(s: StoreState, authority: Id, worker: Id, ref: TaskRef)
    requires TasksOk(s.tasks) && GrantsOk(s.tasks, s.grants)
    requires ref in s.tasks && ref.workspace.authority == authority && s.tasks[ref].lease.owner == worker && worker != ""
    ensures Holds(s, authority, worker, ref)
    ensures var a := AssignmentOf(s, ref);
            && ValidAssignment(a) && a.grant == LeaseGrant(ref, worker, s.tasks[ref].lease.fence) && a.task == s.tasks[ref].task
            && a.task.ref == ref && GrantRecorded(s.grants, a.grant)
  {
    assert LeaseHeadOk(s.grants, ref, s.tasks[ref].lease);
    TaskRowAt(s, ref);
    GrantRowAt(s, LeaseKey(ref, s.tasks[ref].lease.fence));
  }

  lemma {:induction false} LeaseTotal(a: LeaseAssignment, b: LeaseAssignment)
    requires a.task.ref.workspace.authority == b.task.ref.workspace.authority
    ensures !(LeaseLess(a, b) && LeaseLess(b, a))
    ensures a.task.ref != b.task.ref ==> LeaseLess(a, b) || LeaseLess(b, a)
  {
    IdLessTotal(a.task.ref.workspace.id, b.task.ref.workspace.id);
    IdLessTotal(a.task.ref.id, b.task.ref.id);
  }

  lemma {:induction false} LeaseTransitive(a: LeaseAssignment, b: LeaseAssignment, c: LeaseAssignment)
    requires LeaseLess(a, b) && LeaseLess(b, c)
    ensures LeaseLess(a, c)
  {
    var x, y, z := a.task.ref, b.task.ref, c.task.ref;
    IdLessTotal(x.workspace.id, y.workspace.id);
    IdLessTotal(x.workspace.id, z.workspace.id);
    IdLessTotal(x.id, y.id);
    IdLessTotal(x.id, z.id);
    if IdLess(x.workspace.id, y.workspace.id) && IdLess(y.workspace.id, z.workspace.id) {
      IdLessTransitive(x.workspace.id, y.workspace.id, z.workspace.id);
    }
    if IdLess(x.id, y.id) && IdLess(y.id, z.id) {
      IdLessTransitive(x.id, y.id, z.id);
    }
  }

  lemma {:induction false} HeldOrders(s: StoreState, authority: Id, worker: Id, held: set<LeaseAssignment>)
    requires TasksOk(s.tasks) && GrantsOk(s.tasks, s.grants) && worker != "" && held <= Held(s, authority, worker, None)
    ensures Orders(LeaseLess, held)
  {
    hide TasksOk, GrantsOk, ValidAssignment, GrantRecorded;
    forall a | a in held ensures a.task.ref.workspace.authority == authority && a.task.ref in s.tasks
                                && Holds(s, authority, worker, a.task.ref) && a == AssignmentOf(s, a.task.ref) {
      var ref :| ref in s.tasks && Holds(s, authority, worker, ref) && a == AssignmentOf(s, ref);
      HeldFacts(s, authority, worker, ref);
    }
    forall a, b | a in held && b in held
      ensures !(LeaseLess(a, b) && LeaseLess(b, a)) && (a != b ==> LeaseLess(a, b) || LeaseLess(b, a))
    {
      LeaseTotal(a, b);
    }
    forall a, b, c | a in held && b in held && c in held && LeaseLess(a, b) && LeaseLess(b, c) ensures LeaseLess(a, c) {
      LeaseTransitive(a, b, c);
    }
  }

  method ScanLeases(tx: Unit, authority: Id, worker: Id, after: Option<LeaseCursor>, limit: nat)
    returns (r: Result<seq<LeaseAssignment>>, ghost all: seq<LeaseAssignment>)
    requires TasksOk(tx.state.tasks) && GrantsOk(tx.state.tasks, tx.state.grants) && worker != ""
    ensures 1 <= limit <= MAX_PAGE_SIZE + 1 ==>
              Lists(LeaseLess, Held(tx.state, authority, worker, after), all) && r == Ok(Take(all, limit))
    ensures !(1 <= limit <= MAX_PAGE_SIZE + 1) ==> r == Err(InvalidArgument)
  {
    hide TasksOk, GrantsOk, ValidAssignment;
    all := [];
    if limit < 1 || limit > MAX_PAGE_SIZE + 1 {
      return Err(InvalidArgument), all;
    }
    var list: seq<LeaseAssignment> := [];
    ghost var found: set<LeaseAssignment> := {};
    var rest := tx.state.tasks.Keys;
    while rest != {}
      invariant rest <= tx.state.tasks.Keys
      invariant found == set ref | ref in tx.state.tasks && Holds(tx.state, authority, worker, ref) && ref !in rest
                                   && Keeps(after)(AssignmentOf(tx.state, ref)) :: AssignmentOf(tx.state, ref)
      invariant forall x | x in found :: x.task.ref !in rest
      invariant Lists(LeaseLess, found, list)
    {
      var ref :| ref in rest;
      var record := tx.state.tasks[ref];
      rest := rest - {ref};
      if ref.workspace.authority == authority && record.lease.owner == worker {
        HeldFacts(tx.state, authority, worker, ref);
        var key := LeaseKey(ref, record.lease.fence);
        if key !in tx.state.grants || tx.state.grants[key].grant.worker != worker {
          return Err(CorruptStore), all;
        }
        var a := LeaseAssignment(tx.state.grants[key].grant, record.task, tx.state.grants[key].grantedAt);
        if Keeps(after)(a) {
          assert a == AssignmentOf(tx.state, ref) && a !in found;
          assert found + {a} <= Held(tx.state, authority, worker, None);
          HeldOrders(tx.state, authority, worker, found + {a});
          list := Insert(LeaseLess, a, list, found);
          found := found + {a};
        }
      }
    }
    assert found == Held(tx.state, authority, worker, after);
    all := list;
    return Ok(Take(list, limit)), all;
  }

  datatype LeasePage = LeasePage(items: seq<LeaseAssignment>, next: Option<LeaseCursor>, hasMore: bool)

  predicate ValidLeaseCursor(c: LeaseCursor) {
    ValidTime(c.grantedAt) && ValidId(c.workspace) && ValidId(c.task) && 1 <= c.fence <= MAX_INT64
  }

  predicate ValidRequest(authority: Id, worker: Id, after: Option<LeaseCursor>, limit: int) {
    && ValidId(authority) && ValidId(worker) && NormalLimit(limit).Some?
    && (after.Some? ==> ValidLeaseCursor(after.value))
  }

  function PageOf(rest: seq<LeaseAssignment>, limit: nat): LeasePage
    requires limit >= 1
  {
    var items := Take(rest, limit);
    LeasePage(items, if |rest| > limit then Some(CursorOf(items[|items| - 1])) else None, |rest| > limit)
  }

  /** Every check on a listed lease passes on a sound store. */
  method CheckLease(tx: Unit, authority: Id, worker: Id, a: LeaseAssignment) returns (ok: bool)
    requires TasksOk(tx.state.tasks) && GrantsOk(tx.state.tasks, tx.state.grants) && worker != ""
    requires a in Held(tx.state, authority, worker, None)
    ensures ok
  {
    hide TasksOk, GrantsOk;
    ghost var ref :| ref in tx.state.tasks && Holds(tx.state, authority, worker, ref) && a == AssignmentOf(tx.state, ref);
    HeldFacts(tx.state, authority, worker, ref);
    if !ValidAssignment(a) || a.grant.task.workspace.authority != authority || a.grant.worker != worker {
      return false;
    }
    var granted := VerifyGrant(tx, a.grant);
    if granted.Err? || granted.value != a.grantedAt {
      return false;
    }
    var record := LoadTask(tx, a.grant.task);
    if record.Err? || record.value.lease.owner != worker || record.value.lease.fence != a.grant.fence
       || record.value.task.revision != a.task.revision {
      return false;
    }
    return true;
  }

  method ListLeases(tx: Unit, authority: Id, worker: Id, after: Option<LeaseCursor>, requested: int)
    returns (r: Result<LeasePage>, ghost all: seq<LeaseAssignment>)
    requires TasksOk(tx.state.tasks) && GrantsOk(tx.state.tasks, tx.state.grants)
    ensures !ValidRequest(authority, worker, after, requested) ==> r == Err(InvalidArgument)
    ensures ValidRequest(authority, worker, after, requested) ==>
              && Lists(LeaseLess, Held(tx.state, authority, worker, after), all)
              && r == Ok(PageOf(all, NormalLimit(requested).value))
  {
    all := [];
    if !ValidRequest(authority, worker, after, requested) {
      return Err(InvalidArgument), all;
    }
    hide TasksOk, GrantsOk;
    var limit := NormalLimit(requested).value;
    var listed;
    listed, all := ScanLeases(tx, authority, worker, after, limit + 1);
    if listed.Err? {
      return Err(CorruptStore), all;
    }
    var hasMore := |listed.value| > limit;
    var items := if hasMore then listed.value[..limit] else listed.value;
    assert items == Take(all, limit);
    var i := 0;
    while i < |items|
      invariant i <= |items|
    {
      assert items[i] in Elements(all);
      assert items[i] in Held(tx.state, authority, worker, None);
      var ok := CheckLease(tx, authority, worker, items[i]);
      if !ok {
        return Err(CorruptStore), all;
      }
      i := i + 1;
    }
    return Ok(LeasePage(items, if hasMore then Some(CursorOf(items[|items| - 1])) else None, hasMore)), all;
  }

  /** Filtering while collecting or afterwards gives the same listing. */
  lemma {:induction false} HeldIsFilter(s: StoreState, authority: Id, worker: Id, after: Option<LeaseCursor>, all: seq<LeaseAssignment>, later: seq<LeaseAssignment>)
    requires TasksOk(s.tasks) && GrantsOk(s.tasks, s.grants) && worker != ""
    requires Lists(LeaseLess, Held(s, authority, worker, None), all) && Lists(LeaseLess, Held(s, authority, worker, after), later)
    ensures later == Filter(all, Keeps(after))
  {
    hide TasksOk, GrantsOk;
    var filtered := Filter(all, Keeps(after));
    Queries.FilterSorted(LeaseLess, all, Keeps(after));
    forall a ensures a in filtered <==> a in Held(s, authority, worker, after) {
      FilterElements(all, Keeps(after), a);
      assert a in Held(s, authority, worker, None) <==> a in Elements(all);
    }
    HeldOrders(s, authority, worker, Held(s, authority, worker, after));
    SortedUnique(LeaseLess, Held(s, authority, worker, after), later, filtered);
  }

  lemma {:induction false} FilterElements<T>(s: seq<T>, keep: T -> bool, x: T)
    ensures x in Filter(s, keep) <==> x in s && keep(x)
    decreases |s|
  {
    if s != [] {
      FilterElements(s[1..], keep, x);
      assert s == [s[0]] + s[1..];
    }
  }

  /** A cursor made from a listed lease selects exactly the leases listed after it. */
  lemma {:induction false} LeaseKeyset(s: StoreState, authority: Id, worker: Id, all: seq<LeaseAssignment>)
    requires TasksOk(s.tasks) && GrantsOk(s.tasks, s.grants) && worker != ""
    requires Lists(LeaseLess, Held(s, authority, worker, None), all)
    ensures Keyset(LeaseLess, all, AfterLease)
  {
    hide TasksOk, GrantsOk;
    HeldOrders(s, authority, worker, Held(s, authority, worker, None));
    forall x, y | x in all && y in all
      ensures !(LeaseLess(x, y) && LeaseLess(y, x)) && (AfterLease(x)(y) <==> LeaseLess(x, y))
    {
      assert x in Elements(all) && y in Elements(all);
      var ref :| ref in s.tasks && Holds(s, authority, worker, ref) && x == AssignmentOf(s, ref);
      HeldFacts(s, authority, worker, ref);
    }
  }

  lemma {:induction false} HeldCursor(s: StoreState, authority: Id, worker: Id, all: seq<LeaseAssignment>, k: nat)
    requires TasksOk(s.tasks) && GrantsOk(s.tasks, s.grants) && worker != "" && k < |all|
    requires Lists(LeaseLess, Held(s, authority, worker, None), all)
    ensures ValidLeaseCursor(CursorOf(all[k]))
  {
    hide TasksOk, GrantsOk;
    assert all[k] in Elements(all);
    var ref :| ref in s.tasks && Holds(s, authority, worker, ref) && all[k] == AssignmentOf(s, ref);
    HeldFacts(s, authority, worker, ref);
  }

  /** What the cursor of the last lease read selects is the rest of the listing. */
  lemma {:induction false} NextPage(s: StoreState, authority: Id, worker: Id, all: seq<LeaseAssignment>, k: nat, later: seq<LeaseAssignment>)
    requires TasksOk(s.tasks) && GrantsOk(s.tasks, s.grants) && worker != "" && 0 < k <= |all|
    requires Lists(LeaseLess, Held(s, authority, worker, None), all)
    requires Lists(LeaseLess, Held(s, authority, worker, Some(CursorOf(all[k - 1]))), later)
    ensures later == all[k..]
  {
    hide TasksOk, GrantsOk;
    HeldIsFilter(s, authority, worker, Some(CursorOf(all[k - 1])), all, later);
    LeaseKeyset(s, authority, worker, all);
    RestIsSuffix(LeaseLess, all, AfterLease, k);
  }

  /** Oldest grant first; ties go to the smaller Workspace, then Task identifier. */
  ghost predicate GrantedBefore(a: LeaseAssignment, b: LeaseAssignment) {
    || a.grantedAt < b.grantedAt
    || (a.grantedAt == b.grantedAt && Lexicographic(a.task.ref.workspace.id, b.task.ref.workspace.id))
    || (a.grantedAt == b.grantedAt && a.task.ref.workspace.id == b.task.ref.workspace.id && Lexicographic(a.task.ref.id, b.task.ref.id))
  }

  /** Every Task of the authority that the worker holds, with its current grant, and
  nothing else, oldest grant first. */
  ghost predicate ListsLeases(s: StoreState, authority: Id, worker: Id, read: seq<LeaseAssignment>) {
    && (forall i, j | 0 <= i < j < |read| :: GrantedBefore(read[i], read[j]))
    && (forall ref | ref in s.tasks ::
          (exists a :: a in read && a.task.ref == ref) <==> ref.workspace.authority == authority && s.tasks[ref].lease.owner == worker)
    && (forall a | a in read ::
          && a.task.ref in s.tasks && a.task == s.tasks[a.task.ref].task
          && a.grant == LeaseGrant(a.task.ref, worker, s.tasks[a.task.ref].lease.fence)
          && GrantRecorded(s.grants, a.grant) && s.grants[LeaseKey(a.task.ref, a.grant.fence)].grantedAt == a.grantedAt)
  }

  lemma {:induction false} LeaseLessMeans(a: LeaseAssignment, b: LeaseAssignment)
    requires a.task.ref.workspace.id == b.task.ref.workspace.id && a.task.ref.id == b.task.ref.id && a.grantedAt == b.grantedAt ==>
               a.grant.fence == b.grant.fence
    ensures LeaseLess(a, b) <==> GrantedBefore(a, b)
  {
    IdLessIsLexicographic(a.task.ref.workspace.id, b.task.ref.workspace.id);
    IdLessIsLexicographic(a.task.ref.id, b.task.ref.id);
    IdLessTotal(a.task.ref.workspace.id, b.task.ref.workspace.id);
    IdLessTotal(a.task.ref.id, b.task.ref.id);
    hide Lexicographic;
  }

  lemma {:induction false} HeldLease(s: StoreState, authority: Id, worker: Id, a: LeaseAssignment)
    requires TasksOk(s.tasks) && GrantsOk(s.tasks, s.grants) && worker != "" && a in Held(s, authority, worker, None)
    ensures a.task.ref in s.tasks && a.task.ref.workspace.authority == authority && s.tasks[a.task.ref].lease.owner == worker
    ensures a.task == s.tasks[a.task.ref].task && a.grant == LeaseGrant(a.task.ref, worker, s.tasks[a.task.ref].lease.fence)
    ensures GrantRecorded(s.grants, a.grant) && s.grants[LeaseKey(a.task.ref, a.grant.fence)].grantedAt == a.grantedAt
  {
    hide TasksOk, GrantsOk;
    var ref :| ref in s.tasks && Holds(s, authority, worker, ref) && a == AssignmentOf(s, ref);
    HeldFacts(s, authority, worker, ref);
  }

  lemma {:induction false} ListingOfLeases(s: StoreState, authority: Id, worker: Id, read: seq<LeaseAssignment>)
    requires TasksOk(s.tasks) && GrantsOk(s.tasks, s.grants) && worker != ""
    requires Lists(LeaseLess, Held(s, authority, worker, None), read)
    ensures ListsLeases(s, authority, worker, read)
  {
    hide TasksOk, GrantsOk, GrantedBefore, LeaseLess, GrantRecorded, Held, ValidAssignment;
    forall a | a in read ensures a in Held(s, authority, worker, None) {
      assert a in Elements(read);
    }
    forall a | a in read
      ensures a.task.ref in s.tasks && a.task.ref.workspace.authority == authority && s.tasks[a.task.ref].lease.owner == worker
      ensures a.task == s.tasks[a.task.ref].task && a.grant == LeaseGrant(a.task.ref, worker, s.tasks[a.task.ref].lease.fence)
      ensures GrantRecorded(s.grants, a.grant)
      ensures LeaseKey(a.task.ref, a.grant.fence) in s.grants && s.grants[LeaseKey(a.task.ref, a.grant.fence)].grantedAt == a.grantedAt
    {
      HeldLease(s, authority, worker, a);
      assert LeaseKey(a.task.ref, a.grant.fence) in s.grants by { RecordedAt(s, a.grant); }
    }
    forall i, j | 0 <= i < j < |read| ensures GrantedBefore(read[i], read[j]) {
      LeaseLessMeans(read[i], read[j]);
    }
    forall ref | ref in s.tasks && ref.workspace.authority == authority && s.tasks[ref].lease.owner == worker
      ensures exists a :: a in read && a.task.ref == ref
    {
      HeldFacts(s, authority, worker, ref);
      HeldMember(s, authority, worker, ref);
      assert AssignmentOf(s, ref) in Elements(read);
    }
  }

  lemma {:induction false} RecordedAt(s: StoreState, g: LeaseGrant)
    requires GrantRecorded(s.grants, g)
    ensures LeaseKey(g.task, g.fence) in s.grants
  {}

  lemma {:induction false} HeldMember(s: StoreState, authority: Id, worker: Id, ref: TaskRef)
    requires Holds(s, authority, worker, ref)
    ensures AssignmentOf(s, ref) in Held(s, authority, worker, None)
  {}

  /** Reading page after page, each with the cursor the one before returned, gives every
  current lease of the worker once, in order; every such cursor is accepted. */
  method ReadAllLeases(tx: Unit, authority: Id, worker: Id, requested: int) returns (read: seq<LeaseAssignment>)
    requires TasksOk(tx.state.tasks) && GrantsOk(tx.state.tasks, tx.state.grants) && ValidRequest(authority, worker, None, requested)
    ensures Lists(LeaseLess, Held(tx.state, authority, worker, None), read)
    ensures |read| == |Held(tx.state, authority, worker, None)| && ListsLeases(tx.state, authority, worker, read)
  {
    hide TasksOk, GrantsOk, Lists, ValidLeaseCursor, ListsLeases;
    var page, all := ListLeases(tx, authority, worker, None, requested);
    read := page.Extract().items;
    while page.Extract().hasMore
      invariant page.Ok? && read <= all && (page.value.hasMore <==> |read| < |all|)
      invariant page.value.hasMore ==> read != [] && page.value.next == Some(CursorOf(read[|read| - 1]))
      decreases |all| - |read|
    {
      ghost var k := |read|;
      assert read[k - 1] == all[k - 1];
      HeldCursor(tx.state, authority, worker, all, k - 1);
      ghost var later;
      page, later := ListLeases(tx, authority, worker, page.value.next, requested);
      NextPage(tx.state, authority, worker, all, k, later);
      read := read + page.Extract().items;
    }
    assert read == all;
    HeldOrders(tx.state, authority, worker, Held(tx.state, authority, worker, None));
    NoRepeats(LeaseLess, Held(tx.state, authority, worker, None), read);
    ListingOfLeases(tx.state, authority, worker, read);
  }
}
