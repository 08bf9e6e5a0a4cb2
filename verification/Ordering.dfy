/** Sorted listings and the pages cut from them. */
module Ordering {

  type Order<!T> = (T, T) -> bool

  /** `less` orders the elements of `s` strictly and totally. */
  ghost predicate Orders<T(!new)>(less: Order<T>, s: set<T>) {
    && (forall a, b | a in s && b in s :: !(less(a, b) && less(b, a)))
    && (forall a, b | a in s && b in s && a != b :: less(a, b) || less(b, a))
    && (forall a, b, c | a in s && b in s && c in s && less(a, b) && less(b, c) :: less(a, c))
  }

  ghost predicate Sorted<T>(less: Order<T>, s: seq<T>) {
    forall i, j | 0 <= i < j < |s| :: less(s[i], s[j])
  }

  ghost function Elements<T>(s: seq<T>): set<T> {
    set x | x in s
  }

  ghost predicate Lists<T>(less: Order<T>, elements: set<T>, s: seq<T>) {
    Elements(s) == elements && Sorted(less, s)
  }

  /** A sorted listing has every element once. */
  lemma {:induction false} NoRepeats<T(!new)>(less: Order<T>, elements: set<T>, s: seq<T>)
    requires Orders(less, elements) && Lists(less, elements, s)
    ensures forall i, j | 0 <= i < j < |s| :: s[i] != s[j]
    ensures |s| == |elements|
    decreases |s|
  {
    EmptyListing(s);
    if s != [] {
      DropFirst(less, elements, s);
      assert s[0] in Elements(s);
      NoRepeats(less, elements - {s[0]}, s[1..]);
      assert forall i | 0 <= i < |s[1..]| :: s[1..][i] == s[i + 1] && s[1..][i] in Elements(s[1..]);
    }
  }

  lemma {:induction false} EmptyListing<T>(s: seq<T>)
    ensures Elements(s) == {} <==> s == []
  {
    if s != [] {
      assert s[0] in Elements(s);
    }
  }

  /** A set has one sorted listing, so no listing depends on the order in which a
  map was walked. */
  lemma {:induction false} SortedUnique<T(!new)>(less: Order<T>, elements: set<T>, a: seq<T>, b: seq<T>)
    requires Orders(less, elements) && Lists(less, elements, a) && Lists(less, elements, b)
    ensures a == b
    decreases |a|
  {
    EmptyListing(a);
    EmptyListing(b);
    if a != [] && b != [] {
      FirstIsLeast(less, elements, a, b);
      DropFirst(less, elements, a);
      DropFirst(less, elements, b);
      assert a == [a[0]] + a[1..] && b == [b[0]] + b[1..];
      hide Sorted, Elements;
      SortedUnique(less, elements - {a[0]}, a[1..], b[1..]);
    }
  }

  lemma {:induction false} FirstIsLeast<T(!new)>(less: Order<T>, elements: set<T>, a: seq<T>, b: seq<T>)
    requires Orders(less, elements) && Lists(less, elements, a) && Lists(less, elements, b) && a != [] && b != []
    ensures a[0] == b[0]
  {
    assert a[0] in Elements(a) && b[0] in Elements(b);
    assert a[0] in b && b[0] in a;
    var i :| 0 <= i < |b| && b[i] == a[0];
    var j :| 0 <= j < |a| && a[j] == b[0];
    assert i > 0 ==> less(b[0], b[i]);
    assert j > 0 ==> less(a[0], a[j]);
  }

  lemma {:induction false} DropFirst<T(!new)>(less: Order<T>, elements: set<T>, s: seq<T>)
    requires Orders(less, elements) && Lists(less, elements, s) && s != []
    ensures Orders(less, elements - {s[0]}) && Lists(less, elements - {s[0]}, s[1..])
  {
    var x, rest := s[0], s[1..];
    assert s == [x] + rest;
    forall i | 0 <= i < |rest| ensures rest[i] != x && less(x, rest[i]) {
      assert rest[i] == s[i + 1] && s[i + 1] in Elements(s) && x in Elements(s);
    }
    assert forall y :: y in rest <==> y in s && y != x;
  }

  lemma {:induction false} InsertedAt<T>(list: seq<T>, x: T, i: nat, a: nat)
    requires i <= |list| && a <= |list|
    ensures (list[..i] + [x] + list[i..])[a] == if a < i then list[a] else if a == i then x else list[a - 1]
  {}

  lemma {:induction false} InsertedSorted<T(!new)>(less: Order<T>, list: seq<T>, x: T, i: nat)
    requires Sorted(less, list) && i <= |list|
    requires forall k | 0 <= k < i :: less(list[k], x)
    requires forall k | i <= k < |list| :: less(x, list[k])
    ensures Sorted(less, list[..i] + [x] + list[i..])
  {
    var r := list[..i] + [x] + list[i..];
    forall a, b | 0 <= a < b < |r| ensures less(r[a], r[b]) {
      InsertedAt(list, x, i, a);
      InsertedAt(list, x, i, b);
    }
  }

  lemma {:induction false} InsertedElements<T>(list: seq<T>, x: T, i: nat)
    requires i <= |list|
    ensures Elements(list[..i] + [x] + list[i..]) == Elements(list) + {x}
  {
    assert list == list[..i] + list[i..];
    forall y ensures y in list[..i] + [x] + list[i..] <==> y in list || y == x {
      assert y in list <==> y in list[..i] || y in list[i..];
    }
  }

  /** What is not before `x` in a sorted list comes after it. */
  lemma {:induction false} RestAfter<T(!new)>(less: Order<T>, x: T, list: seq<T>, elements: set<T>, i: nat)
    requires Orders(less, elements + {x}) && x !in elements && Lists(less, elements, list)
    requires i <= |list| && (i < |list| ==> !less(list[i], x))
    ensures forall k | i <= k < |list| :: less(x, list[k])
  {
    forall k | i <= k < |list| ensures less(x, list[k]) {
      assert list[i] in Elements(list) && list[k] in Elements(list);
      assert less(x, list[i]);
      assert i < k ==> less(list[i], list[k]);
    }
  }

  /** Puts `x` at its place in a sorted list. */
  method Insert<T(!new)>(less: Order<T>, x: T, list: seq<T>, ghost elements: set<T>) returns (r: seq<T>)
    requires Orders(less, elements + {x}) && x !in elements && Lists(less, elements, list)
    ensures Lists(less, elements + {x}, r)
  {
    hide Orders;
    var i := 0;
    while i < |list| && less(list[i], x)
      invariant 0 <= i <= |list|
      invariant forall k | 0 <= k < i :: less(list[k], x)
    {
      i := i + 1;
    }
    RestAfter(less, x, list, elements, i);
    InsertedSorted(less, list, x, i);
    InsertedElements(list, x, i);
    hide Sorted, Elements;
    r := list[..i] + [x] + list[i..];
  }

  // ---- Pages

  ghost function Filter<T>(s: seq<T>, keep: T -> bool): seq<T> {
    if s == [] then []
    else (if keep(s[0]) then [s[0]] else []) + Filter(s[1..], keep)
  }

  function Take<T>(s: seq<T>, limit: nat): (r: seq<T>)
    ensures |r| <= limit && r <= s && (|s| <= limit ==> r == s)
  {
    if |s| <= limit then s else s[..limit]
  }

  lemma {:induction false} FilterAll<T>(s: seq<T>, keep: T -> bool)
    requires forall i | 0 <= i < |s| :: keep(s[i])
    ensures Filter(s, keep) == s
  {
    if s != [] {
      FilterAll(s[1..], keep);
    }
  }

  /** Keyset paging: what follows a cursor in a sorted listing is its suffix. */
  lemma {:induction false} AfterIsSuffix<T(!new)>(less: Order<T>, s: seq<T>, k: nat, after: T -> bool)
    requires k < |s| && Sorted(less, s)
    requires forall x | x in s :: after(x) <==> less(s[k], x)
    requires forall x, y | x in s && y in s :: !(less(x, y) && less(y, x))
    ensures Filter(s, after) == s[k + 1..]
    decreases k
  {
    assert s[0] in s && !after(s[0]) by {
      if k > 0 {
        assert less(s[0], s[k]);
      }
    }
    if k == 0 {
      FilterAll(s[1..], after);
    } else {
      AfterIsSuffix(less, s[1..], k - 1, after);
      assert s[k + 1..] == s[1..][k..];
    }
  }

  lemma {:induction false} FilterAppend<T>(s: seq<T>, x: T, keep: T -> bool)
    ensures Filter(s + [x], keep) == Filter(s, keep) + (if keep(x) then [x] else [])
    decreases |s|
  {
    if s == [] {
      assert (s + [x])[1..] == [];
      assert s + [x] == [x];
    } else {
      assert (s + [x])[1..] == s[1..] + [x];
      FilterAppend(s[1..], x, keep);
    }
  }

  type Cursor<!T> = T -> (T -> bool)

  /** A cursor on an element selects exactly what the order puts after it. */
  ghost predicate Keyset<T(!new)>(less: Order<T>, all: seq<T>, after: Cursor<T>) {
    && Sorted(less, all)
    && (forall x, y | x in all && y in all :: !(less(x, y) && less(y, x)))
    && (forall x, y | x in all && y in all :: after(x)(y) <==> less(x, y))
  }

  /** What a reader who has seen `k` elements finds: the elements its cursor selects. */
  ghost function Rest<T(!new)>(all: seq<T>, after: Cursor<T>, k: nat): seq<T>
    requires k <= |all|
  {
    if k == 0 then all else Filter(all, after(all[k - 1]))
  }

  /** Keyset paging over one snapshot skips and repeats nothing: whoever continues after
  the last element seen finds the rest of the one sorted listing. */
  lemma {:induction false} RestIsSuffix<T(!new)>(less: Order<T>, all: seq<T>, after: Cursor<T>, k: nat)
    requires Keyset(less, all, after) && k <= |all|
    ensures Rest(all, after, k) == all[k..]
  {
    if k > 0 {
      AfterIsSuffix(less, all, k - 1, after(all[k - 1]));
    }
  }

  /** The sorted listing of what lies after an element is what follows it. */
  lemma {:induction false} CursorSuffix<T(!new)>(less: Order<T>, elements: set<T>, all: seq<T>, k: nat, after: set<T>, later: seq<T>)
    requires Orders(less, elements) && Lists(less, elements, all) && k < |all|
    requires forall x :: x in after <==> x in elements && less(all[k], x)
    requires Lists(less, after, later)
    ensures later == all[k + 1..]
  {
    var suffix := all[k + 1..];
    assert forall i | 0 <= i < k :: less(all[i], all[k]) && all[i] in elements;
    assert all[k] in elements;
    forall x ensures x in suffix <==> x in after {
      SuffixElement(all, k, x);
      assert x in elements <==> x in all;
    }
    SortedUnique(less, after, later, suffix);
  }

  lemma {:induction false} SuffixElement<T>(all: seq<T>, k: nat, x: T)
    requires k < |all|
    ensures x in all <==> x in all[..k] || x == all[k] || x in all[k + 1..]
  {
    assert all == all[..k] + [all[k]] + all[k + 1..];
  }

  // ---- Byte budgets

  /** The longest prefix that fits the budget. */
  function Affordable<T>(list: seq<T>, size: T -> nat, budget: nat): seq<T> {
    if list == [] || size(list[0]) > budget then []
    else [list[0]] + Affordable(list[1..], size, budget - size(list[0]))
  }

  function TotalSize<T>(list: seq<T>, size: T -> nat): nat {
    if list == [] then 0 else size(list[0]) + TotalSize(list[1..], size)
  }

  /** The affordable records are the longest prefix whose total fits the budget. */
  lemma {:induction false} AffordableIsLongest<T>(list: seq<T>, size: T -> nat, budget: nat, k: nat)
    requires k <= |list|
    ensures k <= |Affordable(list, size, budget)| <==> TotalSize(list[..k], size) <= budget
    decreases |list|
  {
    if k > 0 {
      assert list[..k][1..] == list[1..][..k - 1];
      if size(list[0]) <= budget {
        AffordableIsLongest(list[1..], size, budget - size(list[0]), k - 1);
      }
    }
  }

  lemma {:induction false} AffordableIsPrefix<T>(list: seq<T>, size: T -> nat, budget: nat)
    ensures Affordable(list, size, budget) <= list
    ensures list != [] && size(list[0]) <= budget ==> Affordable(list, size, budget) != []
    decreases |list|
  {
    if list != [] && size(list[0]) <= budget {
      AffordableIsPrefix(list[1..], size, budget - size(list[0]));
      assert list == [list[0]] + list[1..];
    }
  }

  /** Nothing in the prefix exceeds the budget on its own. */
  lemma {:induction false} AffordableFits<T>(list: seq<T>, size: T -> nat, budget: nat)
    ensures forall i | 0 <= i < |Affordable(list, size, budget)| :: size(Affordable(list, size, budget)[i]) <= budget
    decreases |list|
  {
    if list != [] && size(list[0]) <= budget {
      AffordableFits(list[1..], size, budget - size(list[0]));
    }
  }

  /** Taking one more element that fits. */
  lemma {:induction false} AffordableTakes<T>(list: seq<T>, i: nat, size: T -> nat, rest: nat)
    requires i < |list| && size(list[i]) <= rest
    ensures list[..i] + Affordable(list[i..], size, rest) == list[..i + 1] + Affordable(list[i + 1..], size, rest - size(list[i]))
  {
    assert list[i..][0] == list[i] && list[i..][1..] == list[i + 1..];
    assert list[..i + 1] == list[..i] + [list[i]];
  }

  lemma {:induction false} AffordableEnds<T>(list: seq<T>, i: nat, size: T -> nat, rest: nat)
    requires i <= |list| && (i == |list| || size(list[i]) > rest)
    ensures list[..i] + Affordable(list[i..], size, rest) == list[..i]
  {
    if i < |list| {
      assert list[i..][0] == list[i];
    } else {
      assert list[i..] == [];
    }
  }

  /** Cuts a list to the budget; an oversized first element is refused instead of
  giving an empty page. */
  method CutToBudget<T>(list: seq<T>, size: T -> nat, budget: nat) returns (fits: bool, result: seq<T>)
    ensures fits <==> !(list != [] && size(list[0]) > budget)
    ensures fits ==> result == Affordable(list, size, budget)
  {
    hide Affordable;
    var i := 0;
    var total: nat := 0;
    assert list[..0] + Affordable(list[0..], size, budget) == Affordable(list, size, budget) by {
      assert list[0..] == list && list[..0] == [];
    }
    while i < |list|
      invariant i <= |list| && total <= budget && (i == 0 ==> total == 0) && (i > 0 ==> size(list[0]) <= budget)
      invariant list[..i] + Affordable(list[i..], size, budget - total) == Affordable(list, size, budget)
      decreases |list| - i
    {
      if size(list[i]) > budget {
        if i != 0 {
          AffordableEnds(list, i, size, budget - total);
          return true, list[..i];
        }
        return false, [];
      }
      if total > budget - size(list[i]) {
        AffordableEnds(list, i, size, budget - total);
        return true, list[..i];
      }
      AffordableTakes(list, i, size, budget - total);
      total := total + size(list[i]);
      i := i + 1;
    }
    AffordableEnds(list, i, size, budget - total);
    return true, list[..i];
  }
}
