/** The array operations the views chain together: `filter`, `find`, a
    stable `sort` driven by an integer key (what `(a, b) => key(a) - key(b)`
    sorts by), `reduce` into a sum, and `reverse`. */
module Seqs {
  import opened Common

  /** `s.filter(keep)`: the elements that pass, in their original order. */
  function Filter<T>(s: seq<T>, keep: T -> bool): (r: seq<T>)
    ensures |r| <= |s|
    ensures forall i :: 0 <= i < |r| ==> keep(r[i])
  {
    if s == [] then []
    else
      var rest := Filter(s[1..], keep);
      if keep(s[0]) then
        assert forall i :: 1 <= i <= |rest| ==> ([s[0]] + rest)[i] == rest[i - 1];
        [s[0]] + rest
      else rest
  }

  /** One step of `Filter`. */
  lemma FilterCons<T>(s: seq<T>, keep: T -> bool)
    requires s != []
    ensures Filter(s, keep) == if keep(s[0]) then [s[0]] + Filter(s[1..], keep) else Filter(s[1..], keep)
  {
  }

  /** `filter` keeps every copy of a passing element and no copy of another. */
  lemma {:induction false} FilterCount<T>(s: seq<T>, keep: T -> bool, x: T)
    ensures multiset(Filter(s, keep))[x] == if keep(x) then multiset(s)[x] else 0
  {
    if s != [] {
      FilterCount(s[1..], keep, x);
      assert s == [s[0]] + s[1..];
      FilterCons(s, keep);
    }
  }

  lemma {:induction false} FilterAppend<T>(a: seq<T>, b: seq<T>, keep: T -> bool)
    ensures Filter(a + b, keep) == Filter(a, keep) + Filter(b, keep)
  {
    if a != [] {
      FilterAppend(a[1..], b, keep);
      assert (a + b)[1..] == a[1..] + b;
    } else {
      assert a + b == b;
    }
  }

  /** An element is in the filtered list iff it is in the list and passes. */
  lemma {:induction false} FilterMember<T>(s: seq<T>, keep: T -> bool, x: T)
    ensures x in Filter(s, keep) <==> x in s && keep(x)
  {
    if s != [] {
      FilterMember(s[1..], keep, x);
      FilterCons(s, keep);
      assert s == [s[0]] + s[1..];
    }
  }

  /** Filtering with a predicate no element satisfies yields the empty list. */
  lemma FilterNone<T>(s: seq<T>, keep: T -> bool)
    requires forall i :: 0 <= i < |s| ==> !keep(s[i])
    ensures Filter(s, keep) == []
  {
  }

  /** Filtering with a predicate every element satisfies keeps the list. */
  lemma {:induction false} FilterAll<T>(s: seq<T>, keep: T -> bool)
    requires forall i :: 0 <= i < |s| ==> keep(s[i])
    ensures Filter(s, keep) == s
  {
    if s != [] {
      FilterAll(s[1..], keep);
    }
  }

  /** Filtering a one-element list keeps it or empties it. */
  lemma FilterSingle<T>(x: T, keep: T -> bool)
    ensures Filter([x], keep) == if keep(x) then [x] else []
  {
    assert [x][1..] == [];
  }

  /** Filtering `a + [x] + b` filters the three parts separately. */
  lemma FilterAroundOne<T>(a: seq<T>, x: T, b: seq<T>, keep: T -> bool)
    ensures Filter(a + [x] + b, keep) == Filter(a, keep) + (if keep(x) then [x] else []) + Filter(b, keep)
  {
    FilterAppend(a + [x], b, keep);
    FilterAppend(a, [x], keep);
    FilterSingle(x, keep);
  }

  /** Filtering a list in which only the element `x` may fail the test either
      keeps everything or drops exactly `x`. */
  lemma FilterAround<T>(a: seq<T>, x: T, b: seq<T>, keep: T -> bool)
    requires forall i :: 0 <= i < |a| ==> keep(a[i])
    requires forall i :: 0 <= i < |b| ==> keep(b[i])
    ensures keep(x) ==> Filter(a + [x] + b, keep) == a + [x] + b
    ensures !keep(x) ==> Filter(a + [x] + b, keep) == a + b
  {
    FilterAll(a, keep);
    FilterAll(b, keep);
    if keep(x) {
      FilterAroundKept(a, x, b, keep);
    } else {
      FilterAroundDropped(a, x, b, keep);
    }
  }

  lemma FilterAroundKept<T>(a: seq<T>, x: T, b: seq<T>, keep: T -> bool)
    requires keep(x) && Filter(a, keep) == a && Filter(b, keep) == b
    ensures Filter(a + [x] + b, keep) == a + [x] + b
  {
    FilterAroundOne(a, x, b, keep);
  }

  lemma FilterAroundDropped<T>(a: seq<T>, x: T, b: seq<T>, keep: T -> bool)
    requires !keep(x) && Filter(a, keep) == a && Filter(b, keep) == b
    ensures Filter(a + [x] + b, keep) == a + b
  {
    FilterAroundOne(a, x, b, keep);
    assert a + [] + b == a + b;
  }

  /** Splitting a list by a predicate and by its negation accounts for every element once. */
  lemma {:induction false} FilterPartition<T>(s: seq<T>, keep: T -> bool, other: T -> bool)
    requires forall x :: other(x) <==> !keep(x)
    ensures |Filter(s, keep)| + |Filter(s, other)| == |s|
  {
    if s != [] {
      FilterPartition(s[1..], keep, other);
    }
  }

  /** Two filters in a row keep what passes both. */
  lemma {:induction false} FilterTwice<T>(s: seq<T>, p: T -> bool, q: T -> bool, both: T -> bool)
    requires forall x :: both(x) <==> p(x) && q(x)
    ensures Filter(Filter(s, p), q) == Filter(s, both)
  {
    if s != [] {
      FilterTwice(s[1..], p, q, both);
      if p(s[0]) {
        assert Filter(s, p) == [s[0]] + Filter(s[1..], p);
        assert ([s[0]] + Filter(s[1..], p))[1..] == Filter(s[1..], p);
      }
    }
  }

  /** `s.find(p)`, as the position of the first element that passes. */
  function FindFirst<T>(s: seq<T>, p: T -> bool): (r: Option<nat>)
    ensures r.Some? ==> r.value < |s| && p(s[r.value])
    ensures r.Some? ==> forall j :: 0 <= j < r.value ==> !p(s[j])
    ensures r.None? <==> forall j :: 0 <= j < |s| ==> !p(s[j])
  {
    if s == [] then None
    else if p(s[0]) then Some(0)
    else match FindFirst(s[1..], p)
      case None => None
      case Some(k) => Some(k + 1)
  }

  // ---------------------------------------------------------------------------
  // Stable sort by an integer key
  // ---------------------------------------------------------------------------

  ghost predicate SortedBy<T>(s: seq<T>, key: T -> int) {
    forall i, j :: 0 <= i < j < |s| ==> key(s[i]) <= key(s[j])
  }

  /** Puts `x` after every element whose key is not greater than its own. */
  function Insert<T>(x: T, s: seq<T>, key: T -> int): (r: seq<T>)
    requires SortedBy(s, key)
    ensures SortedBy(r, key)
    ensures multiset(r) == multiset(s) + multiset{x}
    ensures |r| == |s| + 1
  {
    if s == [] then [x]
    else if key(x) < key(s[0]) then [x] + s
    else
      var rest := Insert(x, s[1..], key);
      InsertBehindHead(x, s, key, rest);
      [s[0]] + rest
  }

  /** The step of `Insert`: the head of `s` stays in front of the insertion
      into the rest when `x`'s key is not smaller. */
  lemma InsertBehindHead<T>(x: T, s: seq<T>, key: T -> int, rest: seq<T>)
    requires s != [] && SortedBy(s, key) && key(s[0]) <= key(x)
    requires SortedBy(rest, key) && multiset(rest) == multiset(s[1..]) + multiset{x}
    ensures SortedBy([s[0]] + rest, key)
    ensures multiset([s[0]] + rest) == multiset(s) + multiset{x}
  {
    assert s == [s[0]] + s[1..];
    var r := [s[0]] + rest;
    forall i, j | 0 <= i < j < |r|
      ensures key(r[i]) <= key(r[j])
    {
      if i == 0 {
        var y := rest[j - 1];
        assert y in multiset(rest);
        if y != x {
          assert y in multiset(s[1..]);
          var k :| 0 <= k < |s[1..]| && s[1..][k] == y;
          assert s[k + 1] == y;
        }
      } else {
        assert r[i] == rest[i - 1] && r[j] == rest[j - 1];
      }
    }
  }

  /** `s.sort((a, b) => key(a) - key(b))`: insertion sort, which keeps elements
      with equal keys in their original order as ECMAScript's stable sort does. */
  function SortBy<T>(s: seq<T>, key: T -> int): (r: seq<T>)
    ensures SortedBy(r, key)
    ensures multiset(r) == multiset(s)
    ensures |r| == |s|
  {
    if s == [] then []
    else
      assert s == s[..|s| - 1] + [s[|s| - 1]];
      Insert(s[|s| - 1], SortBy(s[..|s| - 1], key), key)
  }

  /** A comparator that always answers 0 leaves the list as it was. */
  lemma {:induction false} SortByConstantKey<T>(s: seq<T>, key: T -> int, c: int)
    requires forall x :: key(x) == c
    ensures SortBy(s, key) == s
  {
    if s != [] {
      var init := s[..|s| - 1];
      SortByConstantKey(init, key, c);
      InsertAfterEqualKeys(s[|s| - 1], init, key, c);
      assert init + [s[|s| - 1]] == s;
    }
  }

  lemma {:induction false} InsertAfterEqualKeys<T>(x: T, s: seq<T>, key: T -> int, c: int)
    requires forall y :: key(y) == c
    ensures SortedBy(s, key)
    ensures Insert(x, s, key) == s + [x]
  {
    if s != [] {
      InsertAfterEqualKeys(x, s[1..], key, c);
      assert [s[0]] + (s[1..] + [x]) == s + [x];
    }
  }

  /** An element keeps its place in the sorted list: it is in the result iff it was in the input. */
  lemma SortByMembership<T>(s: seq<T>, key: T -> int, x: T)
    ensures x in SortBy(s, key) <==> x in s
  {
    assert x in multiset(SortBy(s, key)) <==> x in multiset(s);
  }

  /** The tail of a sorted list is sorted, and no key in it is below the head's. */
  lemma SortedTail<T>(s: seq<T>, key: T -> int)
    requires s != [] && SortedBy(s, key)
    ensures SortedBy(s[1..], key)
    ensures forall y :: y in s[1..] ==> key(s[0]) <= key(y)
  {
    var tail := s[1..];
    forall i, j | 0 <= i < j < |tail|
      ensures key(tail[i]) <= key(tail[j])
    {
      assert tail[i] == s[i + 1] && tail[j] == s[j + 1];
    }
    forall y | y in tail
      ensures key(s[0]) <= key(y)
    {
      var k :| 0 <= k < |tail| && tail[k] == y;
      assert s[k + 1] == y;
    }
  }

  /** A sorted list stays sorted behind an element whose key is not above any of it. */
  lemma SortedCons<T>(x: T, rest: seq<T>, key: T -> int)
    requires SortedBy(rest, key)
    requires forall y :: y in rest ==> key(x) <= key(y)
    ensures SortedBy([x] + rest, key)
  {
    var r := [x] + rest;
    forall i, j | 0 <= i < j < |r|
      ensures key(r[i]) <= key(r[j])
    {
      assert r[j] == rest[j - 1];
      if i > 0 {
        assert r[i] == rest[i - 1];
      }
    }
  }

  /** Filtering a sorted list leaves it sorted. */
  lemma {:induction false} FilterKeepsSorted<T>(s: seq<T>, keep: T -> bool, key: T -> int)
    requires SortedBy(s, key)
    ensures SortedBy(Filter(s, keep), key)
  {
    if s != [] {
      var tail := s[1..];
      SortedTail(s, key);
      FilterKeepsSorted(tail, keep, key);
      var rest := Filter(tail, keep);
      FilterCons(s, keep);
      if keep(s[0]) {
        forall y | y in rest
          ensures key(s[0]) <= key(y)
        {
          FilterMember(tail, keep, y);
        }
        SortedCons(s[0], rest, key);
      }
    }
  }

  // ---------------------------------------------------------------------------
  // reduce
  // ---------------------------------------------------------------------------

  /** `s.reduce((sum, x) => sum + f(x), 0)` */
  function Sum<T>(s: seq<T>, f: T -> int): int {
    if s == [] then 0 else Sum(s[..|s| - 1], f) + f(s[|s| - 1])
  }

  lemma {:induction false} SumAppend<T>(a: seq<T>, b: seq<T>, f: T -> int)
    ensures Sum(a + b, f) == Sum(a, f) + Sum(b, f)
    decreases |b|
  {
    if b == [] {
      assert a + b == a;
    } else {
      SumAppend(a, b[..|b| - 1], f);
      assert (a + b)[..|a + b| - 1] == a + b[..|b| - 1];
    }
  }

  /** The sum of one element is that element. */
  lemma SumSingle<T>(x: T, f: T -> int)
    ensures Sum([x], f) == f(x)
  {
    assert [x][..0] == [];
  }

  /** The sum around one element: the part before, the element, the part after. */
  lemma SumAround<T>(a: seq<T>, x: T, b: seq<T>, f: T -> int)
    ensures Sum(a + [x] + b, f) == Sum(a, f) + f(x) + Sum(b, f)
  {
    SumAppend(a + [x], b, f);
    SumAppend(a, [x], f);
    SumSingle(x, f);
  }

  /** A list is its part before `k`, its element at `k` and its part after `k`. */
  lemma SplitAround<T>(s: seq<T>, k: nat)
    requires k < |s|
    ensures s == s[..k] + [s[k]] + s[k + 1..]
  {
  }

  /** Replacing one element changes the sum by the difference of the two elements. */
  lemma SumReplace<T>(s: seq<T>, k: nat, x: T, f: T -> int)
    requires k < |s|
    ensures Sum(s[k := x], f) == Sum(s, f) - f(s[k]) + f(x)
  {
    var a, b := s[..k], s[k + 1..];
    SplitAround(s, k);
    SplitAround(s[k := x], k);
    assert s[k := x][..k] == a && s[k := x][k + 1..] == b;
    SumAround(a, s[k], b, f);
    SumAround(a, x, b, f);
  }

  /** Dropping one element takes that element out of the sum. */
  lemma SumRemove<T>(s: seq<T>, k: nat, f: T -> int)
    requires k < |s|
    ensures Sum(s[..k] + s[k + 1..], f) == Sum(s, f) - f(s[k])
  {
    SplitAround(s, k);
    SumAround(s[..k], s[k], s[k + 1..], f);
    SumAppend(s[..k], s[k + 1..], f);
  }

  /** Inserting one element adds that element to the sum. */
  lemma SumInsert<T>(s: seq<T>, k: nat, x: T, f: T -> int)
    requires k <= |s|
    ensures Sum(s[..k] + [x] + s[k..], f) == Sum(s, f) + f(x)
  {
    assert s == s[..k] + s[k..];
    SumAround(s[..k], x, s[k..], f);
    SumAppend(s[..k], s[k..], f);
  }

  // ---------------------------------------------------------------------------
  // reverse
  // ---------------------------------------------------------------------------

  /** `s.reverse()` */
  function Reverse<T>(s: seq<T>): (r: seq<T>)
    ensures |r| == |s|
    ensures forall i :: 0 <= i < |s| ==> r[i] == s[|s| - 1 - i]
  {
    if s == [] then [] else Reverse(s[1..]) + [s[0]]
  }

  /** Reversing keeps the same elements. */
  lemma ReverseMember<T>(s: seq<T>, x: T)
    ensures x in Reverse(s) <==> x in s
  {
    var r := Reverse(s);
    if x in s {
      var k :| 0 <= k < |s| && s[k] == x;
      assert r[|s| - 1 - k] == x;
    }
    if x in r {
      var k :| 0 <= k < |r| && r[k] == x;
      assert s[|s| - 1 - k] == x;
    }
  }
}
