/** Sequence operations the store and the pages share: JavaScript's
    `filter`, `reduce((acc, x) => acc + f(x), 0)`, `findIndex` and the
    stable `sort` (ECMAScript 2019 requires `Array.prototype.sort` to be
    stable), each with the laws the pages rely on. */
module Collections {

  /** `s.filter(p)`: the elements of `s` that satisfy `p`, in their order. */
  function Filter<T(!new)>(s: seq<T>, p: T -> bool): (r: seq<T>)
    ensures |r| <= |s|
    ensures forall x :: x in r <==> x in s && p(x)
  {
    if s == [] then []
    else
      assert s == [s[0]] + s[1..];
      if p(s[0]) then [s[0]] + Filter(s[1..], p) else Filter(s[1..], p)
  }

  /** Filtering keeps every passing element as often as it occurs, and no
      other element. */
  lemma {:induction false} FilterMultiset<T(!new)>(s: seq<T>, p: T -> bool)
    ensures forall x :: multiset(Filter(s, p))[x] == if p(x) then multiset(s)[x] else 0
  {
    if s != [] {
      assert s == [s[0]] + s[1..];
      FilterMultiset(s[1..], p);
    }
  }

  lemma {:induction false} FilterConcat<T(!new)>(a: seq<T>, b: seq<T>, p: T -> bool)
    ensures Filter(a + b, p) == Filter(a, p) + Filter(b, p)
  {
    if a == [] {
      assert a + b == b;
    } else {
      assert (a + b)[1..] == a[1..] + b;
      FilterConcat(a[1..], b, p);
    }
  }

  /** Filtering keeps everything when every element passes. */
  lemma {:induction false} FilterKeepsAll<T(!new)>(s: seq<T>, p: T -> bool)
    requires forall x :: x in s ==> p(x)
    ensures Filter(s, p) == s
  {
    if s != [] {
      FilterKeepsAll(s[1..], p);
    }
  }

  /** Filtering drops everything when no element passes. */
  lemma {:induction false} FilterDropsAll<T(!new)>(s: seq<T>, p: T -> bool)
    requires forall x :: x in s ==> !p(x)
    ensures Filter(s, p) == []
  {
    if s != [] {
      FilterDropsAll(s[1..], p);
    }
  }

  /** Overwriting an element with one `p` judges alike keeps the number of
      elements that pass. */
  lemma {:induction false} FilterLengthUpdate<T(!new)>(s: seq<T>, i: nat, x: T, p: T -> bool)
    requires i < |s| && p(x) == p(s[i])
    ensures |Filter(s[i := x], p)| == |Filter(s, p)|
  {
    var t := s[i := x];
    assert t[0] == if i == 0 then x else s[0];
    if i == 0 {
      assert t[1..] == s[1..];
    } else {
      assert t[1..] == s[1..][i - 1 := x];
      FilterLengthUpdate(s[1..], i - 1, x, p);
    }
  }

  /** `s.reduce((acc, x) => acc + f(x), 0)`. */
  function SumOf<T(!new)>(s: seq<T>, f: T -> int): int
  {
    if s == [] then 0 else f(s[0]) + SumOf(s[1..], f)
  }

  lemma {:induction false} SumConcat<T(!new)>(a: seq<T>, b: seq<T>, f: T -> int)
    ensures SumOf(a + b, f) == SumOf(a, f) + SumOf(b, f)
  {
    if a == [] {
      assert a + b == b;
    } else {
      assert (a + b)[1..] == a[1..] + b;
      SumConcat(a[1..], b, f);
    }
  }

  /** Replacing one element changes the sum by the difference of the two. */
  lemma {:induction false} SumUpdate<T(!new)>(s: seq<T>, i: nat, x: T, f: T -> int)
    requires i < |s|
    ensures SumOf(s[i := x], f) == SumOf(s, f) - f(s[i]) + f(x)
  {
    if i > 0 {
      assert s[i := x][1..] == s[1..][i - 1 := x];
      SumUpdate(s[1..], i - 1, x, f);
    }
  }

  /** `f` where `p` holds and 0 elsewhere. */
  function Masked<T(!new)>(f: T -> int, p: T -> bool): T -> int
  {
    x => if p(x) then f(x) else 0
  }

  /** Summing over a filter is summing the masked function over everything. */
  lemma {:induction false} SumFilterMasked<T(!new)>(s: seq<T>, p: T -> bool, f: T -> int)
    ensures SumOf(Filter(s, p), f) == SumOf(s, Masked(f, p))
  {
    if s != [] {
      SumFilterMasked(s[1..], p, f);
    }
  }

  /** A filter and its complement split a sum in two. */
  lemma {:induction false} SumFilterSplit<T(!new)>(s: seq<T>, p: T -> bool, q: T -> bool, f: T -> int)
    requires forall x :: q(x) == !p(x)
    ensures SumOf(Filter(s, p), f) + SumOf(Filter(s, q), f) == SumOf(s, f)
  {
    if s != [] {
      SumFilterSplit(s[1..], p, q, f);
    }
  }

  /** Two disjoint filters together sum to the filter of their union. */
  lemma {:induction false} SumFilterUnion<T(!new)>(s: seq<T>, p: T -> bool, q: T -> bool, u: T -> bool, f: T -> int)
    requires forall x :: u(x) == (p(x) || q(x))
    requires forall x :: !(p(x) && q(x))
    ensures SumOf(Filter(s, p), f) + SumOf(Filter(s, q), f) == SumOf(Filter(s, u), f)
  {
    if s != [] {
      SumFilterUnion(s[1..], p, q, u, f);
    }
  }

  /** With non-negative terms a filtered sum lies between 0 and the full sum. */
  lemma {:induction false} SumFilterBounded<T(!new)>(s: seq<T>, p: T -> bool, f: T -> int)
    requires forall x :: x in s ==> f(x) >= 0
    ensures 0 <= SumOf(Filter(s, p), f) <= SumOf(s, f)
  {
    if s != [] {
      SumFilterBounded(s[1..], p, f);
    }
  }

  /** The index `findIndex(p)` returns: the first position satisfying `p`,
      or -1 when there is none. */
  function FirstIndex<T(!new)>(s: seq<T>, p: T -> bool): (r: int)
    ensures -1 <= r < |s|
    ensures r >= 0 ==> p(s[r]) && forall j :: 0 <= j < r ==> !p(s[j])
    ensures r == -1 ==> forall j :: 0 <= j < |s| ==> !p(s[j])
  {
    if s == [] then -1
    else if p(s[0]) then 0
    else
      var k := FirstIndex(s[1..], p);
      if k == -1 then -1 else k + 1
  }

  /** Overwriting an element with one `p` judges alike leaves the first
      match where it was. */
  lemma {:induction false} FirstIndexUpdate<T(!new)>(s: seq<T>, i: nat, x: T, p: T -> bool)
    requires i < |s| && p(x) == p(s[i])
    ensures FirstIndex(s[i := x], p) == FirstIndex(s, p)
  {
    if i == 0 {
      assert s[i := x][1..] == s[1..];
    } else {
      assert s[i := x][1..] == s[1..][i - 1 := x];
      FirstIndexUpdate(s[1..], i - 1, x, p);
    }
  }

  /** The linear search behind `findIndex`, as a loop. */
  method FindIndex<T(!new)>(s: seq<T>, p: T -> bool) returns (index: int)
    ensures index == FirstIndex(s, p)
  {
    var i := 0;
    while i < |s|
      invariant 0 <= i <= |s|
      invariant forall j :: 0 <= j < i ==> !p(s[j])
    {
      if p(s[i]) {
        return i;
      }
      i := i + 1;
    }
    return -1;
  }

  /** `s` is ordered by `key`, smallest first. */
  ghost predicate SortedBy<T(!new)>(s: seq<T>, key: T -> int)
  {
    forall i, j :: 0 <= i < j < |s| ==> key(s[i]) <= key(s[j])
  }

  /** Insert `x` before the first element whose key is not smaller. */
  function Insert<T(!new)>(x: T, t: seq<T>, key: T -> int): (r: seq<T>)
    ensures |r| == |t| + 1
    ensures multiset(r) == multiset(t) + multiset{x}
  {
    if t == [] || key(x) <= key(t[0]) then [x] + t
    else
      assert t == [t[0]] + t[1..];
      [t[0]] + Insert(x, t[1..], key)
  }

  lemma {:induction false} InsertSorted<T(!new)>(x: T, t: seq<T>, key: T -> int)
    requires SortedBy(t, key)
    ensures SortedBy(Insert(x, t, key), key)
  {
    if t != [] && key(x) > key(t[0]) {
      var rest := Insert(x, t[1..], key);
      InsertSorted(x, t[1..], key);
      forall y | y in rest
        ensures key(t[0]) <= key(y)
      {
        assert y in multiset(t[1..]) + multiset{x};
        if y != x {
          assert y in t[1..];
        }
      }
      assert Insert(x, t, key) == [t[0]] + rest;
    }
  }

  /** `s.sort((a, b) => key(a) - key(b))`, stable: insertion sort. */
  function SortBy<T(!new)>(s: seq<T>, key: T -> int): (r: seq<T>)
    ensures |r| == |s|
    ensures multiset(r) == multiset(s)
    ensures SortedBy(r, key)
  {
    if s == [] then []
    else
      assert s == [s[0]] + s[1..];
      InsertSorted(s[0], SortBy(s[1..], key), key);
      Insert(s[0], SortBy(s[1..], key), key)
  }

  /** Sequences with the same multiset have the same members. */
  lemma SameMembers<T>(a: seq<T>, b: seq<T>)
    requires multiset(a) == multiset(b)
    ensures forall x :: x in a <==> x in b
  {
    assert forall x :: x in a <==> x in multiset(a);
    assert forall x :: x in b <==> x in multiset(b);
  }

  /** The predicate "has key k". */
  function HasKey<T(!new)>(key: T -> int, k: int): T -> bool
  {
    x => key(x) == k
  }

  lemma {:induction false} InsertKeepsKeyOrder<T(!new)>(x: T, t: seq<T>, key: T -> int, k: int)
    ensures Filter(Insert(x, t, key), HasKey(key, k))
         == if key(x) == k then [x] + Filter(t, HasKey(key, k)) else Filter(t, HasKey(key, k))
  {
    if t != [] && key(x) > key(t[0]) {
      InsertKeepsKeyOrder(x, t[1..], key, k);
    }
  }

  /** Stability: the elements sharing any one key keep their relative order. */
  lemma {:induction false} SortStable<T(!new)>(s: seq<T>, key: T -> int, k: int)
    ensures Filter(SortBy(s, key), HasKey(key, k)) == Filter(s, HasKey(key, k))
  {
    if s != [] {
      SortStable(s[1..], key, k);
      InsertKeepsKeyOrder(s[0], SortBy(s[1..], key), key, k);
    }
  }

  lemma {:induction false} SumInsert<T(!new)>(x: T, t: seq<T>, key: T -> int, f: T -> int)
    ensures SumOf(Insert(x, t, key), f) == f(x) + SumOf(t, f)
  {
    if t != [] && key(x) > key(t[0]) {
      SumInsert(x, t[1..], key, f);
    }
  }

  /** Sorting does not change a sum. */
  lemma {:induction false} SumSort<T(!new)>(s: seq<T>, key: T -> int, f: T -> int)
    ensures SumOf(SortBy(s, key), f) == SumOf(s, f)
  {
    if s != [] {
      SumSort(s[1..], key, f);
      SumInsert(s[0], SortBy(s[1..], key), key, f);
    }
  }
}
