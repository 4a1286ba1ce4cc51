/** Sequence helpers shared by every screen: the `filter`, `includes`-based toggle,
    `slice(0, n)` and stable `sort` idioms of the source, each defined once. */
module Seqs {

  datatype Option<+T> = None | Some(value: T) {
    /** `x || fallback` on an optional field */
    function GetOr(fallback: T): T {
      match this
      case Some(v) => v
      case None => fallback
    }
  }

  /** `s.filter(p)` */
  function Filter<T>(s: seq<T>, p: T -> bool): (r: seq<T>)
    ensures |r| <= |s|
    ensures forall x :: x in r ==> x in s && p(x)
    ensures forall x :: x in s && p(x) ==> x in r
  {
    if s == [] then [] else (if p(s[0]) then [s[0]] else []) + Filter(s[1..], p)
  }

  /** A filter keeps every copy of what it keeps and none of what it drops. */
  lemma {:induction false} FilterCount<T>(s: seq<T>, p: T -> bool)
    ensures forall x :: x in s ==> multiset(Filter(s, p))[x] == if p(x) then multiset(s)[x] else 0
  {
    if s != [] {
      FilterCount(s[1..], p);
      assert s == [s[0]] + s[1..];
      assert Filter(s, p) == (if p(s[0]) then [s[0]] else []) + Filter(s[1..], p);
    }
  }

  /** `a` is `b` with some elements dropped, the rest kept in order. */
  predicate IsSubseq<T(==)>(a: seq<T>, b: seq<T>)
    decreases |b|
  {
    if a == [] then true
    else if b == [] then false
    else (a[0] == b[0] && IsSubseq(a[1..], b[1..])) || IsSubseq(a, b[1..])
  }

  lemma {:induction false} FilterIsSubseq<T>(s: seq<T>, p: T -> bool)
    ensures IsSubseq(Filter(s, p), s)
  {
    if s != [] {
      FilterIsSubseq(s[1..], p);
      if p(s[0]) {
        assert Filter(s, p) == [s[0]] + Filter(s[1..], p);
      } else {
        assert Filter(s, p) == Filter(s[1..], p);
        SubseqOfTail(Filter(s[1..], p), s);
      }
    }
  }

  lemma {:induction false} SubseqOfTail<T>(a: seq<T>, b: seq<T>)
    requires b != [] && IsSubseq(a, b[1..])
    ensures IsSubseq(a, b)
  {
  }

  /** A filter whose predicate holds everywhere keeps the whole list in order. */
  lemma {:induction false} FilterAll<T>(s: seq<T>, p: T -> bool)
    requires forall x :: x in s ==> p(x)
    ensures Filter(s, p) == s
  {
    if s != [] {
      FilterAll(s[1..], p);
    }
  }

  /** A filter whose predicate holds nowhere keeps nothing. */
  lemma {:induction false} FilterNone<T>(s: seq<T>, p: T -> bool)
    requires forall x :: x in s ==> !p(x)
    ensures Filter(s, p) == []
  {
    if s != [] {
      FilterNone(s[1..], p);
    }
  }

  /** Filters by pointwise-equal predicates agree. */
  lemma {:induction false} FilterExt<T>(s: seq<T>, p: T -> bool, q: T -> bool)
    requires forall x :: p(x) == q(x)
    ensures Filter(s, p) == Filter(s, q)
  {
    if s != [] {
      FilterExt(s[1..], p, q);
    }
  }

  /** Filtering twice is filtering once by the conjunction. */
  lemma {:induction false} FilterFilter<T>(s: seq<T>, p: T -> bool, q: T -> bool, r: T -> bool)
    requires forall x :: r(x) == (p(x) && q(x))
    ensures Filter(Filter(s, p), q) == Filter(s, r)
  {
    if s != [] {
      FilterFilter(s[1..], p, q, r);
      var t := Filter(s[1..], p);
      assert Filter(s, r) == (if r(s[0]) then [s[0]] else []) + Filter(s[1..], r);
      if p(s[0]) {
        assert Filter(s, p) == [s[0]] + t;
        FilterAppend([s[0]], t, q);
        assert [s[0]][1..] == [];
        assert Filter([s[0]], q) == (if q(s[0]) then [s[0]] else []) + Filter([s[0]][1..], q);
      } else {
        assert Filter(s, p) == t;
      }
    }
  }

  lemma {:induction false} FilterAppend<T>(a: seq<T>, b: seq<T>, p: T -> bool)
    ensures Filter(a + b, p) == Filter(a, p) + Filter(b, p)
  {
    if a == [] {
      assert a + b == b;
    } else {
      var ab := a + b;
      assert ab[0] == a[0] && ab[1..] == a[1..] + b;
      FilterAppend(a[1..], b, p);
      var h := if p(a[0]) then [a[0]] else [];
      assert Filter(ab, p) == h + Filter(ab[1..], p);
      assert Filter(a, p) == h + Filter(a[1..], p);
      AppendAssoc(h, Filter(a[1..], p), Filter(b, p));
    }
  }

  lemma AppendAssoc<T>(x: seq<T>, y: seq<T>, z: seq<T>)
    ensures x + (y + z) == (x + y) + z
  {
  }

  /** `s.filter(x => x !== v)` */
  function RemoveAll<T(==)>(s: seq<T>, v: T): (r: seq<T>)
    ensures v !in r
    ensures forall x :: x in r ==> x in s && x != v
    ensures forall x :: x in s && x != v ==> x in r
    ensures forall x :: x in s ==> multiset(r)[x] == if x != v then multiset(s)[x] else 0
    ensures IsSubseq(r, s)
  {
    FilterIsSubseq(s, x => x != v);
    FilterCount(s, x => x != v);
    Filter(s, x => x != v)
  }

  lemma {:induction false} RemoveAllAbsent<T>(s: seq<T>, v: T)
    requires v !in s
    ensures RemoveAll(s, v) == s
  {
    FilterAll(s, x => x != v);
  }

  /** `s.includes(v) ? s.filter(x => x !== v) : [...s, v]`, used by every tag and
      selection toggle of the application. */
  function Toggle<T(==)>(s: seq<T>, v: T): (r: seq<T>)
    ensures v !in s ==> r == s + [v]
    ensures v in s ==> r == RemoveAll(s, v)
  {
    if v in s then RemoveAll(s, v) else s + [v]
  }

  /** Toggling an absent value twice restores the list. */
  lemma ToggleTwiceAbsent<T>(s: seq<T>, v: T)
    requires v !in s
    ensures Toggle(Toggle(s, v), v) == s
  {
    assert Toggle(s, v) == s + [v];
    FilterAppend(s, [v], x => x != v);
    RemoveAllAbsent(s, v);
  }

  /** `s.slice(0, n)` */
  function Take<T>(s: seq<T>, n: nat): (r: seq<T>)
    ensures |r| == if n < |s| then n else |s|
    ensures IsSubseq(r, s)
    ensures forall i :: 0 <= i < |r| ==> r[i] == s[i]
  {
    PrefixIsSubseq(s, if n < |s| then n else |s|);
    assert s[..|s|] == s;
    if n < |s| then s[..n] else s
  }

  lemma {:induction false} PrefixIsSubseq<T>(s: seq<T>, n: nat)
    requires n <= |s|
    ensures IsSubseq(s[..n], s)
    decreases n
  {
    if n > 0 {
      PrefixIsSubseq(s[1..], n - 1);
      assert s[..n][1..] == s[1..][..n - 1];
    }
  }

  /** `s.findIndex(p)` as a specification: the first match, or -1. */
  function FirstIndex<T>(s: seq<T>, p: T -> bool): (i: int)
    ensures -1 <= i < |s|
    ensures i >= 0 ==> p(s[i]) && forall j :: 0 <= j < i ==> !p(s[j])
    ensures i == -1 ==> forall j :: 0 <= j < |s| ==> !p(s[j])
  {
    if s == [] then -1
    else if p(s[0]) then 0
    else
      var k := FirstIndex(s[1..], p);
      if k == -1 then -1 else k + 1
  }

  /** A prefix takes its elements from the sequence, copies counted. */
  lemma TakeMultiset<T>(s: seq<T>, n: nat)
    ensures multiset(Take(s, n)) <= multiset(s)
  {
    var m := if n < |s| then n else |s|;
    assert s == s[..m] + s[m..];
  }

  /** A prefix of a sorted sequence holds the smallest keys: whatever is left out
      has a key no smaller than anything taken. */
  lemma TakeSmallest<T>(s: seq<T>, key: T -> int, n: nat)
    requires SortedBy(s, key)
    ensures forall x, y :: x in s && x !in Take(s, n) && y in Take(s, n) ==> key(y) <= key(x)
  {
    var r := Take(s, n);
    forall x, y | x in s && x !in r && y in r
      ensures key(y) <= key(x)
    {
      var k :| 0 <= k < |s| && s[k] == x;
      var i :| 0 <= i < |r| && r[i] == y;
      assert k >= |r|;
      assert s[i] == y;
    }
  }

  /** Putting back the two elements of a swap restores the sequence. */
  lemma SwapBack<T>(a: seq<T>, i: nat, j: nat)
    requires i < |a| && j < |a|
    ensures a[i := a[j]][j := a[i]][i := a[i]][j := a[j]] == a
  {
  }

  /** The first match is the index whose predecessors all fail. */
  lemma FirstIndexIs<T>(s: seq<T>, p: T -> bool, i: nat)
    requires i < |s| && p(s[i])
    requires forall j :: 0 <= j < i ==> !p(s[j])
    ensures FirstIndex(s, p) == i
  {
  }

  /** `s.findIndex(p)` */
  method FindIndex<T>(s: seq<T>, p: T -> bool) returns (i: int)
    ensures i == FirstIndex(s, p)
  {
    i := 0;
    while i < |s|
      invariant 0 <= i <= |s|
      invariant forall j :: 0 <= j < i ==> !p(s[j])
    {
      if p(s[i]) {
        return;
      }
      i := i + 1;
    }
    i := -1;
  }

  // ---------------------------------------------------------------------------
  // The stable sort behind every `Array.prototype.sort` call with a numeric
  // comparator `(a, b) => key(a) - key(b)`.  A descending sort uses a negated key.

  predicate SortedBy<T>(s: seq<T>, key: T -> int) {
    forall i, j :: 0 <= i < j < |s| ==> key(s[i]) <= key(s[j])
  }

  /** The elements of `s` whose key is `k`, in order. */
  function WithKey<T>(s: seq<T>, key: T -> int, k: int): seq<T> {
    if s == [] then [] else (if key(s[0]) == k then [s[0]] else []) + WithKey(s[1..], key, k)
  }

  /** Inserts `x` before the first element whose key is not smaller. */
  function Insert<T>(x: T, s: seq<T>, key: T -> int): seq<T> {
    if s == [] || key(x) <= key(s[0]) then [x] + s else [s[0]] + Insert(x, s[1..], key)
  }

  function StableSort<T>(s: seq<T>, key: T -> int): (r: seq<T>)
    ensures |r| == |s|
    ensures multiset(r) == multiset(s)
    ensures SortedBy(r, key)
  {
    if s == [] then []
    else
      var t := StableSort(s[1..], key);
      InsertMultiset(s[0], t, key);
      InsertSorted(s[0], t, key);
      assert s == [s[0]] + s[1..];
      Insert(s[0], t, key)
  }

  lemma {:induction false} InsertMultiset<T>(x: T, s: seq<T>, key: T -> int)
    ensures multiset(Insert(x, s, key)) == multiset([x] + s)
    ensures |Insert(x, s, key)| == |s| + 1
  {
    if s != [] && key(x) > key(s[0]) {
      InsertMultiset(x, s[1..], key);
      assert s == [s[0]] + s[1..];
    }
  }

  lemma {:induction false} InsertSorted<T>(x: T, s: seq<T>, key: T -> int)
    requires SortedBy(s, key)
    ensures SortedBy(Insert(x, s, key), key)
  {
    if s == [] || key(x) <= key(s[0]) {
      forall j | 0 <= j < |s| ensures key(x) <= key(s[j]) {
        if j > 0 {
          assert key(s[0]) <= key(s[j]);
        }
      }
      SortedCons(x, s, key);
    } else {
      var t := Insert(x, s[1..], key);
      InsertSorted(x, s[1..], key);
      InsertMultiset(x, s[1..], key);
      forall j | 0 <= j < |t| ensures key(s[0]) <= key(t[j]) {
        assert t[j] in multiset([x] + s[1..]);
        if t[j] != x {
          assert t[j] in s[1..];
          var m :| 0 <= m < |s[1..]| && s[1..][m] == t[j];
          assert s[m + 1] == t[j];
        }
      }
      SortedCons(s[0], t, key);
    }
  }

  /** A sorted list stays sorted under a new head no larger than any element. */
  lemma SortedCons<T>(h: T, t: seq<T>, key: T -> int)
    requires SortedBy(t, key)
    requires forall j :: 0 <= j < |t| ==> key(h) <= key(t[j])
    ensures SortedBy([h] + t, key)
  {
    var r := [h] + t;
    forall i, j | 0 <= i < j < |r| ensures key(r[i]) <= key(r[j]) {
      assert r[j] == t[j - 1];
      if i > 0 {
        assert r[i] == t[i - 1];
      }
    }
  }

  lemma {:induction false} InsertWithKey<T>(x: T, s: seq<T>, key: T -> int, k: int)
    ensures WithKey(Insert(x, s, key), key, k) == (if key(x) == k then [x] else []) + WithKey(s, key, k)
  {
    if s == [] || key(x) <= key(s[0]) {
      assert ([x] + s)[1..] == s;
    } else {
      InsertWithKey(x, s[1..], key, k);
      var t := Insert(x, s[1..], key);
      assert ([s[0]] + t)[1..] == t;
    }
  }

  /** Stability: for every key value, the elements carrying it appear in the sorted
      list in the same relative order as in the input. */
  lemma {:induction false} StableSortIsStable<T>(s: seq<T>, key: T -> int, k: int)
    ensures WithKey(StableSort(s, key), key, k) == WithKey(s, key, k)
  {
    if s != [] {
      var t := StableSort(s[1..], key);
      StableSortIsStable(s[1..], key, k);
      InsertWithKey(s[0], t, key, k);
    }
  }

  /** For every key value, the elements carrying it appear in the same relative
      order in both lists. */
  ghost predicate SameKeyOrder<T>(r: seq<T>, s: seq<T>, key: T -> int) {
    forall k :: WithKey(r, key, k) == WithKey(s, key, k)
  }

  lemma SortKeepsKeyOrder<T>(s: seq<T>, r: seq<T>, key: T -> int)
    requires r == StableSort(s, key)
    ensures SameKeyOrder(r, s, key)
  {
    forall k ensures WithKey(r, key, k) == WithKey(s, key, k) {
      StableSortIsStable(s, key, k);
    }
  }

  /** A list already in key order comes back from the sort unchanged. */
  lemma {:induction false} StableSortSorted<T>(s: seq<T>, key: T -> int)
    requires SortedBy(s, key)
    ensures StableSort(s, key) == s
  {
    if s != [] {
      assert SortedBy(s[1..], key) by {
        forall i, j | 0 <= i < j < |s[1..]| ensures key(s[1..][i]) <= key(s[1..][j]) {
          assert s[1..][i] == s[i + 1] && s[1..][j] == s[j + 1];
        }
      }
      StableSortSorted(s[1..], key);
      assert s == [s[0]] + s[1..];
    }
  }
}
