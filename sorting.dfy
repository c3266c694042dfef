/**
 * Python's `xs.sort(key=k, reverse=True)` (and `sorted(..., reverse=True)`):
 * a stable sort by non-increasing key, where elements with equal keys keep
 * their original relative order. Written as an insertion sort on values.
 */
module Sorting {

  predicate SortedDesc<T>(s: seq<T>, key: T -> real) {
    forall i, j :: 0 <= i < j < |s| ==> key(s[i]) >= key(s[j])
  }

  function Filter<T>(s: seq<T>, p: T -> bool): (r: seq<T>)
    ensures |r| <= |s|
    ensures forall x :: x in r ==> x in s && p(x)
  {
    if s == [] then [] else (if p(s[0]) then [s[0]] else []) + Filter(s[1..], p)
  }

  lemma {:induction false} FilterKeepsAll<T>(s: seq<T>, p: T -> bool)
    ensures (forall x :: x in s ==> p(x)) ==> Filter(s, p) == s
    ensures (forall x :: x in s ==> !p(x)) <==> Filter(s, p) == []
  {
    if s != [] {
      FilterKeepsAll(s[1..], p);
      assert s[0] in s;
      assert forall x :: x in s[1..] ==> x in s;
    }
  }

  lemma {:induction false} FilterAppend<T>(s: seq<T>, x: T, p: T -> bool)
    ensures Filter(s + [x], p) == Filter(s, p) + (if p(x) then [x] else [])
  {
    if s == [] {
      assert [] + [x] == [x];
    } else {
      assert (s + [x])[1..] == s[1..] + [x];
      FilterAppend(s[1..], x, p);
    }
  }

  /** lst[:n] */
  function Take<T>(s: seq<T>, n: nat): (r: seq<T>)
    ensures |r| == if |s| <= n then |s| else n
    ensures r == s[..|r|]
  {
    if |s| <= n then s else s[..n]
  }

  /** Inserts x in front of the first element whose key does not exceed x's. */
  function Insert<T>(x: T, s: seq<T>, key: T -> real): (r: seq<T>)
    ensures |r| == |s| + 1
    ensures multiset(r) == multiset(s) + multiset{x}
  {
    if s == [] || key(x) >= key(s[0]) then [x] + s
    else
      assert s == [s[0]] + s[1..];
      [s[0]] + Insert(x, s[1..], key)
  }

  function SortDesc<T>(s: seq<T>, key: T -> real): (r: seq<T>)
    ensures |r| == |s|
    ensures multiset(r) == multiset(s)
  {
    if s == [] then []
    else
      assert s == [s[0]] + s[1..];
      Insert(s[0], SortDesc(s[1..], key), key)
  }

  lemma {:induction false} InsertSorted<T>(x: T, s: seq<T>, key: T -> real)
    requires SortedDesc(s, key)
    ensures SortedDesc(Insert(x, s, key), key)
    ensures Insert(x, s, key)[0] == x || (s != [] && Insert(x, s, key)[0] == s[0])
  {
    if s != [] && key(x) < key(s[0]) {
      InsertSorted(x, s[1..], key);
      var t := Insert(x, s[1..], key);
      forall k | 0 <= k < |t| ensures key(s[0]) >= key(t[k]) {
        assert t[k] in multiset(s[1..]) + multiset{x};
        if t[k] != x {
          var m :| 0 <= m < |s[1..]| && s[1..][m] == t[k];
          assert s[m + 1] == t[k];
        }
      }
      assert Insert(x, s, key) == [s[0]] + t;
    }
  }

  /** The result is ordered by non-increasing key. */
  lemma {:induction false} SortDescSorted<T>(s: seq<T>, key: T -> real)
    ensures SortedDesc(SortDesc(s, key), key)
  {
    if s != [] {
      SortDescSorted(s[1..], key);
      InsertSorted(s[0], SortDesc(s[1..], key), key);
    }
  }

  /** Sorting a list already in non-increasing key order returns it unchanged. */
  lemma {:induction false} SortDescOfSorted<T>(s: seq<T>, key: T -> real)
    requires SortedDesc(s, key)
    ensures SortDesc(s, key) == s
  {
    if s != [] {
      assert SortedDesc(s[1..], key);
      SortDescOfSorted(s[1..], key);
      assert s == [s[0]] + s[1..];
    }
  }

  lemma {:induction false} FilterInsertSkip<T>(x: T, s: seq<T>, key: T -> real, p: T -> bool)
    requires !p(x)
    ensures Filter(Insert(x, s, key), p) == Filter(s, p)
  {
    if s != [] && key(x) < key(s[0]) {
      FilterInsertSkip(x, s[1..], key, p);
      assert ([s[0]] + Insert(x, s[1..], key))[1..] == Insert(x, s[1..], key);
    } else {
      assert ([x] + s)[1..] == s;
    }
  }

  lemma HeadDominates<T>(s: seq<T>, key: T -> real, y: T)
    requires SortedDesc(s, key) && y in s
    ensures key(s[0]) >= key(y)
  {
    var k :| 0 <= k < |s| && s[k] == y;
  }

  lemma {:induction false} FilterInsertKeep<T>(x: T, s: seq<T>, key: T -> real, p: T -> bool)
    requires p(x) && SortedDesc(s, key)
    ensures Filter(Insert(x, s, key), p) == Insert(x, Filter(s, p), key)
  {
    if s == [] {
    } else if key(x) >= key(s[0]) {
      FilterInsertFront(x, s, key, p);
    } else {
      var t := Insert(x, s[1..], key);
      assert SortedDesc(s[1..], key);
      FilterInsertKeep(x, s[1..], key, p);
      assert Insert(x, s, key) == [s[0]] + t;
      assert ([s[0]] + t)[1..] == t;
      assert Filter([s[0]] + t, p) == (if p(s[0]) then [s[0]] else []) + Filter(t, p);
      var f1 := Filter(s[1..], p);
      if p(s[0]) {
        assert Filter(s, p) == [s[0]] + f1;
        assert ([s[0]] + f1)[1..] == f1;
        assert Insert(x, [s[0]] + f1, key) == [s[0]] + Insert(x, f1, key);
      } else {
        assert Filter(s, p) == f1;
      }
    }
  }

  lemma FilterInsertFront<T>(x: T, s: seq<T>, key: T -> real, p: T -> bool)
    requires p(x) && SortedDesc(s, key) && s != [] && key(x) >= key(s[0])
    ensures Filter(Insert(x, s, key), p) == Insert(x, Filter(s, p), key)
  {
    var fs := Filter(s, p);
    assert Insert(x, s, key) == [x] + s;
    assert ([x] + s)[1..] == s;
    assert Filter([x] + s, p) == [x] + fs;
    if fs != [] {
      HeadDominates(s, key, fs[0]);
    }
  }

  /**
   * Filtering a sorted list gives the same list as sorting the filtered one:
   * a stable sort orders by key, and by original position among equal keys.
   */
  lemma {:induction false} FilterSortCommute<T>(s: seq<T>, key: T -> real, p: T -> bool)
    ensures Filter(SortDesc(s, key), p) == SortDesc(Filter(s, p), key)
  {
    if s != [] {
      FilterSortCommute(s[1..], key, p);
      var t := SortDesc(s[1..], key);
      if p(s[0]) {
        SortDescSorted(s[1..], key);
        FilterInsertKeep(s[0], t, key, p);
        assert Filter(s, p) == [s[0]] + Filter(s[1..], p);
        assert ([s[0]] + Filter(s[1..], p))[1..] == Filter(s[1..], p);
      } else {
        FilterInsertSkip(s[0], t, key, p);
        assert Filter(s, p) == Filter(s[1..], p);
      }
    }
  }

  /**
   * Stability: the elements of any one key come out of the sort in the
   * order they had in the input.
   */
  lemma SortDescStable<T>(s: seq<T>, key: T -> real, k: real)
    ensures Filter(SortDesc(s, key), x => key(x) == k) == Filter(s, x => key(x) == k)
  {
    var p := (x: T) => key(x) == k;
    FilterSortCommute(s, key, p);
    var f := Filter(s, p);
    assert SortedDesc(f, key) by {
      forall i, j | 0 <= i < j < |f| ensures key(f[i]) >= key(f[j]) {
        assert f[i] in f && f[j] in f;
      }
    }
    SortDescOfSorted(f, key);
  }

  /**
   * The first k elements of a sorted permutation of s dominate everything
   * left out: no element after the cut has a larger key than one before it.
   */
  lemma TopDominates<T>(s: seq<T>, key: T -> real, k: nat)
    ensures var r := SortDesc(s, key);
      forall i, j :: 0 <= i < k && i < |r| && k <= j < |r| ==> key(r[i]) >= key(r[j])
  {
    SortDescSorted(s, key);
  }

  /**
   * lst.sort(key=key, reverse=True); lst[:k]: the kept elements are elements
   * of s, best first, and none of s's elements left out scores above a kept one.
   */
  lemma TakeDominates<T>(s: seq<T>, key: T -> real, k: nat)
    ensures var best := Take(SortDesc(s, key), k);
      && (forall i, j :: 0 <= i < j < |best| ==> key(best[i]) >= key(best[j]))
      && (forall b :: b in best ==> b in s)
      && (forall x, b :: x in s && x !in best && b in best ==> key(b) >= key(x))
  {
    var sorted := SortDesc(s, key);
    var best := Take(sorted, k);
    SortDescSorted(s, key);
    forall b | b in best ensures b in s {
      assert b in multiset(sorted);
    }
    forall x, b | x in s && x !in best && b in best ensures key(b) >= key(x) {
      assert x in multiset(sorted);
      var j :| 0 <= j < |sorted| && sorted[j] == x;
      var i :| 0 <= i < |best| && best[i] == b;
      assert j >= |best|;
    }
  }

  /** Unfolding steps of Insert and SortDesc on a known head. */
  lemma InsertHead<T>(x: T, s: seq<T>, key: T -> real)
    requires s == [] || key(x) >= key(s[0])
    ensures Insert(x, s, key) == [x] + s
  {
  }

  lemma InsertPast<T>(x: T, y: T, s: seq<T>, key: T -> real)
    requires key(x) < key(y)
    ensures Insert(x, [y] + s, key) == [y] + Insert(x, s, key)
  {
    assert ([y] + s)[1..] == s;
  }

  lemma SortDescCons<T>(x: T, s: seq<T>, key: T -> real)
    ensures SortDesc([x] + s, key) == Insert(x, SortDesc(s, key), key)
  {
    assert ([x] + s)[1..] == s;
  }
}
