/**
 * The array primitives the application leans on, as functions over sequences:
 * `filter`, `find`, `reduce` with `+`, and the stable `sort` of ECMAScript 2019,
 * with the facts about them that the rest of the model uses.
 */
module Seqs {
  import opened Wrappers

  /** `s.filter(p)`: the elements satisfying `p`, in their original order. */
  function Filter<T(!new)>(s: seq<T>, p: T -> bool): (r: seq<T>)
    ensures |r| <= |s|
    ensures forall x :: x in r <==> x in s && p(x)
  {
    if s == [] then [] else (if p(s[0]) then [s[0]] else []) + Filter(s[1..], p)
  }

  lemma {:induction false} FilterConcat<T(!new)>(a: seq<T>, b: seq<T>, p: T -> bool)
    ensures Filter(a + b, p) == Filter(a, p) + Filter(b, p)
  {
    if a == [] {
      assert a + b == b;
    } else {
      assert (a + b)[1..] == a[1..] + b;
      FilterConcat(a[1..], b, p);
    }
  }

  /** Filtering twice is filtering once by the conjunction. */
  lemma {:induction false} FilterFilter<T(!new)>(s: seq<T>, p: T -> bool, q: T -> bool, both: T -> bool)
    requires forall x :: both(x) == (p(x) && q(x))
    ensures Filter(Filter(s, p), q) == Filter(s, both)
  {
    if s != [] {
      FilterFilter(s[1..], p, q, both);
      var head := if p(s[0]) then [s[0]] else [];
      assert Filter(s, p) == head + Filter(s[1..], p);
      FilterConcat(head, Filter(s[1..], p), q);
    }
  }

  /** Filtering with a predicate that every element satisfies changes nothing. */
  lemma {:induction false} FilterAll<T(!new)>(s: seq<T>, p: T -> bool)
    requires forall x :: x in s ==> p(x)
    ensures Filter(s, p) == s
  {
    if s != [] {
      FilterAll(s[1..], p);
    }
  }

  /** Filtering with a predicate that no element satisfies leaves nothing. */
  lemma {:induction false} FilterNone<T(!new)>(s: seq<T>, p: T -> bool)
    requires forall x :: x in s ==> !p(x)
    ensures Filter(s, p) == []
  {
    if s != [] {
      assert s[0] in s;
      assert forall x :: x in s[1..] ==> x in s;
      FilterNone(s[1..], p);
    }
  }

  /** `s.find(p)`: the first element satisfying `p`, if any. */
  function FirstWhere<T(!new)>(s: seq<T>, p: T -> bool): (r: Option<T>)
    ensures r.Some? ==> r.value in s && p(r.value)
    ensures r.None? <==> forall x :: x in s ==> !p(x)
  {
    if s == [] then None else if p(s[0]) then Some(s[0]) else FirstWhere(s[1..], p)
  }

  /** A prefix grows by the next element. */
  lemma PrefixStep<T>(s: seq<T>, i: nat)
    requires i < |s|
    ensures s[..i] + [s[i]] == s[..i + 1]
  {
  }

  /** One more element of `s` that fails `p`. */
  lemma NoneBeforeStep<T>(s: seq<T>, p: T -> bool, i: nat)
    requires i < |s|
    requires forall k :: 0 <= k < i ==> !p(s[k])
    requires !p(s[i])
    ensures forall k :: 0 <= k < i + 1 ==> !p(s[k])
  {
  }

  /** The index of the element `FirstWhere` finds. */
  function FirstIndex<T(!new)>(s: seq<T>, p: T -> bool): (i: nat)
    requires FirstWhere(s, p).Some?
    ensures i < |s| && s[i] == FirstWhere(s, p).value
    ensures forall k :: 0 <= k < i ==> !p(s[k])
  {
    if p(s[0]) then 0 else FirstIndex(s[1..], p) + 1
  }

  /** The element at `i` is found when it satisfies `p` and nothing before it does. */
  lemma {:induction false} FirstWhereAt<T(!new)>(s: seq<T>, p: T -> bool, i: nat)
    requires i < |s| && p(s[i])
    requires forall j :: 0 <= j < i ==> !p(s[j])
    ensures FirstWhere(s, p) == Some(s[i])
  {
    if i > 0 {
      FirstWhereAt(s[1..], p, i - 1);
    }
  }

  /** Finding by `q` among the elements that pass `p` is finding by `p && q` in the whole. */
  lemma {:induction false} FirstWhereFilter<T(!new)>(s: seq<T>, p: T -> bool, q: T -> bool, both: T -> bool)
    requires forall x :: both(x) == (p(x) && q(x))
    ensures FirstWhere(Filter(s, p), q) == FirstWhere(s, both)
  {
    if s != [] {
      FirstWhereFilter(s[1..], p, q, both);
      var fp := Filter(s, p);
      if p(s[0]) {
        assert fp == [s[0]] + Filter(s[1..], p);
        assert fp[0] == s[0] && fp[1..] == Filter(s[1..], p);
      } else {
        assert fp == Filter(s[1..], p);
      }
    }
  }

  /** An element found by `q` that also passes `p` is still the one found after filtering by `p`. */
  lemma {:induction false} FirstWhereSurvivesFilter<T(!new)>(s: seq<T>, p: T -> bool, q: T -> bool)
    requires FirstWhere(s, q).Some? && p(FirstWhere(s, q).value)
    ensures FirstWhere(Filter(s, p), q) == FirstWhere(s, q)
  {
    var fp := Filter(s, p);
    if q(s[0]) {
      assert fp == [s[0]] + Filter(s[1..], p);
    } else {
      FirstWhereSurvivesFilter(s[1..], p, q);
      if p(s[0]) {
        assert fp == [s[0]] + Filter(s[1..], p);
        assert fp[1..] == Filter(s[1..], p);
      } else {
        assert fp == Filter(s[1..], p);
      }
    }
  }

  /** `s.map(x => p(x) ? f(x) : x)`: rewrite the elements picked by `p`, keep the rest in place. */
  function MapWhere<T>(s: seq<T>, p: T -> bool, f: T -> T): (r: seq<T>)
    ensures |r| == |s|
    ensures forall i :: 0 <= i < |s| ==> r[i] == if p(s[i]) then f(s[i]) else s[i]
  {
    if s == [] then [] else [if p(s[0]) then f(s[0]) else s[0]] + MapWhere(s[1..], p, f)
  }

  /** `s.map(x => p(x) ? y : x)`: replace the elements picked by `p` with `y`. */
  function ReplaceWhere<T>(s: seq<T>, p: T -> bool, y: T): (r: seq<T>)
    ensures |r| == |s|
    ensures forall i :: 0 <= i < |s| ==> r[i] == if p(s[i]) then y else s[i]
  {
    MapWhere(s, p, (_: T) => y)
  }

  /**
   * Rewriting the picked elements and then dropping them is dropping them,
   * when the rewrite keeps them picked.
   */
  lemma {:induction false} FilterMapWhere<T(!new)>(s: seq<T>, p: T -> bool, notP: T -> bool, f: T -> T)
    requires forall x :: notP(x) == !p(x)
    requires forall x :: p(x) ==> p(f(x))
    ensures Filter(MapWhere(s, p, f), notP) == Filter(s, notP)
  {
    if s != [] {
      FilterMapWhere(s[1..], p, notP, f);
      assert MapWhere(s, p, f)[1..] == MapWhere(s[1..], p, f);
    }
  }

  /** `s.reduce((acc, x) => acc + f(x), 0)`. */
  function Sum<T(!new)>(s: seq<T>, f: T -> real): real
  {
    if s == [] then 0.0 else f(s[0]) + Sum(s[1..], f)
  }

  lemma {:induction false} SumConcat<T(!new)>(a: seq<T>, b: seq<T>, f: T -> real)
    ensures Sum(a + b, f) == Sum(a, f) + Sum(b, f)
  {
    if a == [] {
      assert a + b == b;
    } else {
      assert (a + b)[1..] == a[1..] + b;
      SumConcat(a[1..], b, f);
    }
  }

  /** One more step of a left-to-right accumulation. */
  lemma SumStep<T(!new)>(s: seq<T>, i: nat, f: T -> real)
    requires i < |s|
    ensures Sum(s[..i + 1], f) == Sum(s[..i], f) + f(s[i])
  {
    assert s[..i + 1] == s[..i] + [s[i]];
    SumConcat(s[..i], [s[i]], f);
  }

  /** Extending a prefix by one element adds that element to a filtered sum when it passes. */
  lemma FilterSumStep<T(!new)>(s: seq<T>, i: nat, p: T -> bool, f: T -> real)
    requires i < |s|
    ensures Sum(Filter(s[..i + 1], p), f) == Sum(Filter(s[..i], p), f) + (if p(s[i]) then f(s[i]) else 0.0)
  {
    assert s[..i + 1] == s[..i] + [s[i]];
    FilterConcat(s[..i], [s[i]], p);
    assert Filter([s[i]], p) == if p(s[i]) then [s[i]] else [];
    SumConcat(Filter(s[..i], p), Filter([s[i]], p), f);
  }

  /** A sum splits into the part that passes `p` and the part that does not. */
  lemma {:induction false} SumPartition<T(!new)>(s: seq<T>, f: T -> real, p: T -> bool, notP: T -> bool)
    requires forall x :: notP(x) == !p(x)
    ensures Sum(s, f) == Sum(Filter(s, p), f) + Sum(Filter(s, notP), f)
  {
    if s != [] {
      SumPartition(s[1..], f, p, notP);
      SumConcat(if p(s[0]) then [s[0]] else [], Filter(s[1..], p), f);
      SumConcat(if notP(s[0]) then [s[0]] else [], Filter(s[1..], notP), f);
    }
  }

  /** Elements that contribute nothing can be dropped from a sum. */
  lemma {:induction false} SumFilterZero<T(!new)>(s: seq<T>, f: T -> real, p: T -> bool)
    requires forall x :: x in s && !p(x) ==> f(x) == 0.0
    ensures Sum(Filter(s, p), f) == Sum(s, f)
  {
    if s != [] {
      SumFilterZero(s[1..], f, p);
      SumConcat(if p(s[0]) then [s[0]] else [], Filter(s[1..], p), f);
    }
  }

  /** Sums of functions that agree on the elements are equal. */
  lemma {:induction false} SumAgree<T(!new)>(s: seq<T>, f: T -> real, g: T -> real)
    requires forall x :: x in s ==> f(x) == g(x)
    ensures Sum(s, f) == Sum(s, g)
  {
    if s != [] {
      assert s[0] in s;
      assert forall x :: x in s[1..] ==> x in s;
      SumAgree(s[1..], f, g);
    }
  }

  /** Sums of two summands add up. */
  lemma {:induction false} SumAdd<T(!new)>(s: seq<T>, f: T -> real, g: T -> real, h: T -> real)
    requires forall x :: h(x) == f(x) + g(x)
    ensures Sum(s, h) == Sum(s, f) + Sum(s, g)
  {
    if s != [] {
      SumAdd(s[1..], f, g, h);
    }
  }

  ghost predicate SortedBy<T(!new)>(s: seq<T>, key: T -> real)
  {
    forall i, j :: 0 <= i < j < |s| ==> key(s[i]) <= key(s[j])
  }

  /**
   * Places `x` in front of the first element whose key is not smaller:
   * after every element with a smaller key, before every other one.
   */
  function Insert<T(!new)>(x: T, t: seq<T>, key: T -> real): (r: seq<T>)
    ensures multiset(r) == multiset(t) + multiset{x}
  {
    if t == [] then [x]
    else if key(x) <= key(t[0]) then [x] + t
    else
      assert t == [t[0]] + t[1..];
      [t[0]] + Insert(x, t[1..], key)
  }

  /** A lower bound of `x` and of every element of `t` bounds every element of the insertion. */
  lemma {:induction false} InsertBounded<T(!new)>(x: T, t: seq<T>, key: T -> real, lo: real)
    requires lo <= key(x)
    requires forall i :: 0 <= i < |t| ==> lo <= key(t[i])
    ensures forall j :: 0 <= j < |Insert(x, t, key)| ==> lo <= key(Insert(x, t, key)[j])
  {
    if t != [] && key(x) > key(t[0]) {
      InsertBounded(x, t[1..], key, lo);
      assert Insert(x, t, key) == [t[0]] + Insert(x, t[1..], key);
    } else {
      assert Insert(x, t, key) == [x] + t;
    }
  }

  lemma {:induction false} InsertSorted<T(!new)>(x: T, t: seq<T>, key: T -> real)
    requires SortedBy(t, key)
    ensures SortedBy(Insert(x, t, key), key)
  {
    if t != [] && key(x) > key(t[0]) {
      var rest := Insert(x, t[1..], key);
      InsertSorted(x, t[1..], key);
      InsertBounded(x, t[1..], key, key(t[0]));
      assert Insert(x, t, key) == [t[0]] + rest;
      SortedCons(t[0], rest, key);
    }
  }

  /** A sorted sequence stays sorted under a head no larger than its elements. */
  lemma SortedCons<T(!new)>(y: T, rest: seq<T>, key: T -> real)
    requires SortedBy(rest, key)
    requires forall j :: 0 <= j < |rest| ==> key(y) <= key(rest[j])
    ensures SortedBy([y] + rest, key)
  {
    var r := [y] + rest;
    forall i, j | 0 <= i < j < |r| ensures key(r[i]) <= key(r[j]) {
      assert r[j] == rest[j - 1];
      if i > 0 {
        assert r[i] == rest[i - 1];
      }
    }
  }

  /**
   * `s.slice().sort((a, b) => key(a) - key(b))`: an ascending sort that keeps
   * elements with equal keys in their original order (insertion sort, processing
   * the list from its end so that an earlier element lands before later ties).
   */
  function SortBy<T(!new)>(s: seq<T>, key: T -> real): (r: seq<T>)
    ensures multiset(r) == multiset(s)
  {
    if s == [] then []
    else
      assert s == [s[0]] + s[1..];
      Insert(s[0], SortBy(s[1..], key), key)
  }

  lemma {:induction false} SortBySorted<T(!new)>(s: seq<T>, key: T -> real)
    ensures SortedBy(SortBy(s, key), key)
  {
    if s != [] {
      SortBySorted(s[1..], key);
      InsertSorted(s[0], SortBy(s[1..], key), key);
    }
  }

  /** In a sorted sequence, the first element satisfying `p` has the least key among those that do. */
  lemma FirstWhereSortedIsLeast<T(!new)>(s: seq<T>, p: T -> bool, key: T -> real, x: T)
    requires SortedBy(s, key)
    requires x in s && p(x)
    ensures FirstWhere(s, p).Some? && key(FirstWhere(s, p).value) <= key(x)
  {
    var j :| 0 <= j < |s| && s[j] == x;
    var i := FirstIndex(s, p);
    assert i <= j;
  }

  /** Filtering a sequence with a known first element. */
  lemma FilterCons<T(!new)>(y: T, s: seq<T>, p: T -> bool)
    ensures Filter([y] + s, p) == (if p(y) then [y] else []) + Filter(s, p)
  {
    assert ([y] + s)[0] == y && ([y] + s)[1..] == s;
  }

  /** Inserting `x` adds it to the front of its own key class and leaves other classes alone. */
  lemma {:induction false} InsertStable<T(!new)>(x: T, t: seq<T>, key: T -> real, p: T -> bool, k: real)
    requires forall y :: p(y) == (key(y) == k)
    ensures Filter(Insert(x, t, key), p) == (if p(x) then [x] else []) + Filter(t, p)
  {
    if t == [] || key(x) <= key(t[0]) {
      assert Insert(x, t, key) == [x] + t;
      FilterCons(x, t, p);
    } else {
      InsertStable(x, t[1..], key, p, k);
      assert Insert(x, t, key) == [t[0]] + Insert(x, t[1..], key);
      assert t == [t[0]] + t[1..];
      FilterPastOther(x, t[0], Insert(x, t[1..], key), t[1..], p);
    }
  }

  /** An element outside `x`'s class can be put in front of both sides. */
  lemma FilterPastOther<T(!new)>(x: T, y: T, rest: seq<T>, tail: seq<T>, p: T -> bool)
    requires p(x) ==> !p(y)
    requires Filter(rest, p) == (if p(x) then [x] else []) + Filter(tail, p)
    ensures Filter([y] + rest, p) == (if p(x) then [x] else []) + Filter([y] + tail, p)
  {
    FilterCons(y, rest, p);
    FilterCons(y, tail, p);
  }

  /** Stability: within one key class the sorted list keeps the input order. */
  lemma {:induction false} SortByStable<T(!new)>(s: seq<T>, key: T -> real, p: T -> bool, k: real)
    requires forall y :: p(y) == (key(y) == k)
    ensures Filter(SortBy(s, key), p) == Filter(s, p)
  {
    if s != [] {
      SortByStable(s[1..], key, p, k);
      InsertStable(s[0], SortBy(s[1..], key), key, p, k);
    }
  }
}
