/**
 * Python's stable sort by a key. `sorted(xs, key=k)` and `xs.sort(key=k)` are the stable ascending
 * sort `SortBy(xs, k)`; `xs.sort(key=k, reverse=True)` keeps equal elements in their original order
 * as well, so it is `SortBy(xs, x => -k(x))`.
 */
module Sorting {

  /** Inserts `x` in front of the first element whose key is not smaller than its own. */
  function Insert<T>(x: T, xs: seq<T>, key: T -> int): (r: seq<T>)
    ensures |r| == |xs| + 1
    ensures multiset(r) == multiset(xs) + multiset{x}
  {
    if xs == [] || key(x) <= key(xs[0]) then [x] + xs
    else
      assert xs == [xs[0]] + xs[1..];
      [xs[0]] + Insert(x, xs[1..], key)
  }

  /** Insertion sort: the head is inserted into the sorted tail, in front of its equals. */
  function SortBy<T>(xs: seq<T>, key: T -> int): (r: seq<T>)
    ensures |r| == |xs|
    ensures multiset(r) == multiset(xs)
  {
    if xs == [] then []
    else
      assert xs == [xs[0]] + xs[1..];
      Insert(xs[0], SortBy(xs[1..], key), key)
  }

  ghost predicate SortedBy<T>(xs: seq<T>, key: T -> int)
  {
    forall i, j :: 0 <= i < j < |xs| ==> key(xs[i]) <= key(xs[j])
  }

  /** The elements of `xs` whose key is `k`, in their order in `xs`. */
  function KeyFilter<T>(xs: seq<T>, key: T -> int, k: int): seq<T>
  {
    if xs == [] then []
    else (if key(xs[0]) == k then [xs[0]] else []) + KeyFilter(xs[1..], key, k)
  }

  lemma {:induction false} InsertSorted<T>(x: T, xs: seq<T>, key: T -> int)
    requires SortedBy(xs, key)
    ensures SortedBy(Insert(x, xs, key), key)
  {
    if xs != [] && key(x) > key(xs[0]) {
      var rest := Insert(x, xs[1..], key);
      InsertSorted(x, xs[1..], key);
      forall k | 0 <= k < |rest|
        ensures key(xs[0]) <= key(rest[k])
      {
        assert rest[k] in multiset(rest);
        if rest[k] != x {
          assert rest[k] in multiset(xs[1..]);
        }
      }
    }
  }

  /** The result of SortBy is ordered by the key. */
  lemma {:induction false} SortBySorted<T>(xs: seq<T>, key: T -> int)
    ensures SortedBy(SortBy(xs, key), key)
  {
    if xs != [] {
      SortBySorted(xs[1..], key);
      InsertSorted(xs[0], SortBy(xs[1..], key), key);
    }
  }

  lemma KeyFilterCons<T>(y: T, ys: seq<T>, key: T -> int, k: int)
    ensures KeyFilter([y] + ys, key, k) == (if key(y) == k then [y] else []) + KeyFilter(ys, key, k)
  {
    assert ([y] + ys)[1..] == ys;
  }

  /** Insert passes over elements with a smaller key only, so among equal keys `x` comes first. */
  lemma {:induction false} InsertKeyFilter<T>(x: T, xs: seq<T>, key: T -> int, k: int)
    ensures KeyFilter(Insert(x, xs, key), key, k)
         == (if key(x) == k then [x] else []) + KeyFilter(xs, key, k)
  {
    if xs == [] || key(x) <= key(xs[0]) {
      KeyFilterCons(x, xs, key, k);
    } else {
      var rest := Insert(x, xs[1..], key);
      var tail := KeyFilter(xs[1..], key, k);
      var fx := if key(x) == k then [x] else [];
      var f0 := if key(xs[0]) == k then [xs[0]] else [];
      assert Insert(x, xs, key) == [xs[0]] + rest;
      calc {
        KeyFilter(Insert(x, xs, key), key, k);
        KeyFilter([xs[0]] + rest, key, k);
        { KeyFilterCons(xs[0], rest, key, k); }
        f0 + KeyFilter(rest, key, k);
        { InsertKeyFilter(x, xs[1..], key, k); }
        f0 + (fx + tail);
        { assert fx == [] || f0 == []; }
        fx + (f0 + tail);
        { assert xs == [xs[0]] + xs[1..]; KeyFilterCons(xs[0], xs[1..], key, k); }
        fx + KeyFilter(xs, key, k);
      }
    }
  }

  /** Stability: elements with equal keys keep their relative order. */
  lemma {:induction false} SortByStable<T>(xs: seq<T>, key: T -> int, k: int)
    ensures KeyFilter(SortBy(xs, key), key, k) == KeyFilter(xs, key, k)
  {
    if xs != [] {
      SortByStable(xs[1..], key, k);
      InsertKeyFilter(xs[0], SortBy(xs[1..], key), key, k);
    }
  }

  /** The earliest position holding the smallest key. */
  function FirstMinIndex<T>(xs: seq<T>, key: T -> int): (m: nat)
    requires |xs| > 0
    ensures m < |xs|
    ensures forall j :: 0 <= j < |xs| ==> key(xs[m]) <= key(xs[j])
    ensures forall j :: 0 <= j < m ==> key(xs[m]) < key(xs[j])
  {
    if |xs| == 1 then 0
    else
      var m := 1 + FirstMinIndex(xs[1..], key);
      if key(xs[0]) <= key(xs[m]) then 0 else m
  }

  /** The first element after sorting is the earliest element with the smallest key. */
  lemma {:induction false} SortByHead<T>(xs: seq<T>, key: T -> int)
    requires |xs| > 0
    ensures SortBy(xs, key)[0] == xs[FirstMinIndex(xs, key)]
  {
    if |xs| > 1 {
      SortByHead(xs[1..], key);
    }
  }
}
