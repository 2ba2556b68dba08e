/**
 * Kotlin's `MutableList.sortBy(selector)`, which the calendar helper uses to
 * order its entries by start time. The library documents the sort as stable:
 * elements whose keys are equal keep their relative order. It is modelled here
 * as a pure insertion sort over an integer key, with its three promises proved:
 * the result is ordered by key, it is a permutation of the input, and each group
 * of equal keys appears in input order.
 */
module Sorting {

  /** Keys never decrease along `s`. */
  ghost predicate SortedBy<T>(s: seq<T>, key: T -> int)
  {
    forall i, j :: 0 <= i < j < |s| ==> key(s[i]) <= key(s[j])
  }

  /** Inserts `x` in front of the first element whose key is not smaller than its own. */
  function Insert<T>(x: T, s: seq<T>, key: T -> int): (r: seq<T>)
    ensures |r| == |s| + 1
    ensures multiset(r) == multiset(s) + multiset{x}
    ensures SortedBy(s, key) ==> SortedBy(r, key)
  {
    if s == [] || key(x) <= key(s[0]) then
      [x] + s
    else
      var tail := Insert(x, s[1..], key);
      assert s == [s[0]] + s[1..];
      InsertSortedTail(x, s, tail, key);
      [s[0]] + tail
  }

  /**
   * The recursive case of Insert: `s[0]` stays in front of a sorted tail made
   * of the rest of `s` and `x`, all of whose keys are at least its own.
   */
  lemma InsertSortedTail<T>(x: T, s: seq<T>, tail: seq<T>, key: T -> int)
    requires s != [] && key(s[0]) < key(x)
    requires multiset(tail) == multiset(s[1..]) + multiset{x}
    requires SortedBy(s[1..], key) ==> SortedBy(tail, key)
    ensures SortedBy(s, key) ==> SortedBy([s[0]] + tail, key)
  {
    if SortedBy(s, key) {
      forall i | 0 <= i < |tail|
        ensures key(s[0]) <= key(tail[i])
      {
        var y := tail[i];
        assert y in multiset(tail);
        if y != x {
          assert y in s[1..];
          var k :| 0 <= k < |s[1..]| && s[1..][k] == y;
          assert s[k + 1] == y;
        }
      }
    }
  }

  /** Stable sort of `s` by `key`, ascending. */
  function SortBy<T>(s: seq<T>, key: T -> int): (r: seq<T>)
    ensures |r| == |s|
    ensures multiset(r) == multiset(s)
    ensures SortedBy(r, key)
  {
    if s == [] then [] else
      assert s == [s[0]] + s[1..];
      Insert(s[0], SortBy(s[1..], key), key)
  }

  /** The elements of `s` whose key is `k`, in the order `s` has them. */
  function WithKey<T>(s: seq<T>, key: T -> int, k: int): seq<T>
  {
    if s == [] then []
    else (if key(s[0]) == k then [s[0]] else []) + WithKey(s[1..], key, k)
  }

  /** Inserting `x` puts it in front of every element that shares its key. */
  lemma {:induction false} InsertWithKey<T>(x: T, s: seq<T>, key: T -> int, k: int)
    ensures WithKey(Insert(x, s, key), key, k)
         == (if key(x) == k then [x] else []) + WithKey(s, key, k)
  {
    if s == [] || key(x) <= key(s[0]) {
      assert ([x] + s)[1..] == s;
    } else {
      var r := Insert(x, s, key);
      assert r[0] == s[0] && r[1..] == Insert(x, s[1..], key);
      InsertWithKey(x, s[1..], key, k);
    }
  }

  /** Stability: each group of equal keys comes out in the order it went in. */
  lemma {:induction false} SortByStable<T>(s: seq<T>, key: T -> int, k: int)
    ensures WithKey(SortBy(s, key), key, k) == WithKey(s, key, k)
  {
    if s != [] {
      SortByStable(s[1..], key, k);
      InsertWithKey(s[0], SortBy(s[1..], key), key, k);
    }
  }

  /**
   * The position of the first element of `s` with the smallest key: its key is
   * at most every key in `s`, and every element before it has a larger key.
   */
  function FirstMinIndex<T>(s: seq<T>, key: T -> int): (m: nat)
    requires s != []
    ensures m < |s|
    ensures forall j :: 0 <= j < |s| ==> key(s[m]) <= key(s[j])
    ensures forall j :: 0 <= j < m ==> key(s[m]) < key(s[j])
  {
    if |s| == 1 then 0 else
      var m := 1 + FirstMinIndex(s[1..], key);
      if key(s[0]) <= key(s[m]) then 0 else m
  }

  /** The head of the stable sort is the first element with the smallest key. */
  lemma {:induction false} SortByHead<T>(s: seq<T>, key: T -> int)
    requires s != []
    ensures SortBy(s, key)[0] == s[FirstMinIndex(s, key)]
  {
    if |s| > 1 {
      SortByHead(s[1..], key);
    }
  }
}
