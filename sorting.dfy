/**
 * `Array.prototype.sort` with a comparator `(a, b) => key(a) - key(b)`, as the
 * source uses it to order transactions and capital injections by date.
 * JavaScript's sort is stable, so the reference definition here is a stable
 * insertion sort: it orders by key and keeps the input order among equal keys.
 */
module Sorting {

  /** The keys never decrease along `s`. */
  predicate SortedBy<T>(s: seq<T>, key: T -> int) {
    forall i, j :: 0 <= i < j < |s| ==> key(s[i]) <= key(s[j])
  }

  /** The elements of `s` whose key is `k`, in their order in `s`. */
  function WithKey<T>(s: seq<T>, key: T -> int, k: int): (r: seq<T>)
    ensures |r| <= |s|
  {
    if s == [] then []
    else WithKey(s[..|s| - 1], key, k) + (if key(s[|s| - 1]) == k then [s[|s| - 1]] else [])
  }

  /** Puts `x` behind every element of the sorted `s` whose key is at most `key(x)`. */
  function Insert<T>(s: seq<T>, x: T, key: T -> int): (r: seq<T>)
    ensures |r| == |s| + 1
  {
    if s == [] then [x]
    else if key(x) < key(s[|s| - 1]) then Insert(s[..|s| - 1], x, key) + [s[|s| - 1]]
    else s + [x]
  }

  /** The stable sort of `s` by `key`. */
  function SortByKey<T>(s: seq<T>, key: T -> int): (r: seq<T>)
    ensures |r| == |s|
  {
    if s == [] then [] else Insert(SortByKey(s[..|s| - 1], key), s[|s| - 1], key)
  }

  lemma WithKeyAppend<T>(s: seq<T>, x: T, key: T -> int, k: int)
    ensures WithKey(s + [x], key, k) == WithKey(s, key, k) + (if key(x) == k then [x] else [])
  {
    assert (s + [x])[..|s|] == s;
  }

  lemma {:induction false} InsertPermutes<T>(s: seq<T>, x: T, key: T -> int)
    ensures multiset(Insert(s, x, key)) == multiset(s) + multiset{x}
  {
    if s != [] && key(x) < key(s[|s| - 1]) {
      var init, last := s[..|s| - 1], s[|s| - 1];
      assert s == init + [last];
      InsertPermutes(init, x, key);
    }
  }

  lemma {:induction false} InsertSorted<T>(s: seq<T>, x: T, key: T -> int)
    requires SortedBy(s, key)
    ensures SortedBy(Insert(s, x, key), key)
  {
    if s != [] && key(x) < key(s[|s| - 1]) {
      var init, last := s[..|s| - 1], s[|s| - 1];
      assert SortedBy(init, key);
      InsertSorted(init, x, key);
      InsertPermutes(init, x, key);
      var r := Insert(init, x, key);
      forall i | 0 <= i < |r| ensures key(r[i]) <= key(last) {
        assert r[i] in multiset(init) + multiset{x};
        if r[i] != x {
          var j :| 0 <= j < |init| && init[j] == r[i];
          assert s[j] == r[i];
        }
      }
      var t := r + [last];
      forall i, j | 0 <= i < j < |t| ensures key(t[i]) <= key(t[j]) {
        if j < |r| {
          assert t[i] == r[i] && t[j] == r[j];
        } else {
          assert t[i] == r[i] && t[j] == last;
        }
      }
    }
  }

  lemma {:induction false} InsertStable<T>(s: seq<T>, x: T, key: T -> int, k: int)
    requires SortedBy(s, key)
    ensures WithKey(Insert(s, x, key), key, k) == WithKey(s, key, k) + (if key(x) == k then [x] else [])
  {
    if s == [] {
      WithKeyAppend([], x, key, k);
      assert [] + [x] == [x];
    } else {
      var init, last := s[..|s| - 1], s[|s| - 1];
      if key(x) < key(last) {
        InsertStable(init, x, key, k);
        WithKeyAppend(Insert(init, x, key), last, key, k);
      } else {
        WithKeyAppend(s, x, key, k);
      }
    }
  }

  /** The result is sorted and is a permutation of the input. */
  lemma {:induction false} SortByKeySortsAndPermutes<T>(s: seq<T>, key: T -> int)
    ensures SortedBy(SortByKey(s, key), key)
    ensures multiset(SortByKey(s, key)) == multiset(s)
  {
    if s != [] {
      var init := s[..|s| - 1];
      assert s == init + [s[|s| - 1]];
      SortByKeySortsAndPermutes(init, key);
      InsertSorted(SortByKey(init, key), s[|s| - 1], key);
      InsertPermutes(SortByKey(init, key), s[|s| - 1], key);
    }
  }

  /** The sort is stable: the elements with any one key keep their input order. */
  lemma {:induction false} SortByKeyIsStable<T>(s: seq<T>, key: T -> int, k: int)
    ensures WithKey(SortByKey(s, key), key, k) == WithKey(s, key, k)
  {
    if s != [] {
      var init := s[..|s| - 1];
      SortByKeyIsStable(init, key, k);
      SortByKeySortsAndPermutes(init, key);
      InsertStable(SortByKey(init, key), s[|s| - 1], key, k);
    }
  }

  /** Sorting an already sorted sequence changes nothing. */
  lemma {:induction false} SortByKeyOfSorted<T>(s: seq<T>, key: T -> int)
    requires SortedBy(s, key)
    ensures SortByKey(s, key) == s
  {
    if s != [] {
      var init := s[..|s| - 1];
      assert SortedBy(init, key);
      SortByKeyOfSorted(init, key);
      assert s == init + [s[|s| - 1]];
    }
  }
}
