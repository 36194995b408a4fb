/** A stable sort by an integer key. It stands for the document store's
    `sort` (ascending on the key; a descending field sort is an ascending
    sort on the negated field) and for `Array.prototype.sort` with a
    subtracting comparator, which is stable. */
module Sorting {

  /** Keys are non-decreasing along `s`. */
  ghost predicate SortedBy<T>(s: seq<T>, key: T -> int)
  {
    forall i, j :: 0 <= i < j < |s| ==> key(s[i]) <= key(s[j])
  }

  /** Insert `x` into `s` after every leading element whose key is not larger. */
  function Insert<T>(x: T, s: seq<T>, key: T -> int): (r: seq<T>)
    ensures multiset(r) == multiset(s) + multiset{x}
    ensures |r| == |s| + 1
  {
    if s == [] then [x]
    else if key(x) < key(s[0]) then [x] + s
    else
      assert s == [s[0]] + s[1..];
      [s[0]] + Insert(x, s[1..], key)
  }

  /** Prepending an element no larger than any other keeps a sequence sorted. */
  lemma SortedCons<T>(x: T, t: seq<T>, key: T -> int)
    requires SortedBy(t, key)
    requires forall k :: 0 <= k < |t| ==> key(x) <= key(t[k])
    ensures SortedBy([x] + t, key)
  {
    var r := [x] + t;
    forall i, j | 0 <= i < j < |r| ensures key(r[i]) <= key(r[j]) {
      assert r[j] == t[j - 1];
      if i > 0 { assert r[i] == t[i - 1]; }
    }
  }

  /** A lower bound of `x` and of every element of `s` bounds the insertion. */
  lemma {:induction false} InsertBound<T>(x: T, s: seq<T>, key: T -> int, b: int)
    requires b <= key(x)
    requires forall k :: 0 <= k < |s| ==> b <= key(s[k])
    ensures forall k :: 0 <= k < |Insert(x, s, key)| ==> b <= key(Insert(x, s, key)[k])
  {
    if s != [] && key(x) >= key(s[0]) {
      var t := Insert(x, s[1..], key);
      InsertBound(x, s[1..], key, b);
      var r := [s[0]] + t;
      assert Insert(x, s, key) == r;
      forall k | 0 < k < |r| ensures b <= key(r[k]) {
        assert r[k] == t[k - 1];
      }
    } else if s != [] {
      var r := [x] + s;
      forall k | 0 < k < |r| ensures b <= key(r[k]) {
        assert r[k] == s[k - 1];
      }
    }
  }

  /** Inserting into a sorted sequence keeps it sorted. */
  lemma {:induction false} InsertSorted<T>(x: T, s: seq<T>, key: T -> int)
    requires SortedBy(s, key)
    ensures SortedBy(Insert(x, s, key), key)
  {
    if s == [] {
    } else if key(x) < key(s[0]) {
      SortedCons(x, s, key);
    } else {
      var tail := s[1..];
      InsertSorted(x, tail, key);
      assert forall k :: 0 <= k < |tail| ==> key(s[0]) <= key(tail[k]) by {
        forall k | 0 <= k < |tail| ensures key(s[0]) <= key(tail[k]) {
          assert tail[k] == s[k + 1];
        }
      }
      InsertBound(x, tail, key, key(s[0]));
      SortedCons(s[0], Insert(x, tail, key), key);
    }
  }

  /** Insertion sort: sorted by `key` and a permutation of `s`. */
  function SortBy<T>(s: seq<T>, key: T -> int): (r: seq<T>)
    ensures multiset(r) == multiset(s)
    ensures SortedBy(r, key)
    ensures |r| == |s|
  {
    if s == [] then []
    else
      assert s == s[..|s| - 1] + [s[|s| - 1]];
      var sorted := SortBy(s[..|s| - 1], key);
      assert SortedBy(Insert(s[|s| - 1], sorted, key), key) by {
        InsertSorted(s[|s| - 1], sorted, key);
      }
      Insert(s[|s| - 1], sorted, key)
  }

  /** A sort on a negated key lists the key in non-increasing order. */
  lemma SortedDescending<T>(s: seq<T>, key: T -> int, neg: T -> int)
    requires SortedBy(s, neg)
    requires forall x :: neg(x) == -key(x)
    ensures forall i, j :: 0 <= i < j < |s| ==> key(s[i]) >= key(s[j])
  {
    forall i, j | 0 <= i < j < |s| ensures key(s[i]) >= key(s[j]) {
      assert neg(s[i]) <= neg(s[j]);
    }
  }
}
