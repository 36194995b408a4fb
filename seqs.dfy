/** Sequence operations that stand for the array built-ins the source
    calls: `filter`, `find`/`findIndex`/`indexOf`, and summing reductions. */
module Seqs {
  import opened Wrappers

  /** `Array.prototype.filter`: the elements satisfying `f`, in order. */
  function Filter<T>(s: seq<T>, f: T -> bool): (r: seq<T>)
    ensures |r| <= |s|
    ensures forall k :: 0 <= k < |r| ==> f(r[k])
    ensures multiset(r) <= multiset(s)
    ensures forall x :: x in s && f(x) ==> x in r
  {
    if s == [] then []
    else
      var t := Filter(s[1..], f);
      assert s == [s[0]] + s[1..];
      assert forall x :: x in s ==> x == s[0] || x in s[1..];
      if f(s[0]) then [s[0]] + t else t
  }

  /** Filtering distributes over concatenation, so the kept elements keep
      their relative order. */
  lemma {:induction false} FilterAppend<T>(a: seq<T>, b: seq<T>, f: T -> bool)
    ensures Filter(a + b, f) == Filter(a, f) + Filter(b, f)
  {
    if a == [] {
      assert a + b == b;
    } else {
      assert (a + b)[1..] == a[1..] + b;
      FilterAppend(a[1..], b, f);
    }
  }

  /** Every kept element comes from the input. */
  lemma FilterFromSource<T>(s: seq<T>, f: T -> bool)
    ensures forall k :: 0 <= k < |Filter(s, f)| ==> Filter(s, f)[k] in s
  {
    var r := Filter(s, f);
    forall k | 0 <= k < |r| ensures r[k] in s {
      assert r[k] in multiset(r);
    }
  }

  /** A property of every element holds of every kept element. */
  lemma FilterKeepsProperty<T>(s: seq<T>, f: T -> bool, p: T -> bool)
    requires forall k :: 0 <= k < |s| ==> p(s[k])
    ensures forall k :: 0 <= k < |Filter(s, f)| ==> p(Filter(s, f)[k])
  {
    var r := Filter(s, f);
    FilterFromSource(s, f);
    forall k | 0 <= k < |r| ensures p(r[k]) {
      var a :| 0 <= a < |s| && s[a] == r[k];
    }
  }

  /** Filtering keeps keys pairwise distinct. */
  lemma {:induction false} FilterKeepsDistinct<T, K>(s: seq<T>, f: T -> bool, key: T -> K)
    requires forall i, j :: 0 <= i < j < |s| ==> key(s[i]) != key(s[j])
    ensures forall i, j :: 0 <= i < j < |Filter(s, f)| ==> key(Filter(s, f)[i]) != key(Filter(s, f)[j])
  {
    if s != [] {
      var tail := s[1..];
      var t := Filter(tail, f);
      FilterKeepsDistinct(tail, f, key);
      assert Filter(s, f) == if f(s[0]) then [s[0]] + t else t;
      if f(s[0]) {
        FilterFromSource(tail, f);
        assert forall k :: 0 <= k < |t| ==> t[k] in tail;
        forall k | 0 <= k < |t| ensures key(t[k]) != key(s[0]) {
          assert t[k] in tail;
          var a :| 0 <= a < |tail| && tail[a] == t[k];
          assert s[a + 1] == t[k];
          assert key(s[0]) != key(s[a + 1]);
        }
        DistinctCons(s[0], t, key);
      }
    }
  }

  /** Prepending an element whose key is new keeps keys distinct. */
  lemma DistinctCons<T, K>(x: T, t: seq<T>, key: T -> K)
    requires forall i, j :: 0 <= i < j < |t| ==> key(t[i]) != key(t[j])
    requires forall k :: 0 <= k < |t| ==> key(t[k]) != key(x)
    ensures forall i, j :: 0 <= i < j < |[x] + t| ==> key(([x] + t)[i]) != key(([x] + t)[j])
  {
    var r := [x] + t;
    forall i, j | 0 <= i < j < |r| ensures key(r[i]) != key(r[j]) {
      assert r[j] == t[j - 1];
      if i > 0 { assert r[i] == t[i - 1]; }
    }
  }

  /** Sequences with the same multiset have the same members. */
  lemma SameMembers<T>(a: seq<T>, b: seq<T>)
    requires multiset(a) == multiset(b)
    ensures forall x :: x in a <==> x in b
  {
    forall x ensures x in a <==> x in b {
      assert x in a <==> x in multiset(a);
      assert x in b <==> x in multiset(b);
    }
  }

  /** A permutation of a filtered sequence holds exactly the passing
      elements of the original. */
  lemma PermutedFilter<T>(r: seq<T>, s: seq<T>, g: T -> bool)
    requires multiset(r) == multiset(Filter(s, g))
    ensures forall k :: 0 <= k < |r| ==> r[k] in s && g(r[k])
    ensures forall x :: x in s && g(x) ==> x in r
  {
    var fs := Filter(s, g);
    SameMembers(r, fs);
    FilterFromSource(s, g);
    forall k | 0 <= k < |r| ensures r[k] in s && g(r[k]) {
      assert r[k] in fs;
      var i :| 0 <= i < |fs| && fs[i] == r[k];
    }
  }

  /** Filtering keeps everything when every element passes. */
  lemma {:induction false} FilterKeepsAll<T>(s: seq<T>, f: T -> bool)
    requires forall k :: 0 <= k < |s| ==> f(s[k])
    ensures Filter(s, f) == s
  {
    if s != [] {
      FilterKeepsAll(s[1..], f);
    }
  }

  /** `findIndex`: the first position satisfying `f`, if any. */
  function FirstIndex<T>(s: seq<T>, f: T -> bool): (r: Option<nat>)
    ensures r.Some? ==> r.value < |s| && f(s[r.value])
    ensures r.Some? ==> forall j :: 0 <= j < r.value ==> !f(s[j])
    ensures r.None? <==> forall k :: 0 <= k < |s| ==> !f(s[k])
  {
    if s == [] then None
    else if f(s[0]) then Some(0)
    else
      match FirstIndex(s[1..], f)
      case Some(k) => Some(k + 1)
      case None => None
  }

  /** The number of elements satisfying `f`. */
  function Count<T>(s: seq<T>, f: T -> bool): (r: nat)
    ensures r <= |s|
  {
    if s == [] then 0 else (if f(s[0]) then 1 else 0) + Count(s[1..], f)
  }

  /** Counting is the length of the filtered sequence. */
  lemma {:induction false} CountIsFilterLength<T>(s: seq<T>, f: T -> bool)
    ensures Count(s, f) == |Filter(s, f)|
  {
    if s != [] {
      CountIsFilterLength(s[1..], f);
    }
  }

  /** A slice holds each element at most as often as the whole. */
  lemma SliceIncluded<T>(s: seq<T>, lo: nat, hi: nat)
    requires lo <= hi <= |s|
    ensures multiset(s[lo..hi]) <= multiset(s)
  {
    assert s == s[..lo] + s[lo..hi] + s[hi..];
  }

  /** Filtering depends only on what the predicate accepts. */
  lemma {:induction false} FilterAgrees<T>(s: seq<T>, f: T -> bool, g: T -> bool)
    requires forall x :: x in s ==> f(x) == g(x)
    ensures Filter(s, f) == Filter(s, g)
  {
    if s != [] {
      assert forall x :: x in s[1..] ==> x in s;
      FilterAgrees(s[1..], f, g);
    }
  }

  /** `s` with element `k` removed (`splice(k, 1)`). */
  function RemoveAt<T>(s: seq<T>, k: nat): (r: seq<T>)
    requires k < |s|
    ensures |r| == |s| - 1
    ensures forall j :: 0 <= j < k ==> r[j] == s[j]
    ensures forall j :: k <= j < |r| ==> r[j] == s[j + 1]
  {
    s[..k] + s[k + 1..]
  }
}
