/** The pagination arithmetic shared by the listing handlers:
    `parseInt(q) || default`, `skip = (page - 1) * limit`,
    `pages = Math.ceil(total / limit)`, and the store's skip/limit window. */
module Paging {
  import opened Wrappers
  import opened Seqs
  import opened Sorting

  /** `parseInt(raw) || d`: a missing or non-numeric parameter (None) and 0
      both fall back to the default. */
  function OrDefault(raw: Option<int>, d: int): (r: int)
    ensures raw.Some? && raw.value != 0 ==> r == raw.value
    ensures raw.None? || raw == Some(0) ==> r == d
  {
    match raw
    case Some(v) => if v != 0 then v else d
    case None => d
  }

  function Skip(page: int, limit: int): int
  {
    (page - 1) * limit
  }

  /** `Math.ceil(total / limit)` for a non-zero limit. */
  function Pages(total: nat, limit: int): (r: int)
    requires limit != 0
    ensures limit > 0 ==> r >= 0 && r * limit >= total && (r == 0 || (r - 1) * limit < total)
  {
    if limit > 0 then
      var r := (total + limit - 1) / limit;
      assert r * limit <= total + limit - 1 < (r + 1) * limit;
      r
    else -(total / -limit)
  }

  /** `.skip(skip).limit(limit)` over the sorted result, for a skip the store
      accepts; a negative limit means its absolute value. */
  function Window<T>(s: seq<T>, skip: nat, limit: int): (r: seq<T>)
    requires limit != 0
    ensures |r| <= if limit > 0 then limit else -limit
    ensures skip <= |s| ==> |r| == (if limit > 0 then limit else -limit) || skip + |r| == |s|
    ensures forall k :: 0 <= k < |r| ==> skip + k < |s| && r[k] == s[skip + k]
    ensures skip >= |s| ==> r == []
    ensures multiset(r) <= multiset(s)
  {
    var n := if limit > 0 then limit else -limit;
    var lo := if skip <= |s| then skip else |s|;
    var hi := if skip + n <= |s| then skip + n else |s|;
    SliceIncluded(s, lo, hi);
    s[lo..hi]
  }

  /** A window of the sorted matching documents holds only matching
      documents of `s`, still sorted. */
  lemma WindowOfSorted<T>(s: seq<T>, keep: T -> bool, key: T -> int, skip: nat, limit: int)
    requires limit != 0
    ensures var data := Window(SortBy(Filter(s, keep), key), skip, limit);
      (forall k :: 0 <= k < |data| ==> data[k] in s && keep(data[k])) && SortedBy(data, key)
  {
    var matching := Filter(s, keep);
    var sorted := SortBy(matching, key);
    var data := Window(sorted, skip, limit);
    forall k | 0 <= k < |data| ensures data[k] in s && keep(data[k]) {
      assert data[k] == sorted[skip + k];
      assert data[k] in multiset(sorted);
      assert data[k] in multiset(matching);
      assert data[k] in multiset(s);
    }
    forall i, j | 0 <= i < j < |data| ensures key(data[i]) <= key(data[j]) {
      assert data[i] == sorted[skip + i] && data[j] == sorted[skip + j];
    }
  }

  /** The documents one page shows: the documents of `s` that `keep`
      accepts, each at most as often as in `s`, sorted ascending on `key`,
      from position `skip` on and at most |limit| of them; the first page
      holds the documents with the smallest keys. */
  function Page<T>(s: seq<T>, keep: T -> bool, key: T -> int, skip: nat, limit: int): (r: seq<T>)
    requires limit != 0
    ensures multiset(r) <= multiset(Filter(s, keep))
    ensures skip < |Filter(s, keep)| ==>
      |r| == if skip + (if limit > 0 then limit else -limit) <= |Filter(s, keep)|
        then (if limit > 0 then limit else -limit) else |Filter(s, keep)| - skip
    ensures skip >= |Filter(s, keep)| ==> r == []
    ensures forall k :: 0 <= k < |r| ==> r[k] in s && keep(r[k])
    ensures SortedBy(r, key)
    ensures skip == 0 ==>
      forall x, k :: x in s && keep(x) && x !in r && 0 <= k < |r| ==> key(r[k]) <= key(x)
  {
    WindowOfSorted(s, keep, key, skip, limit);
    if skip == 0 then
      FirstPageSmallest(s, keep, key, limit);
      Window(SortBy(Filter(s, keep), key), skip, limit)
    else
      Window(SortBy(Filter(s, keep), key), skip, limit)
  }

  /** Every matching document the first window leaves out has a key no
      smaller than any document in it. */
  lemma FirstPageSmallest<T>(s: seq<T>, keep: T -> bool, key: T -> int, limit: int)
    requires limit != 0
    ensures forall x, k ::
      x in s && keep(x) && x !in Window(SortBy(Filter(s, keep), key), 0, limit)
      && 0 <= k < |Window(SortBy(Filter(s, keep), key), 0, limit)|
      ==> key(Window(SortBy(Filter(s, keep), key), 0, limit)[k]) <= key(x)
  {
    var matching := Filter(s, keep);
    var sorted := SortBy(matching, key);
    var r := Window(sorted, 0, limit);
    SameMembers(sorted, matching);
    forall x, k | x in s && keep(x) && x !in r && 0 <= k < |r| ensures key(r[k]) <= key(x) {
      assert x in matching;
      var m :| 0 <= m < |sorted| && sorted[m] == x;
      assert forall j :: 0 <= j < |r| ==> sorted[j] == r[j];
      assert m >= |r|;
      assert r[k] == sorted[k];
    }
  }

  /** The first page's order, for one left-out document and one position. */
  lemma FirstPageBefore<T>(s: seq<T>, keep: T -> bool, key: T -> int, limit: int, x: T, k: nat)
    requires limit != 0
    requires x in s && keep(x) && x !in Page(s, keep, key, 0, limit)
    requires k < |Page(s, keep, key, 0, limit)|
    ensures key(Page(s, keep, key, 0, limit)[k]) <= key(x)
  {
  }

  /** One page of a listing: the status code, the documents, the matching
      count and the page arithmetic. */
  datatype Listing<T> = Listing(code: int, data: seq<T>, total: nat, page: int, pages: int)

  /** `find(query).sort(key).skip(skip).limit(limit)` together with
      `countDocuments(query)`: the matching documents sorted ascending on
      `key`, windowed, with a 500 when the computed skip is negative (the
      store refuses a negative skip). */
  function List<T>(s: seq<T>, keep: T -> bool, key: T -> int,
                   pageRaw: Option<int>, limitRaw: Option<int>, defaultLimit: int): (r: Listing<T>)
    requires defaultLimit != 0
    ensures var page := OrDefault(pageRaw, 1);
      var limit := OrDefault(limitRaw, defaultLimit);
      (r.code == 500 <==> Skip(page, limit) < 0)
      && (r.code != 500 ==>
            r.code == 200 && r.page == page && r.total == Count(s, keep)
            && r.pages == Pages(r.total, limit)
            && |r.data| <= (if limit > 0 then limit else -limit)
            && (Skip(page, limit) >= r.total ==> r.data == []))
    ensures r.code == 200 ==>
      Skip(OrDefault(pageRaw, 1), OrDefault(limitRaw, defaultLimit)) >= 0
      && r.data == Page(s, keep, key, Skip(OrDefault(pageRaw, 1), OrDefault(limitRaw, defaultLimit)),
                        OrDefault(limitRaw, defaultLimit))
    ensures r.code == 200 ==> forall k :: 0 <= k < |r.data| ==> r.data[k] in s && keep(r.data[k])
    ensures r.code == 200 ==> SortedBy(r.data, key)
    ensures r.code == 200 && OrDefault(pageRaw, 1) == 1 ==>
      forall x, k :: x in s && keep(x) && x !in r.data && 0 <= k < |r.data| ==> key(r.data[k]) <= key(x)
  {
    var page := OrDefault(pageRaw, 1);
    var limit := OrDefault(limitRaw, defaultLimit);
    var skip := Skip(page, limit);
    if skip < 0 then Listing(500, [], 0, page, 0)
    else
      var matching := Filter(s, keep);
      CountIsFilterLength(s, keep);
      Listing(200, Page(s, keep, key, skip, limit), |matching|, page, Pages(|matching|, limit))
  }

  /** A listing depends only on which documents its filter accepts. */
  lemma ListAgrees<T>(s: seq<T>, keep: T -> bool, keep': T -> bool, key: T -> int,
                      pageRaw: Option<int>, limitRaw: Option<int>, defaultLimit: int)
    requires defaultLimit != 0
    requires forall x :: x in s ==> keep(x) == keep'(x)
    ensures List(s, keep, key, pageRaw, limitRaw, defaultLimit) == List(s, keep', key, pageRaw, limitRaw, defaultLimit)
  {
    FilterAgrees(s, keep, keep');
  }

  /** The first page's order, through a listing, for one left-out document
      and one position. */
  lemma ListFirstBefore<T>(s: seq<T>, keep: T -> bool, key: T -> int, pageRaw: Option<int>, limitRaw: Option<int>,
                           defaultLimit: int, x: T, k: nat)
    requires defaultLimit != 0
    requires List(s, keep, key, pageRaw, limitRaw, defaultLimit).code == 200 && OrDefault(pageRaw, 1) == 1
    requires x in s && keep(x) && x !in List(s, keep, key, pageRaw, limitRaw, defaultLimit).data
    requires k < |List(s, keep, key, pageRaw, limitRaw, defaultLimit).data|
    ensures key(List(s, keep, key, pageRaw, limitRaw, defaultLimit).data[k]) <= key(x)
  {
  }
}
