/** The in-memory filter and sort of the client's product listing
    (client/src/pages/Products.tsx). Both work on copies: the fetched list
    is a value here and is never changed. */
module ProductsPage {
  import opened Wrappers
  import opened Text
  import opened Seqs
  import opened Sorting
  import opened Catalog
  import opened ClientTypes

  /** The current filter settings; `"all"` switches the category or the
      condition test off. */
  datatype Filters = Filters(search: string, category: string, condition: string, minPrice: int, maxPrice: int)

  /** The category a product is compared by: the id string itself, or the
      populated category's slug. */
  function CategoryKey(c: CategoryRef): string
  {
    match c
    case CategoryIdString(id) => id
    case PopulatedCategory(_, _, slug) => slug
  }

  /** Case-insensitive substring search on name or description. */
  predicate MatchesSearch(p: ClientProduct, term: string)
  {
    Includes(Lower(p.name), Lower(term)) || Includes(Lower(p.description), Lower(term))
  }

  /** The `filteredProducts` predicate. */
  predicate Keeps(f: Filters, p: ClientProduct)
  {
    MatchesSearch(p, f.search)
    && (f.category == "all" || CategoryKey(p.category) == f.category)
    && (f.condition == "all" || ConditionName(p.condition) == f.condition)
    && f.minPrice <= p.price <= f.maxPrice
  }

  /** The empty search matches everything. */
  lemma EmptySearchMatchesAll(p: ClientProduct)
    ensures MatchesSearch(p, "")
  {
    EmptyIncluded(Lower(p.name));
  }

  /** With the search the only restriction, a product is kept exactly when
      the lower-cased term occurs in its lower-cased name or description. */
  lemma SearchIsSubstring(p: ClientProduct, term: string)
    ensures MatchesSearch(p, term) <==>
      (exists i :: OccursAt(Lower(p.name), Lower(term), i)) || (exists i :: OccursAt(Lower(p.description), Lower(term), i))
  {
    IncludesIff(Lower(p.name), Lower(term));
    IncludesIff(Lower(p.description), Lower(term));
  }

  function Filtered(ps: seq<ClientProduct>, f: Filters): seq<ClientProduct>
  {
    Filter(ps, (p: ClientProduct) => Keeps(f, p))
  }

  /** The filtered list holds exactly the kept products, and filtering
      concatenated lists concatenates the results, so kept products keep
      their order. */
  lemma FilteredShape(ps: seq<ClientProduct>, qs: seq<ClientProduct>, f: Filters)
    ensures var r := Filtered(ps, f);
      (forall k :: 0 <= k < |r| ==> r[k] in ps && Keeps(f, r[k]))
      && (forall p :: p in ps && Keeps(f, p) ==> p in r)
    ensures Filtered(ps + qs, f) == Filtered(ps, f) + Filtered(qs, f)
  {
    var r := Filtered(ps, f);
    forall k | 0 <= k < |r| ensures r[k] in ps {
      assert r[k] in multiset(r);
    }
    FilterAppend(ps, qs, (p: ClientProduct) => Keeps(f, p));
  }

  /** `"all"` in both selectors and the widest price range leave only the
      search. */
  lemma AllDisablesSelectors(p: ClientProduct, search: string, lo: int, hi: int)
    requires lo <= p.price <= hi
    ensures Keeps(Filters(search, "all", "all", lo, hi), p) <==> MatchesSearch(p, search)
  {
  }

  /** `ratings?.average || 0`. */
  function RatingOrZero(p: ClientProduct): int
  {
    p.ratings.GetOr(0)
  }

  /** The ascending key each comparator amounts to: `a.price - b.price`,
      `b.price - a.price`, the rating descending, else newest first. */
  function SortKey(mode: string): ClientProduct -> int
  {
    if mode == "price-low" then (p: ClientProduct) => p.price
    else if mode == "price-high" then (p: ClientProduct) => -p.price
    else if mode == "rating" then (p: ClientProduct) => -RatingOrZero(p)
    else (p: ClientProduct) => -p.createdAt
  }

  /** `[...filteredProducts].sort(comparator)`: a permutation of the
      filtered list in the order the mode asks for. */
  function Sorted(ps: seq<ClientProduct>, mode: string): (r: seq<ClientProduct>)
    ensures multiset(r) == multiset(ps) && |r| == |ps|
    ensures mode == "price-low" ==> forall i, j :: 0 <= i < j < |r| ==> r[i].price <= r[j].price
    ensures mode == "price-high" ==> forall i, j :: 0 <= i < j < |r| ==> r[i].price >= r[j].price
    ensures mode == "rating" ==> forall i, j :: 0 <= i < j < |r| ==> RatingOrZero(r[i]) >= RatingOrZero(r[j])
    ensures !(mode in {"price-low", "price-high", "rating"}) ==>
      forall i, j :: 0 <= i < j < |r| ==> r[i].createdAt >= r[j].createdAt
  {
    var key := SortKey(mode);
    var r := SortBy(ps, key);
    assert SortedBy(r, key);
    r
  }

  /** What the page shows: the kept products, sorted. */
  function Shown(ps: seq<ClientProduct>, f: Filters, mode: string): (r: seq<ClientProduct>)
    ensures multiset(r) == multiset(Filtered(ps, f))
  {
    Sorted(Filtered(ps, f), mode)
  }

  /** The page shows exactly the fetched products the filters keep. */
  lemma ShownShape(ps: seq<ClientProduct>, f: Filters, mode: string)
    ensures forall k :: 0 <= k < |Shown(ps, f, mode)| ==> Shown(ps, f, mode)[k] in ps && Keeps(f, Shown(ps, f, mode)[k])
    ensures forall p :: p in ps && Keeps(f, p) ==> p in Shown(ps, f, mode)
  {
    var g := (p: ClientProduct) => Keeps(f, p);
    assert Filtered(ps, f) == Filter(ps, g);
    PermutedFilter(Shown(ps, f, mode), ps, g);
  }
}
