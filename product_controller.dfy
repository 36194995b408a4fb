/** The catalog handlers (server/src/controllers/productController.ts) with
    the route guards of server/src/routes/products.ts. The store's find is
    a filter, then a stable sort, then a skip/limit window. */
module ProductController {
  import opened Wrappers
  import opened Ids
  import opened Seqs
  import opened Sorting
  import opened Paging
  import opened Catalog
  import opened Users
  import opened Db

  /** The query object `getProducts` builds. `isActive: true` is always
      present; each other field only when its parameter was given. */
  datatype ProductQuery = ProductQuery(
    category: Option<CategoryId>,
    condition: Option<string>,
    minPrice: Option<int>,
    maxPrice: Option<int>,
    text: bool)

  /** What the store matches for a query. `textMatch` stands for the text
      index's `$search`, whose semantics the store defines. */
  predicate Matches(q: ProductQuery, textMatch: Product -> bool, p: Product)
  {
    p.isActive
    && (q.category.Some? ==> p.category == q.category.value)
    && (q.condition.Some? ==> ConditionName(p.condition) == q.condition.value)
    && (q.minPrice.Some? ==> p.price >= q.minPrice.value)
    && (q.maxPrice.Some? ==> p.price <= q.maxPrice.value)
    && (q.text ==> textMatch(p))
  }

  /** The products the listing parameters ask for, field by field. */
  function Wanted(category: Option<CategoryId>, condition: string, minPrice: Option<int>,
                  maxPrice: Option<int>, search: string, textMatch: Product -> bool): Product -> bool
  {
    (p: Product) =>
      p.isActive
      && (category.Some? ==> p.category == category.value)
      && (condition != "" ==> ConditionName(p.condition) == condition)
      && (minPrice.Some? ==> minPrice.value <= p.price)
      && (maxPrice.Some? ==> p.price <= maxPrice.value)
      && (search != "" ==> textMatch(p))
  }

  /** Building the query field by field. An empty string stands for an
      absent parameter; so does None for a price bound. */
  method BuildQuery(category: Option<CategoryId>, condition: string, minPrice: Option<int>,
                    maxPrice: Option<int>, search: string)
    returns (q: ProductQuery)
    ensures forall textMatch: Product -> bool, p: Product ::
      Matches(q, textMatch, p) <==> Wanted(category, condition, minPrice, maxPrice, search, textMatch)(p)
  {
    q := ProductQuery(None, None, None, None, false);
    if category.Some? {
      q := q.(category := category);
    }
    if condition != "" {
      q := q.(condition := Some(condition));
    }
    if minPrice.Some? || maxPrice.Some? {
      if minPrice.Some? {
        q := q.(minPrice := minPrice);
      }
      if maxPrice.Some? {
        q := q.(maxPrice := maxPrice);
      }
    }
    if search != "" {
      q := q.(text := true);
    }
  }

  /** The sort object `getProducts` builds. */
  datatype SortSpec = PriceAsc | PriceDesc | RatingDesc | NewestFirst

  /** The mapping from the `sort` parameter; anything unrecognised, and
      `newest`, sorts newest first. */
  method BuildSort(sort: string) returns (spec: SortSpec)
    ensures sort == "price-asc" <==> spec == PriceAsc
    ensures sort == "price-desc" <==> spec == PriceDesc
    ensures sort == "rating" <==> spec == RatingDesc
    ensures !(sort in {"price-asc", "price-desc", "rating"}) <==> spec == NewestFirst
  {
    if sort == "price-asc" {
      spec := PriceAsc;
    } else if sort == "price-desc" {
      spec := PriceDesc;
    } else if sort == "rating" {
      spec := RatingDesc;
    } else if sort == "newest" {
      spec := NewestFirst;
    } else {
      spec := NewestFirst;
    }
  }

  /** The ascending key a sort spec orders by; a descending field is its
      negation. */
  function KeyOf(spec: SortSpec): Product -> int
  {
    match spec
    case PriceAsc => (p: Product) => p.price
    case PriceDesc => (p: Product) => -p.price
    case RatingDesc => (p: Product) => -p.ratingAverage
    case NewestFirst => (p: Product) => -p.createdAt
  }

  /** What ordering by a spec's key means for the fields. */
  lemma SpecOrder(spec: SortSpec, data: seq<Product>)
    requires SortedBy(data, KeyOf(spec))
    ensures spec == PriceAsc ==> forall i, j :: 0 <= i < j < |data| ==> data[i].price <= data[j].price
    ensures spec == PriceDesc ==> forall i, j :: 0 <= i < j < |data| ==> data[i].price >= data[j].price
    ensures spec == RatingDesc ==> forall i, j :: 0 <= i < j < |data| ==> data[i].ratingAverage >= data[j].ratingAverage
    ensures spec == NewestFirst ==> forall i, j :: 0 <= i < j < |data| ==> data[i].createdAt >= data[j].createdAt
  {
    var key := KeyOf(spec);
    forall i, j | 0 <= i < j < |data| ensures key(data[i]) <= key(data[j]) {
    }
  }

  /** The ascending key the `sort` parameter asks for. */
  function SortKey(sort: string): Product -> int
  {
    KeyOf(if sort == "price-asc" then PriceAsc
          else if sort == "price-desc" then PriceDesc
          else if sort == "rating" then RatingDesc
          else NewestFirst)
  }

  /** The store's filter for a query. */
  function QueryFilter(q: ProductQuery, textMatch: Product -> bool): Product -> bool
  {
    (p: Product) => Matches(q, textMatch, p)
  }

  /** Listing with the built query and sort is listing the wanted products
      on the asked key. */
  lemma QueryListing(ps: seq<Product>, q: ProductQuery, category: Option<CategoryId>, condition: string,
                     minPrice: Option<int>, maxPrice: Option<int>, search: string, textMatch: Product -> bool,
                     spec: SortSpec, sort: string, pageRaw: Option<int>, limitRaw: Option<int>)
    requires forall textMatch: Product -> bool, p: Product ::
      Matches(q, textMatch, p) <==> Wanted(category, condition, minPrice, maxPrice, search, textMatch)(p)
    requires sort == "price-asc" <==> spec == PriceAsc
    requires sort == "price-desc" <==> spec == PriceDesc
    requires sort == "rating" <==> spec == RatingDesc
    ensures List(ps, QueryFilter(q, textMatch), KeyOf(spec), pageRaw, limitRaw, 12)
         == List(ps, Wanted(category, condition, minPrice, maxPrice, search, textMatch), SortKey(sort),
                 pageRaw, limitRaw, 12)
  {
    ListAgrees(ps, QueryFilter(q, textMatch), Wanted(category, condition, minPrice, maxPrice, search, textMatch),
               KeyOf(spec), pageRaw, limitRaw, 12);
    assert KeyOf(spec) == SortKey(sort);
  }

  /** The counts and page arithmetic of a product listing. */
  lemma ListedCounts(ps: seq<Product>, category: Option<CategoryId>, condition: string,
                     minPrice: Option<int>, maxPrice: Option<int>, search: string, textMatch: Product -> bool,
                     sort: string, pageRaw: Option<int>, limitRaw: Option<int>, r: Listing<Product>)
    requires r == List(ps, Wanted(category, condition, minPrice, maxPrice, search, textMatch), SortKey(sort),
                       pageRaw, limitRaw, 12)
    ensures r.code == 500 <==> Skip(OrDefault(pageRaw, 1), OrDefault(limitRaw, 12)) < 0
    ensures r.code == 200 ==>
      r.total == Count(ps, Wanted(category, condition, minPrice, maxPrice, search, textMatch))
      && r.page == OrDefault(pageRaw, 1) && r.pages == Pages(r.total, OrDefault(limitRaw, 12))
    ensures r.code == 200 ==>
      r.data == Page(ps, Wanted(category, condition, minPrice, maxPrice, search, textMatch), SortKey(sort),
                     Skip(OrDefault(pageRaw, 1), OrDefault(limitRaw, 12)), OrDefault(limitRaw, 12))
    ensures r.code == 200 ==>
      multiset(r.data) <= multiset(Filter(ps, Wanted(category, condition, minPrice, maxPrice, search, textMatch)))
    ensures pageRaw.None? && limitRaw.None? ==> r.code == 200 && r.page == 1 && |r.data| <= 12
  {
  }

  /** Every listed product is one the parameters ask for. */
  lemma ListedFields(ps: seq<Product>, category: Option<CategoryId>, condition: string,
                     minPrice: Option<int>, maxPrice: Option<int>, search: string, textMatch: Product -> bool,
                     sort: string, pageRaw: Option<int>, limitRaw: Option<int>, r: Listing<Product>)
    requires r == List(ps, Wanted(category, condition, minPrice, maxPrice, search, textMatch), SortKey(sort),
                       pageRaw, limitRaw, 12)
    ensures r.code == 200 ==> forall k :: 0 <= k < |r.data| ==>
      r.data[k] in ps && r.data[k].isActive
      && (category.Some? ==> r.data[k].category == category.value)
      && (condition != "" ==> ConditionName(r.data[k].condition) == condition)
      && (minPrice.Some? ==> minPrice.value <= r.data[k].price)
      && (maxPrice.Some? ==> r.data[k].price <= maxPrice.value)
      && (search != "" ==> textMatch(r.data[k]))
  {
    if r.code == 200 {
      forall k | 0 <= k < |r.data|
        ensures r.data[k] in ps && Wanted(category, condition, minPrice, maxPrice, search, textMatch)(r.data[k])
      {
      }
    }
  }

  /** The first page of a product listing holds the wanted products that
      come first on the asked key. */
  lemma ListedFirstPage(ps: seq<Product>, category: Option<CategoryId>, condition: string,
                        minPrice: Option<int>, maxPrice: Option<int>, search: string, textMatch: Product -> bool,
                        sort: string, pageRaw: Option<int>, limitRaw: Option<int>, r: Listing<Product>)
    requires r == List(ps, Wanted(category, condition, minPrice, maxPrice, search, textMatch), SortKey(sort),
                       pageRaw, limitRaw, 12)
    ensures r.code == 200 && OrDefault(pageRaw, 1) == 1 ==>
      forall p, k ::
        p in ps && Wanted(category, condition, minPrice, maxPrice, search, textMatch)(p)
        && p !in r.data && 0 <= k < |r.data|
        ==> SortKey(sort)(r.data[k]) <= SortKey(sort)(p)
  {
  }

  /** A product listing is ordered as the `sort` parameter asks. */
  lemma ListedOrder(ps: seq<Product>, category: Option<CategoryId>, condition: string,
                    minPrice: Option<int>, maxPrice: Option<int>, search: string, textMatch: Product -> bool,
                    sort: string, pageRaw: Option<int>, limitRaw: Option<int>, r: Listing<Product>)
    requires r == List(ps, Wanted(category, condition, minPrice, maxPrice, search, textMatch), SortKey(sort),
                       pageRaw, limitRaw, 12)
    ensures r.code == 200 && sort == "price-asc" ==>
      forall i, j :: 0 <= i < j < |r.data| ==> r.data[i].price <= r.data[j].price
    ensures r.code == 200 && sort == "price-desc" ==>
      forall i, j :: 0 <= i < j < |r.data| ==> r.data[i].price >= r.data[j].price
    ensures r.code == 200 && sort == "rating" ==>
      forall i, j :: 0 <= i < j < |r.data| ==> r.data[i].ratingAverage >= r.data[j].ratingAverage
    ensures r.code == 200 && !(sort in {"price-asc", "price-desc", "rating"}) ==>
      forall i, j :: 0 <= i < j < |r.data| ==> r.data[i].createdAt >= r.data[j].createdAt
  {
    if r.code == 200 {
      SpecOrder(if sort == "price-asc" then PriceAsc
                else if sort == "price-desc" then PriceDesc
                else if sort == "rating" then RatingDesc
                else NewestFirst, r.data);
    }
  }

  /** GET /api/products: active products matching the filters, sorted as
      asked, twelve a page by default. */
  method GetProducts(ps: seq<Product>, category: Option<CategoryId>, condition: string,
                     minPrice: Option<int>, maxPrice: Option<int>, search: string, textMatch: Product -> bool,
                     sort: string, pageRaw: Option<int>, limitRaw: Option<int>)
    returns (r: Listing<Product>)
    ensures r.code == 200 || r.code == 500
    ensures r == List(ps, Wanted(category, condition, minPrice, maxPrice, search, textMatch), SortKey(sort),
                      pageRaw, limitRaw, 12)
    ensures r.code == 500 <==> Skip(OrDefault(pageRaw, 1), OrDefault(limitRaw, 12)) < 0
    ensures r.code == 200 ==>
      r.total == Count(ps, Wanted(category, condition, minPrice, maxPrice, search, textMatch))
      && r.page == OrDefault(pageRaw, 1) && r.pages == Pages(r.total, OrDefault(limitRaw, 12))
    ensures r.code == 200 ==>
      r.data == Page(ps, Wanted(category, condition, minPrice, maxPrice, search, textMatch), SortKey(sort),
                     Skip(OrDefault(pageRaw, 1), OrDefault(limitRaw, 12)), OrDefault(limitRaw, 12))
    ensures r.code == 200 ==>
      multiset(r.data) <= multiset(Filter(ps, Wanted(category, condition, minPrice, maxPrice, search, textMatch)))
    ensures r.code == 200 && OrDefault(pageRaw, 1) == 1 ==>
      forall p, k ::
        p in ps && Wanted(category, condition, minPrice, maxPrice, search, textMatch)(p)
        && p !in r.data && 0 <= k < |r.data|
        ==> SortKey(sort)(r.data[k]) <= SortKey(sort)(p)
    ensures r.code == 200 ==> forall k :: 0 <= k < |r.data| ==>
      r.data[k] in ps && r.data[k].isActive
      && (category.Some? ==> r.data[k].category == category.value)
      && (condition != "" ==> ConditionName(r.data[k].condition) == condition)
      && (minPrice.Some? ==> minPrice.value <= r.data[k].price)
      && (maxPrice.Some? ==> r.data[k].price <= maxPrice.value)
      && (search != "" ==> textMatch(r.data[k]))
    ensures r.code == 200 && sort == "price-asc" ==>
      forall i, j :: 0 <= i < j < |r.data| ==> r.data[i].price <= r.data[j].price
    ensures r.code == 200 && sort == "price-desc" ==>
      forall i, j :: 0 <= i < j < |r.data| ==> r.data[i].price >= r.data[j].price
    ensures r.code == 200 && sort == "rating" ==>
      forall i, j :: 0 <= i < j < |r.data| ==> r.data[i].ratingAverage >= r.data[j].ratingAverage
    ensures r.code == 200 && !(sort in {"price-asc", "price-desc", "rating"}) ==>
      forall i, j :: 0 <= i < j < |r.data| ==> r.data[i].createdAt >= r.data[j].createdAt
    ensures pageRaw.None? && limitRaw.None? ==> r.code == 200 && r.page == 1 && |r.data| <= 12
  {
    var q := BuildQuery(category, condition, minPrice, maxPrice, search);
    var spec := BuildSort(sort);
    r := List(ps, QueryFilter(q, textMatch), KeyOf(spec), pageRaw, limitRaw, 12);
    QueryListing(ps, q, category, condition, minPrice, maxPrice, search, textMatch, spec, sort, pageRaw, limitRaw);
    ListedCounts(ps, category, condition, minPrice, maxPrice, search, textMatch, sort, pageRaw, limitRaw, r);
    ListedFields(ps, category, condition, minPrice, maxPrice, search, textMatch, sort, pageRaw, limitRaw, r);
    ListedOrder(ps, category, condition, minPrice, maxPrice, search, textMatch, sort, pageRaw, limitRaw, r);
    ListedFirstPage(ps, category, condition, minPrice, maxPrice, search, textMatch, sort, pageRaw, limitRaw, r);
  }

  /** GET /api/products/:id. */
  function GetProduct(ps: seq<Product>, id: ProductId): (r: Reply<Product>)
    ensures r.code == 404 <==> forall k :: 0 <= k < |ps| ==> ps[k].id != id
    ensures r.code != 404 ==> r.code == 200 && r.data.Some? && r.data.value in ps && r.data.value.id == id
  {
    match FindProduct(ps, id)
    case None => Reply(404, None)
    case Some(k) => Reply(200, Some(ps[k]))
  }

  /** The fields an update body may set; None leaves a field as it is. */
  datatype ProductPatch = ProductPatch(
    name: Option<string>,
    description: Option<string>,
    category: Option<CategoryId>,
    price: Option<int>,
    condition: Option<Condition>,
    stock: Option<int>,
    ratingAverage: Option<int>,
    isActive: Option<bool>,
    isFeatured: Option<bool>)

  /** The update validators (`runValidators: true`) check only the paths the
      body sets: a name is present and at most 200 characters, a
      description is present, price and stock are at least 0 and the rating
      average lies within 0 to 5 stars. */
  predicate PatchValid(patch: ProductPatch)
  {
    (patch.name.Some? ==> patch.name.value != "" && |patch.name.value| <= 200)
    && (patch.description.Some? ==> patch.description.value != "")
    && (patch.price.Some? ==> patch.price.value >= 0)
    && (patch.stock.Some? ==> patch.stock.value >= 0)
    && (patch.ratingAverage.Some? ==> 0 <= patch.ratingAverage.value <= MaxRating)
  }

  /** The product the update stores: the given fields replaced, everything
      else, the slug included (no save hook runs), as before. */
  function Patched(p: Product, patch: ProductPatch): (r: Product)
    ensures r.id == p.id && r.slug == p.slug && r.createdAt == p.createdAt && r.ratingCount == p.ratingCount
    ensures r.name == patch.name.GetOr(p.name) && r.description == patch.description.GetOr(p.description)
      && r.category == patch.category.GetOr(p.category) && r.price == patch.price.GetOr(p.price)
      && r.condition == patch.condition.GetOr(p.condition) && r.stock == patch.stock.GetOr(p.stock)
      && r.ratingAverage == patch.ratingAverage.GetOr(p.ratingAverage)
      && r.isActive == patch.isActive.GetOr(p.isActive) && r.isFeatured == patch.isFeatured.GetOr(p.isFeatured)
    ensures patch == ProductPatch(None, None, None, None, None, None, None, None, None) ==> r == p
  {
    p.(name := patch.name.GetOr(p.name),
       description := patch.description.GetOr(p.description),
       category := patch.category.GetOr(p.category),
       price := patch.price.GetOr(p.price),
       condition := patch.condition.GetOr(p.condition),
       stock := patch.stock.GetOr(p.stock),
       ratingAverage := patch.ratingAverage.GetOr(p.ratingAverage),
       isActive := patch.isActive.GetOr(p.isActive),
       isFeatured := patch.isFeatured.GetOr(p.isFeatured))
  }

  /** A patch that passes the validators keeps a product within its bounds. */
  lemma PatchKeepsBounds(p: Product, patch: ProductPatch)
    requires WithinBounds(p) && PatchValid(patch)
    ensures WithinBounds(Patched(p, patch))
  {
  }

  /** Renaming through an update leaves the old slug: it no longer is the
      slug of the name. */
  lemma RenameKeepsStaleSlug()
    ensures var p := Product(1, "Phone", "phone", "", 0, 100, New, 5, 0, 0, true, false, 0);
      var q := Patched(p, ProductPatch(Some("Tablet"), None, None, None, None, None, None, None, None));
      q.name == "Tablet" && q.slug == "phone"
  {
  }

  /** PUT /api/products/:id (admin only). The validators run before the
      lookup, so an invalid body is a 500 even for an unknown id. */
  method UpdateProduct(db: Store, role: Role, id: ProductId, patch: ProductPatch) returns (code: int)
    requires db.Valid()
    modifies db`products
    ensures db.Valid()
    ensures code != 200 ==> db.products == old(db.products)
    ensures !Authorized(role, {Admin}) ==> code == 403
    ensures Authorized(role, {Admin}) && !PatchValid(patch) ==> code == 500
    ensures Authorized(role, {Admin}) && PatchValid(patch) && FindProduct(old(db.products), id).None? ==> code == 404
    ensures Authorized(role, {Admin}) && PatchValid(patch) && FindProduct(old(db.products), id).Some? ==>
      var k := FindProduct(old(db.products), id).value;
      code == 200 && db.products == old(db.products)[k := Patched(old(db.products)[k], patch)]
  {
    if !Authorized(role, {Admin}) {
      return 403;
    }
    if !PatchValid(patch) {
      return 500;
    }
    var k := FindProduct(db.products, id);
    if k.None? {
      return 404;
    }
    db.products := db.products[k.value := Patched(db.products[k.value], patch)];
    code := 200;
  }

  /** DELETE /api/products/:id (admin only): only that product goes; carts
      and orders that name it are left as they are. */
  method DeleteProduct(db: Store, role: Role, id: ProductId) returns (code: int)
    requires db.Valid()
    modifies db`products
    ensures db.Valid()
    ensures code != 200 ==> db.products == old(db.products)
    ensures !Authorized(role, {Admin}) ==> code == 403
    ensures Authorized(role, {Admin}) && FindProduct(old(db.products), id).None? ==> code == 404
    ensures Authorized(role, {Admin}) && FindProduct(old(db.products), id).Some? ==>
      code == 200 && db.products == RemoveAt(old(db.products), FindProduct(old(db.products), id).value)
    ensures code == 200 ==> forall k :: 0 <= k < |db.products| ==> db.products[k].id != id
  {
    if !Authorized(role, {Admin}) {
      return 403;
    }
    var k := FindProduct(db.products, id);
    if k.None? {
      return 404;
    }
    var ps := db.products;
    db.products := RemoveAt(ps, k.value);
    assert forall j :: 0 <= j < |db.products| ==> db.products[j] == ps[if j < k.value then j else j + 1];
    code := 200;
  }

  /** The products the featured query asks for. */
  predicate Featured(p: Product)
  {
    p.isFeatured && p.isActive
  }

  /** No featured product the first eight leave out is newer than one of them. */
  lemma FeaturedNewest(ps: seq<Product>)
    ensures forall p, k ::
      p in ps && p.isFeatured && p.isActive && p !in Page(ps, Featured, KeyOf(NewestFirst), 0, 8)
      && 0 <= k < |Page(ps, Featured, KeyOf(NewestFirst), 0, 8)|
      ==> p.createdAt <= Page(ps, Featured, KeyOf(NewestFirst), 0, 8)[k].createdAt
  {
    var r := Page(ps, Featured, KeyOf(NewestFirst), 0, 8);
    forall p, k | p in ps && p.isFeatured && p.isActive && p !in r && 0 <= k < |r|
      ensures p.createdAt <= r[k].createdAt
    {
      FirstPageBefore(ps, Featured, KeyOf(NewestFirst), 8, p, k);
    }
  }

  /** The first eight featured products, newest first: as many as there
      are featured products up to eight, each one featured and active. */
  lemma FeaturedPage(ps: seq<Product>)
    ensures |Page(ps, Featured, KeyOf(NewestFirst), 0, 8)| == if Count(ps, Featured) < 8 then Count(ps, Featured) else 8
    ensures forall k :: 0 <= k < |Page(ps, Featured, KeyOf(NewestFirst), 0, 8)| ==>
      var p := Page(ps, Featured, KeyOf(NewestFirst), 0, 8)[k];
      p in ps && p.isFeatured && p.isActive
    ensures forall i, j :: 0 <= i < j < |Page(ps, Featured, KeyOf(NewestFirst), 0, 8)| ==>
      Page(ps, Featured, KeyOf(NewestFirst), 0, 8)[i].createdAt >= Page(ps, Featured, KeyOf(NewestFirst), 0, 8)[j].createdAt
  {
    var key := KeyOf(NewestFirst);
    CountIsFilterLength(ps, Featured);
    var r := Page(ps, Featured, key, 0, 8);
    assert forall i, j :: 0 <= i < j < |r| ==> key(r[i]) <= key(r[j]);
  }

  /** GET /api/products/featured:
      `find({isFeatured: true, isActive: true}).limit(8).sort('-createdAt')`.
      The store sorts before it limits, so these are the eight newest. */
  function GetFeaturedProducts(ps: seq<Product>): (r: seq<Product>)
    ensures |r| == if Count(ps, Featured) < 8 then Count(ps, Featured) else 8
    ensures multiset(r) <= multiset(Filter(ps, Featured))
    ensures forall k :: 0 <= k < |r| ==> r[k] in ps && r[k].isFeatured && r[k].isActive
    ensures forall i, j :: 0 <= i < j < |r| ==> r[i].createdAt >= r[j].createdAt
    ensures forall p, k :: p in ps && p.isFeatured && p.isActive && p !in r && 0 <= k < |r| ==>
      p.createdAt <= r[k].createdAt
  {
    FeaturedPage(ps);
    FeaturedNewest(ps);
    Page(ps, Featured, KeyOf(NewestFirst), 0, 8)
  }
}
