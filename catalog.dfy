/** The catalog documents: products (server/src/models/Product.ts) and
    categories (server/src/models/Category.ts), their schema bounds and the
    slug assigned by their save hooks. Money is an integer amount in the
    smallest currency unit; a rating average is in hundredths of a star. */
module Catalog {
  import opened Ids
  import opened Wrappers
  import opened Text
  import opened Slug


  datatype Condition = New | Refurbished | Used

  /** The stored spelling of each condition. */
  function ConditionName(c: Condition): string
  {
    match c
    case New => "new"
    case Refurbished => "refurbished"
    case Used => "used"
  }

  /** The condition enum validator: exactly the three spellings are accepted. */
  function ParseCondition(s: string): (r: Option<Condition>)
    ensures r.Some? ==> ConditionName(r.value) == s
    ensures forall c :: s == ConditionName(c) ==> r == Some(c)
  {
    if s == "new" then Some(New)
    else if s == "refurbished" then Some(Refurbished)
    else if s == "used" then Some(Used)
    else None
  }

  /** `ratings.average` is stored in hundredths, so 5 stars is 500. */
  const MaxRating: int := 500

  datatype Product = Product(
    id: ProductId,
    name: string,
    slug: string,
    description: string,
    category: CategoryId,
    price: int,
    condition: Condition,
    stock: int,
    ratingAverage: int,
    ratingCount: int,
    isActive: bool,
    isFeatured: bool,
    createdAt: int)

  /** The schema minimums and maximums: stock and price at least 0, the
      rating average between 0 and 5 stars. */
  predicate WithinBounds(p: Product)
  {
    p.stock >= 0 && p.price >= 0 && 0 <= p.ratingAverage <= MaxRating
  }

  /** The product pre-save hook: the slug is recomputed from the name only
      when the name was modified. */
  function ProductSaveHook(p: Product, nameModified: bool): Product
  {
    if nameModified then p.(slug := Slugify(p.name)) else p
  }

  /** After the hook every field but the slug is as before; the slug is a
      well-formed slug of the name when the name changed, else untouched. */
  lemma ProductHookShape(p: Product, nameModified: bool)
    ensures ProductSaveHook(p, nameModified).(slug := p.slug) == p
    ensures !nameModified ==> ProductSaveHook(p, nameModified) == p
    ensures nameModified ==> var s := ProductSaveHook(p, nameModified).slug;
      SlugChars(s) && NoEdgeHyphen(s) && NoDoubleHyphen(s)
  {
    SlugShape(p.name);
  }

  /** Saving twice with the name marked modified gives the same document. */
  lemma ProductHookIdempotent(p: Product)
    ensures ProductSaveHook(ProductSaveHook(p, true), true) == ProductSaveHook(p, true)
  {
  }

  datatype Category = Category(
    name: string,
    slug: string,
    parent: Option<CategoryId>,
    isActive: bool,
    order: int)

  /** The category pre-save hook, the same transformation as for products. */
  function CategorySaveHook(c: Category, nameModified: bool): Category
  {
    if nameModified then c.(slug := Slugify(c.name)) else c
  }

  /** Category slugs have the shape of product slugs, and re-slugging a slug
      changes nothing. */
  lemma CategoryHookShape(c: Category)
    ensures var s := CategorySaveHook(c, true).slug;
      SlugChars(s) && NoEdgeHyphen(s) && NoDoubleHyphen(s) && Slugify(s) == s
    ensures CategorySaveHook(c, false) == c
  {
    SlugShape(c.name);
    SlugIdempotent(c.name);
  }

  /** Both `name` and `slug` carry a unique index. */
  ghost predicate UniqueNamesAndSlugs(cats: map<CategoryId, Category>)
  {
    forall a, b :: a in cats && b in cats && a != b ==>
      cats[a].name != cats[b].name && cats[a].slug != cats[b].slug
  }

  lemma CollapseHiFi()
    ensures Collapse("hi fi") == "hi-fi"
  {
    var rest := [' '] + "fi";
    CollapseFixes("fi", true);
    assert rest[1..] == "fi";
    CollapseAlnumPrefix("hi", rest);
    assert "hi" + rest == "hi fi";
  }

  lemma SlugOfSpacedName()
    ensures Slugify("Hi Fi") == "hi-fi"
  {
    assert Lower("Hi Fi") == "hi fi";
    CollapseHiFi();
    assert TrimEdges("hi-fi") == "hi-fi";
  }

  lemma SlugOfHyphenatedName()
    ensures Slugify("hi-fi") == "hi-fi"
  {
    SlugOfSpacedName();
    SlugIdempotent("Hi Fi");
  }

  /** Two different names can share a slug, so the unique slug index rejects
      a second category whose name the unique name index accepts. */
  lemma SlugCollision()
    ensures "Hi Fi" != "hi-fi"
    ensures Slugify("Hi Fi") == Slugify("hi-fi") == "hi-fi"
  {
    assert "Hi Fi"[0] != "hi-fi"[0];
    SlugOfSpacedName();
    SlugOfHyphenatedName();
  }

  /** Hence no store can hold both categories once their hooks have run. */
  lemma SlugCollisionBlocksSecond(cats: map<CategoryId, Category>, a: CategoryId, b: CategoryId)
    requires a in cats && b in cats && a != b
    requires cats[a] == CategorySaveHook(Category("Hi Fi", "", None, true, 0), true)
    requires cats[b] == CategorySaveHook(Category("hi-fi", "", None, true, 0), true)
    ensures !UniqueNamesAndSlugs(cats)
  {
    SlugCollision();
  }
}
