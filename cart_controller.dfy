/** The cart handlers (server/src/controllers/cartController.ts). Each
    returns the HTTP status it answers with and changes the store only on
    the paths where the handler saves. */
module CartController {
  import opened Wrappers
  import opened Ids
  import opened Seqs
  import opened Catalog
  import opened CartModel
  import opened Db

  /** The lines after adding `quantity` units of `product`: an existing line
      for the product is merged into, otherwise a line is appended that
      snapshots the current `price`. */
  function LinesAfterAdd(items: seq<CartItem>, product: ProductId, quantity: int, price: int,
                         newId: ItemId, now: int): seq<CartItem>
  {
    match FirstIndex(items, (it: CartItem) => it.product == product)
    case Some(j) => items[j := items[j].(quantity := items[j].quantity + quantity)]
    case None => items + [CartItem(newId, product, quantity, price, now)]
  }

  /** Adding a product already in the cart adds to that line's quantity,
      keeps its price snapshot, adds no line and leaves the others alone. */
  lemma AddMergesExisting(items: seq<CartItem>, product: ProductId, quantity: int, price: int,
                          newId: ItemId, now: int, j: nat)
    requires DistinctProducts(items) && j < |items| && items[j].product == product
    ensures var r := LinesAfterAdd(items, product, quantity, price, newId, now);
      |r| == |items| && r[j].quantity == items[j].quantity + quantity
      && r[j].price == items[j].price && r[j].id == items[j].id
      && forall k :: 0 <= k < |items| && k != j ==> r[k] == items[k]
  {
    assert FirstIndex(items, (it: CartItem) => it.product == product) == Some(j);
  }

  /** Adding a product not yet in the cart appends exactly one line with the
      requested quantity and the product's current price. */
  lemma AddAppendsNew(items: seq<CartItem>, product: ProductId, quantity: int, price: int,
                      newId: ItemId, now: int)
    requires forall k :: 0 <= k < |items| ==> items[k].product != product
    ensures var r := LinesAfterAdd(items, product, quantity, price, newId, now);
      |r| == |items| + 1 && r[..|items|] == items
      && r[|items|] == CartItem(newId, product, quantity, price, now)
  {
    var r := LinesAfterAdd(items, product, quantity, price, newId, now);
    assert r == items + [CartItem(newId, product, quantity, price, now)];
    assert r[..|items|] == items;
  }

  /** Adding keeps line ids and products distinct when the new id is fresh. */
  lemma AddKeepsDistinct(items: seq<CartItem>, product: ProductId, quantity: int, price: int,
                         newId: ItemId, now: int)
    requires DistinctIds(items) && DistinctProducts(items)
    requires forall k :: 0 <= k < |items| ==> items[k].id != newId
    ensures var r := LinesAfterAdd(items, product, quantity, price, newId, now);
      DistinctIds(r) && DistinctProducts(r)
  {
  }

  /** The stock test looks at the requested increment only: with 3 in stock
      and 3 already in the cart, adding 3 more passes and the line holds 6. */
  lemma MergedLineCanExceedStock()
    ensures var items := [CartItem(0, 7, 3, 100, 0)];
      var stock := 3;
      !(stock < 3) && LinesAfterAdd(items, 7, 3, 100, 1, 0)[0].quantity == 6 > stock
  {
    var items := [CartItem(0, 7, 3, 100, 0)];
    assert FirstIndex(items, (it: CartItem) => it.product == 7) == Some(0);
  }

  /** The lines after `updateCartItem` sets line `j` to `quantity`. */
  function LinesAfterUpdate(items: seq<CartItem>, j: nat, quantity: int): (r: seq<CartItem>)
    requires j < |items|
    ensures |r| == |items| && r[j].quantity == quantity
    ensures r[j].(quantity := items[j].quantity) == items[j]
    ensures forall k :: 0 <= k < |items| && k != j ==> r[k] == items[k]
  {
    items[j := items[j].(quantity := quantity)]
  }

  /** The lines after `removeFromCart`: those whose id differs. */
  function LinesAfterRemove(items: seq<CartItem>, itemId: ItemId): seq<CartItem>
  {
    Filter(items, (it: CartItem) => it.id != itemId)
  }

  /** Removing keeps exactly the other lines, in order, and removing an id
      that is not in the cart keeps every line. */
  lemma RemoveKeepsOthers(items: seq<CartItem>, itemId: ItemId)
    ensures var r := LinesAfterRemove(items, itemId);
      (forall k :: 0 <= k < |r| ==> r[k].id != itemId)
      && (forall k :: 0 <= k < |items| && items[k].id != itemId ==> items[k] in r)
      && multiset(r) <= multiset(items)
    ensures (forall k :: 0 <= k < |items| ==> items[k].id != itemId) ==> LinesAfterRemove(items, itemId) == items
  {
    if forall k :: 0 <= k < |items| ==> items[k].id != itemId {
      FilterKeepsAll(items, (it: CartItem) => it.id != itemId);
    }
  }

  /** Removing lines keeps the remaining ones valid and distinct. */
  lemma RemoveKeepsValid(items: seq<CartItem>, itemId: ItemId)
    requires ValidLines(items) && DistinctIds(items) && DistinctProducts(items)
    ensures var r := LinesAfterRemove(items, itemId);
      ValidLines(r) && DistinctIds(r) && DistinctProducts(r)
  {
    var r := LinesAfterRemove(items, itemId);
    var f := (it: CartItem) => it.id != itemId;
    assert r == Filter(items, f);
    FilterKeepsProperty(items, f, ValidLine);
    FilterKeepsDistinct(items, f, (it: CartItem) => it.id);
    FilterKeepsDistinct(items, f, (it: CartItem) => it.product);
  }

  /** GET /api/cart: the user's cart, created empty on first access. */
  method GetCart(db: Store, user: UserId, now: int) returns (code: int, cart: Cart)
    requires db.Valid()
    modifies db`carts
    ensures db.Valid() && code == 200
    ensures user in old(db.carts) ==> db.carts == old(db.carts) && cart == db.carts[user]
    ensures user !in old(db.carts) ==> db.carts == old(db.carts)[user := NewCart(now)] && cart == NewCart(now)
  {
    if user in db.carts {
      cart := db.carts[user];
    } else {
      cart := NewCart(now);
      db.carts := db.carts[user := cart];
    }
    code := 200;
  }

  /** POST /api/cart. */
  method AddToCart(db: Store, user: UserId, productId: ProductId, quantity: int, newItemId: ItemId, now: int)
    returns (code: int)
    requires db.Valid()
    requires user in db.carts ==> forall k :: 0 <= k < |db.carts[user].items| ==> db.carts[user].items[k].id != newItemId
    modifies db`carts
    ensures db.Valid()
    ensures FindProduct(db.products, productId).None? ==> code == 404 && db.carts == old(db.carts)
    ensures FindProduct(db.products, productId).Some? && db.products[FindProduct(db.products, productId).value].stock < quantity
      ==> code == 400 && db.carts == old(db.carts)
    ensures FindProduct(db.products, productId).Some? && db.products[FindProduct(db.products, productId).value].stock >= quantity
      ==> var p := db.products[FindProduct(db.products, productId).value];
          var base := if user in old(db.carts) then old(db.carts)[user] else NewCart(now);
          var lines := LinesAfterAdd(base.items, productId, quantity, p.price, newItemId, now);
          (ValidLines(lines) ==> code == 200 && db.carts == old(db.carts)[user := Saved(base.(items := lines))])
          && (!ValidLines(lines) ==> code == 500 && db.carts == old(db.carts)[user := base])
  {
    var k := FindProduct(db.products, productId);
    if k.None? {
      return 404;
    }
    var product := db.products[k.value];
    if product.stock < quantity {
      return 400;
    }
    if user !in db.carts {
      PutCartValid(db.carts, user, NewCart(now));
      db.carts := db.carts[user := NewCart(now)];
    }
    var cart := db.carts[user];
    AddKeepsDistinct(cart.items, productId, quantity, product.price, newItemId, now);
    var lines := LinesAfterAdd(cart.items, productId, quantity, product.price, newItemId, now);
    if !ValidLines(lines) {
      return 500;
    }
    PutCartValid(db.carts, user, Saved(cart.(items := lines)));
    db.carts := db.carts[user := Saved(cart.(items := lines))];
    code := 200;
  }

  /** PUT /api/cart/:itemId. */
  method UpdateCartItem(db: Store, user: UserId, itemId: ItemId, quantity: int) returns (code: int)
    requires db.Valid()
    modifies db`carts
    ensures db.Valid()
    ensures user !in old(db.carts) ==> code == 404 && db.carts == old(db.carts)
    ensures user in old(db.carts) ==>
      var c := old(db.carts)[user];
      match FirstIndex(c.items, (it: CartItem) => it.id == itemId)
      case None => code == 404 && db.carts == old(db.carts)
      case Some(j) =>
        var pk := FindProduct(db.products, c.items[j].product);
        if pk.Some? && db.products[pk.value].stock < quantity then
          code == 400 && db.carts == old(db.carts)
        else if quantity < 1 then
          code == 500 && db.carts == old(db.carts)
        else
          code == 200 && db.carts == old(db.carts)[user := Saved(c.(items := LinesAfterUpdate(c.items, j, quantity)))]
  {
    if user !in db.carts {
      return 404;
    }
    var cart := db.carts[user];
    var j := FirstIndex(cart.items, (it: CartItem) => it.id == itemId);
    if j.None? {
      return 404;
    }
    var pk := FindProduct(db.products, cart.items[j.value].product);
    if pk.Some? && db.products[pk.value].stock < quantity {
      return 400;
    }
    var lines := LinesAfterUpdate(cart.items, j.value, quantity);
    if !ValidLines(lines) {
      return 500;
    }
    PutCartValid(db.carts, user, Saved(cart.(items := lines)));
    db.carts := db.carts[user := Saved(cart.(items := lines))];
    code := 200;
  }

  /** DELETE /api/cart/:itemId. */
  method RemoveFromCart(db: Store, user: UserId, itemId: ItemId) returns (code: int)
    requires db.Valid()
    modifies db`carts
    ensures db.Valid()
    ensures user !in old(db.carts) ==> code == 404 && db.carts == old(db.carts)
    ensures user in old(db.carts) ==>
      code == 200 && db.carts == old(db.carts)[user := Saved(old(db.carts)[user].(items := LinesAfterRemove(old(db.carts)[user].items, itemId)))]
  {
    if user !in db.carts {
      return 404;
    }
    var cart := db.carts[user];
    var lines := LinesAfterRemove(cart.items, itemId);
    RemoveKeepsValid(cart.items, itemId);
    db.carts := db.carts[user := Saved(cart.(items := lines))];
    code := 200;
  }

  /** DELETE /api/cart. */
  method ClearCart(db: Store, user: UserId) returns (code: int)
    requires db.Valid()
    modifies db`carts
    ensures db.Valid()
    ensures user !in old(db.carts) ==> code == 404 && db.carts == old(db.carts)
    ensures user in old(db.carts) ==>
      code == 200 && db.carts == old(db.carts)[user := ClearedAndSaved(old(db.carts)[user])]
    ensures user in old(db.carts) ==> db.carts[user].items == [] && db.carts[user].totalAmount == 0
  {
    if user !in db.carts {
      return 404;
    }
    db.carts := db.carts[user := ClearedAndSaved(db.carts[user])];
    code := 200;
  }
}
