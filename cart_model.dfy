/** The server's cart document (server/src/models/Cart.ts): one cart per
    user, a list of lines that each keep the unit price seen when the line
    was first added, the derived `totalAmount`, and the expiry date. */
module CartModel {
  import opened Ids


  /** A cart line; `id` is the line's own sub-document id. */
  datatype CartItem = CartItem(id: ItemId, product: ProductId, quantity: int, price: int, addedAt: int)

  datatype Cart = Cart(items: seq<CartItem>, totalAmount: int, expiresAt: int)

  /** 30 days in milliseconds, the default lifetime of a new cart. */
  const ExpiryMs: int := 30 * 24 * 60 * 60 * 1000

  /** The line schema: quantity at least 1, price not negative. */
  predicate ValidLine(i: CartItem)
  {
    i.quantity >= 1 && i.price >= 0
  }

  predicate ValidLines(items: seq<CartItem>)
  {
    forall k :: 0 <= k < |items| ==> ValidLine(items[k])
  }

  /** Line ids are pairwise distinct. */
  predicate DistinctIds(items: seq<CartItem>)
  {
    forall i, j :: 0 <= i < j < |items| ==> items[i].id != items[j].id
  }

  /** No product appears on two lines. */
  predicate DistinctProducts(items: seq<CartItem>)
  {
    forall i, j :: 0 <= i < j < |items| ==> items[i].product != items[j].product
  }

  function LineAmount(i: CartItem): int
  {
    i.price * i.quantity
  }

  /** The reduce of the pre-save hook: sum of price times quantity, folded
      from the left starting at 0. */
  function Total(items: seq<CartItem>): (r: int)
    ensures items == [] ==> r == 0
    ensures ValidLines(items) ==> r >= 0
  {
    if items == [] then 0
    else
      var front := items[..|items| - 1];
      assert ValidLines(items) ==> ValidLines(front) && ValidLine(items[|items| - 1]);
      Total(front) + LineAmount(items[|items| - 1])
  }

  lemma {:induction false} TotalAppend(a: seq<CartItem>, b: seq<CartItem>)
    ensures Total(a + b) == Total(a) + Total(b)
    decreases |b|
  {
    if b == [] {
      assert a + b == a;
    } else {
      var b' := b[..|b| - 1];
      assert (a + b)[..|a + b| - 1] == a + b';
      TotalAppend(a, b');
    }
  }

  /** The total of a single line. */
  lemma TotalSingle(x: CartItem)
    ensures Total([x]) == x.price * x.quantity
  {
    assert [x][..0] == [];
  }

  /** Changing one line changes the total by the difference of its amounts. */
  lemma TotalUpdate(items: seq<CartItem>, k: nat, x: CartItem)
    requires k < |items|
    ensures Total(items[k := x]) == Total(items) - LineAmount(items[k]) + LineAmount(x)
  {
    var pre, post := items[..k], items[k + 1..];
    assert items == pre + [items[k]] + post;
    assert items[k := x] == pre + [x] + post;
    TotalAppend(pre + [items[k]], post);
    TotalAppend(pre, [items[k]]);
    TotalAppend(pre + [x], post);
    TotalAppend(pre, [x]);
    TotalSingle(items[k]);
    TotalSingle(x);
  }

  /** The total depends on each line's stored price and quantity only: lines
      that agree on those give the same total, whatever the catalog says. */
  lemma {:induction false} TotalUsesSnapshotsOnly(a: seq<CartItem>, b: seq<CartItem>)
    requires |a| == |b|
    requires forall k :: 0 <= k < |a| ==> a[k].price == b[k].price && a[k].quantity == b[k].quantity
    ensures Total(a) == Total(b)
  {
    if a != [] {
      TotalUsesSnapshotsOnly(a[..|a| - 1], b[..|b| - 1]);
    }
  }

  /** `Cart.create({ user, items: [] })` at time `now`, after its save hook. */
  function NewCart(now: int): (c: Cart)
    ensures c.items == [] && c.totalAmount == 0
    ensures c.expiresAt == now + 2592000000
  {
    Cart([], 0, now + ExpiryMs)
  }

  /** The pre-save hook: only `totalAmount` is written. */
  function Saved(c: Cart): Cart
  {
    c.(totalAmount := Total(c.items))
  }

  /** After a save the total matches the lines, it is not negative for valid
      lines, and the hook leaves the lines and the expiry date alone. */
  lemma SavedShape(c: Cart)
    ensures Saved(c).totalAmount == Total(c.items)
    ensures ValidLines(c.items) ==> Saved(c).totalAmount >= 0
    ensures Saved(c).items == c.items && Saved(c).expiresAt == c.expiresAt
    ensures Saved(Saved(c)) == Saved(c)
  {
  }

  /** An update query that sets `items: []` without running the save hook. */
  function ClearedByQuery(c: Cart): Cart
  {
    c.(items := [])
  }

  /** The query only empties the lines: a cart that held one line of amount
      100 still reports a total of 100. */
  lemma ClearedByQueryKeepsStaleTotal()
    ensures var c := Saved(Cart([CartItem(0, 0, 1, 100, 0)], 0, 0));
      ClearedByQuery(c).items == [] && ClearedByQuery(c).totalAmount == 100
  {
    TotalSingle(CartItem(0, 0, 1, 100, 0));
  }

  /** Emptying the cart through a save, as the cart handler does. */
  function ClearedAndSaved(c: Cart): Cart
  {
    Saved(c.(items := []))
  }

  /** A cart emptied through a save reports a total of 0, keeps its expiry,
      and is consistent with its lines. */
  lemma ClearedAndSavedIsZero(c: Cart)
    ensures var r := ClearedAndSaved(c);
      r.items == [] && r.totalAmount == 0 && r.totalAmount == Total(r.items) && r.expiresAt == c.expiresAt
  {
  }
}
