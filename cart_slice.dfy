/** The client's cart reducer (client/src/store/slices/cartSlice.ts). Each
    line holds the whole product record it was first added with, and the
    total is recomputed from those records after every reducer. */
module CartSlice {
  import opened Wrappers
  import opened Seqs
  import opened ClientTypes

  datatype Line = Line(product: ClientProduct, quantity: int)

  /** `calculateTotal`: price of the line's product record times quantity,
      folded from the left starting at 0. */
  function CalculateTotal(items: seq<Line>): (r: int)
    ensures items == [] ==> r == 0
  {
    if items == [] then 0
    else CalculateTotal(items[..|items| - 1]) + items[|items| - 1].product.price * items[|items| - 1].quantity
  }

  /** The total of a concatenation is the sum of the totals. */
  lemma {:induction false} TotalAppend(a: seq<Line>, b: seq<Line>)
    ensures CalculateTotal(a + b) == CalculateTotal(a) + CalculateTotal(b)
    decreases |b|
  {
    if b == [] {
      assert a + b == a;
    } else {
      assert (a + b)[..|a + b| - 1] == a + b[..|b| - 1];
      TotalAppend(a, b[..|b| - 1]);
    }
  }

  /** Replacing one line changes the total by the difference of the lines. */
  lemma TotalUpdate(items: seq<Line>, k: nat, x: Line)
    requires k < |items|
    ensures CalculateTotal(items[k := x])
      == CalculateTotal(items) - items[k].product.price * items[k].quantity + x.product.price * x.quantity
  {
    assert items == items[..k] + [items[k]] + items[k + 1..];
    assert items[k := x] == items[..k] + [x] + items[k + 1..];
    TotalAppend(items[..k] + [items[k]], items[k + 1..]);
    TotalAppend(items[..k] + [x], items[k + 1..]);
    TotalAppend(items[..k], [items[k]]);
    TotalAppend(items[..k], [x]);
    assert CalculateTotal([x]) == x.product.price * x.quantity by {
      assert [x][..0] == [];
    }
    assert CalculateTotal([items[k]]) == items[k].product.price * items[k].quantity by {
      assert [items[k]][..0] == [];
    }
  }

  /** Product ids on the lines are pairwise distinct. */
  predicate DistinctProducts(items: seq<Line>)
  {
    forall i, j :: 0 <= i < j < |items| ==> items[i].product.id != items[j].product.id
  }

  /** The lines after `addToCart(p)`: one more of an existing product, or a
      new line of one. */
  function AfterAdd(items: seq<Line>, p: ClientProduct): seq<Line>
  {
    match FirstIndex(items, (l: Line) => l.product.id == p.id)
    case Some(j) => items[j := items[j].(quantity := items[j].quantity + 1)]
    case None => items + [Line(p, 1)]
  }

  /** Adding a product that is present adds one to its line and keeps the
      length and its product record; adding a new product appends
      quantity 1; product ids stay distinct. */
  lemma AddShape(items: seq<Line>, p: ClientProduct)
    requires DistinctProducts(items)
    ensures var r := AfterAdd(items, p);
      DistinctProducts(r)
      && ((exists j :: 0 <= j < |items| && items[j].product.id == p.id) ==>
            |r| == |items| && forall j :: 0 <= j < |items| ==>
              r[j] == if items[j].product.id == p.id then items[j].(quantity := items[j].quantity + 1) else items[j])
      && ((forall j :: 0 <= j < |items| ==> items[j].product.id != p.id) ==> r == items + [Line(p, 1)])
  {
  }

  /** The record stored on first add is the one priced: adding the same
      product again with a new price leaves the total on the old price. */
  lemma TotalKeepsFirstRecordPrice()
    ensures var old' := ClientProduct("p1", "Phone", "", CategoryIdString("c"), 100, Catalog.New, None, 0);
      var new' := old'.(price := 150);
      CalculateTotal(AfterAdd(AfterAdd([], old'), new')) == 200
  {
    var old' := ClientProduct("p1", "Phone", "", CategoryIdString("c"), 100, Catalog.New, None, 0);
    var new' := old'.(price := 150);
    var once := AfterAdd([], old');
    assert once == [Line(old', 1)];
    assert FirstIndex(once, (l: Line) => l.product.id == new'.id) == Some(0);
    assert AfterAdd(once, new') == [Line(old', 2)];
    assert [Line(old', 2)][..0] == [];
  }

  /** The lines after `removeFromCart(id)`: every line of another product. */
  function AfterRemove(items: seq<Line>, id: string): seq<Line>
  {
    Filter(items, (l: Line) => l.product.id != id)
  }

  /** Removing drops every line with that id, keeps the others, and keeps
      ids distinct. */
  lemma RemoveShape(items: seq<Line>, id: string)
    requires DistinctProducts(items)
    ensures var r := AfterRemove(items, id);
      DistinctProducts(r) && (forall k :: 0 <= k < |r| ==> r[k].product.id != id)
      && (forall k :: 0 <= k < |items| && items[k].product.id != id ==> items[k] in r)
  {
    var f := (l: Line) => l.product.id != id;
    assert AfterRemove(items, id) == Filter(items, f);
    FilterKeepsDistinct(items, f, (l: Line) => l.product.id);
  }

  /** The lines after `updateQuantity(id, q)`: nothing for an unknown id,
      the line removed for `q <= 0`, else that line's quantity set. */
  function AfterUpdate(items: seq<Line>, id: string, q: int): seq<Line>
  {
    match FirstIndex(items, (l: Line) => l.product.id == id)
    case None => items
    case Some(j) => if q <= 0 then AfterRemove(items, id) else items[j := items[j].(quantity := q)]
  }

  /** Updating keeps ids distinct; a positive quantity sets exactly that
      line; a quantity of 0 or less removes it. */
  lemma UpdateShape(items: seq<Line>, id: string, q: int)
    requires DistinctProducts(items)
    ensures var r := AfterUpdate(items, id, q);
      DistinctProducts(r)
      && ((forall j :: 0 <= j < |items| ==> items[j].product.id != id) ==> r == items)
      && (q <= 0 ==> forall k :: 0 <= k < |r| ==> r[k].product.id != id)
      && (q > 0 ==> |r| == |items| && forall j :: 0 <= j < |items| ==>
            r[j] == if items[j].product.id == id then items[j].(quantity := q) else items[j])
  {
    RemoveShape(items, id);
  }

  /** The slice state: the lines and their total. */
  class CartState {
    var items: seq<Line>
    var total: int

    /** The total agrees with the lines and product ids are distinct. */
    ghost predicate Valid()
      reads this
    {
      total == CalculateTotal(items) && DistinctProducts(items)
    }

    /** The state when nothing was saved: no lines, total 0. */
    constructor ()
      ensures Valid() && items == [] && total == 0
    {
      items, total := [], 0;
    }

    method AddToCart(p: ClientProduct)
      requires Valid()
      modifies this
      ensures Valid()
      ensures items == AfterAdd(old(items), p)
    {
      AddShape(items, p);
      var j := FirstIndex(items, (l: Line) => l.product.id == p.id);
      if j.Some? {
        items := items[j.value := items[j.value].(quantity := items[j.value].quantity + 1)];
      } else {
        items := items + [Line(p, 1)];
      }
      total := CalculateTotal(items);
    }

    method RemoveFromCart(id: string)
      requires Valid()
      modifies this
      ensures Valid()
      ensures items == AfterRemove(old(items), id)
    {
      RemoveShape(items, id);
      items := Filter(items, (l: Line) => l.product.id != id);
      total := CalculateTotal(items);
    }

    method UpdateQuantity(id: string, q: int)
      requires Valid()
      modifies this
      ensures Valid()
      ensures items == AfterUpdate(old(items), id, q)
    {
      UpdateShape(items, id, q);
      var j := FirstIndex(items, (l: Line) => l.product.id == id);
      if j.Some? {
        if q <= 0 {
          items := Filter(items, (l: Line) => l.product.id != id);
        } else {
          items := items[j.value := items[j.value].(quantity := q)];
        }
      }
      total := CalculateTotal(items);
    }

    method ClearCart()
      requires Valid()
      modifies this
      ensures Valid()
      ensures items == [] && total == 0
    {
      items := [];
      total := 0;
    }
  }
}
