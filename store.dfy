/** The in-memory document store the handlers run against: the product and
    order collections in their natural (insertion) order, carts keyed by
    their unique `user`, users keyed by id. Each handler is one atomic step
    over it. */
module Db {
  import opened Wrappers
  import opened Ids
  import opened Seqs
  import opened Catalog
  import opened CartModel
  import opened OrderModel
  import opened Users

  /** Product ids are unique. */
  ghost predicate ProductIdsDistinct(ps: seq<Product>)
  {
    forall i, j :: 0 <= i < j < |ps| ==> ps[i].id != ps[j].id
  }

  /** Every stored cart passed the line validators, and its lines have
      distinct ids and distinct products. */
  ghost predicate CartsValid(carts: map<UserId, Cart>)
  {
    forall u :: u in carts ==>
      ValidLines(carts[u].items) && DistinctIds(carts[u].items) && DistinctProducts(carts[u].items)
  }

  /** Storing a valid cart for a user keeps the carts valid. */
  lemma PutCartValid(carts: map<UserId, Cart>, user: UserId, c: Cart)
    requires CartsValid(carts)
    requires ValidLines(c.items) && DistinctIds(c.items) && DistinctProducts(c.items)
    ensures CartsValid(carts[user := c])
  {
  }

  /** Every stored order passed the validators; ids and order numbers
      (a unique index) are distinct. */
  ghost predicate OrdersValid(os: seq<Order>)
  {
    (forall k :: 0 <= k < |os| ==> ValidOrder(os[k]))
    && (forall i, j :: 0 <= i < j < |os| ==> os[i].id != os[j].id && os[i].orderNumber != os[j].orderNumber)
  }

  /** `email` is a unique index. */
  ghost predicate EmailsDistinct(users: map<UserId, User>)
  {
    forall a, b :: a in users && b in users && a != b ==> users[a].email != users[b].email
  }

  /** A handler's answer: the status code and the document sent, if any. */
  datatype Reply<T> = Reply(code: int, data: Option<T>)

  class Store {
    var products: seq<Product>
    var carts: map<UserId, Cart>
    var orders: seq<Order>
    var users: map<UserId, User>

    ghost predicate Valid()
      reads this
    {
      ProductIdsDistinct(products) && CartsValid(carts) && OrdersValid(orders) && EmailsDistinct(users)
    }

    constructor ()
      ensures Valid()
      ensures products == [] && carts == map[] && orders == [] && users == map[]
    {
      products, carts, orders, users := [], map[], [], map[];
    }
  }

  /** `Product.findById`: the position of the product with that id. */
  function FindProduct(ps: seq<Product>, id: ProductId): (r: Option<nat>)
    ensures r.Some? ==> r.value < |ps| && ps[r.value].id == id
    ensures r.None? <==> forall k :: 0 <= k < |ps| ==> ps[k].id != id
  {
    FirstIndex(ps, (p: Product) => p.id == id)
  }

  /** `Order.findById`. */
  function FindOrder(os: seq<Order>, id: OrderId): (r: Option<nat>)
    ensures r.Some? ==> r.value < |os| && os[r.value].id == id
    ensures r.None? <==> forall k :: 0 <= k < |os| ==> os[k].id != id
  {
    FirstIndex(os, (o: Order) => o.id == id)
  }

  /** With distinct ids the position found is the only one with that id. */
  lemma FoundProductIsUnique(ps: seq<Product>, id: ProductId, k: nat)
    requires ProductIdsDistinct(ps) && k < |ps| && ps[k].id == id
    ensures FindProduct(ps, id) == Some(k)
  {
  }
}
