/** The order handlers (server/src/controllers/orderController.ts) with the
    route guards of server/src/routes/orders.ts. Stock bookkeeping is
    stated pointwise: after adjusting by the lines `items`, each product's
    stock moves by the total quantity the lines name for its id. */
module OrderController {
  import opened Wrappers
  import opened Ids
  import opened Seqs
  import opened Sorting
  import opened Paging
  import opened Catalog
  import opened CartModel
  import opened OrderModel
  import opened Users
  import opened Db

  /** Total quantity the lines order of product `pid`. */
  function QtyOf(items: seq<OrderItem>, pid: ProductId): int
  {
    if items == [] then 0
    else QtyOf(items[..|items| - 1], pid) + (if items[|items| - 1].product == pid then items[|items| - 1].quantity else 0)
  }

  /** The catalog after applying `$inc: sign * quantity` for every line. */
  function Restocked(ps: seq<Product>, items: seq<OrderItem>, sign: int): (r: seq<Product>)
    ensures |r| == |ps|
    ensures forall k :: 0 <= k < |ps| ==> r[k] == ps[k].(stock := ps[k].stock + sign * QtyOf(items, ps[k].id))
  {
    seq(|ps|, k requires 0 <= k < |ps| => ps[k].(stock := ps[k].stock + sign * QtyOf(items, ps[k].id)))
  }

  /** Taking the lines' quantities out of stock and putting them back
      restores the catalog: create followed by cancel is a round trip. */
  lemma RestockRoundTrip(ps: seq<Product>, items: seq<OrderItem>)
    ensures Restocked(Restocked(ps, items, -1), items, 1) == ps
  {
    var mid := Restocked(ps, items, -1);
    var r := Restocked(mid, items, 1);
    forall k | 0 <= k < |ps| ensures r[k] == ps[k] {
      assert mid[k].id == ps[k].id;
    }
  }

  /** Adjusting stock changes no product id. */
  lemma RestockedKeepsIds(ps: seq<Product>, items: seq<OrderItem>, sign: int)
    requires ProductIdsDistinct(ps)
    ensures ProductIdsDistinct(Restocked(ps, items, sign))
  {
  }

  /** With distinct product lines, the quantity ordered of a product is that
      of its one line, or 0. */
  lemma {:induction false} QtyOfDistinct(items: seq<OrderItem>, pid: ProductId)
    requires forall i, j :: 0 <= i < j < |items| ==> items[i].product != items[j].product
    ensures (forall j :: 0 <= j < |items| ==> items[j].product != pid) ==> QtyOf(items, pid) == 0
    ensures forall j :: 0 <= j < |items| && items[j].product == pid ==> QtyOf(items, pid) == items[j].quantity
  {
    if items != [] {
      var init := items[..|items| - 1];
      QtyOfDistinct(init, pid);
      assert forall j :: 0 <= j < |init| ==> init[j] == items[j];
    }
  }

  /** Why the stock check rejects line `it`: 404 for a missing product, 400
      for too little stock. */
  function LineError(ps: seq<Product>, it: OrderItem): (r: Option<int>)
    ensures r.None? <==> FindProduct(ps, it.product).Some? && ps[FindProduct(ps, it.product).value].stock >= it.quantity
    ensures r == Some(404) <==> FindProduct(ps, it.product).None?
  {
    match FindProduct(ps, it.product)
    case None => Some(404)
    case Some(k) => if ps[k].stock < it.quantity then Some(400) else None
  }

  /** The answer of the stock-check loop: the error of the first rejected
      line, if any. */
  function FirstStockError(ps: seq<Product>, items: seq<OrderItem>): (r: Option<int>)
    ensures r.None? <==> forall k :: 0 <= k < |items| ==> LineError(ps, items[k]).None?
    ensures r.Some? ==>
      exists j :: 0 <= j < |items| && LineError(ps, items[j]) == r && forall i :: 0 <= i < j ==> LineError(ps, items[i]).None?
  {
    match FirstIndex(items, (it: OrderItem) => LineError(ps, it).Some?)
    case None => None
    case Some(j) => LineError(ps, items[j])
  }

  /** When every line has distinct products and the check passes, no stock
      that was non-negative goes negative. */
  lemma DistinctLinesKeepStock(ps: seq<Product>, items: seq<OrderItem>)
    requires ProductIdsDistinct(ps)
    requires forall i, j :: 0 <= i < j < |items| ==> items[i].product != items[j].product
    requires FirstStockError(ps, items).None?
    ensures forall k :: 0 <= k < |ps| && ps[k].stock >= 0 ==> Restocked(ps, items, -1)[k].stock >= 0
  {
    forall k | 0 <= k < |ps| && ps[k].stock >= 0 ensures Restocked(ps, items, -1)[k].stock >= 0 {
      QtyOfDistinct(items, ps[k].id);
      forall j | 0 <= j < |items| && items[j].product == ps[k].id ensures ps[k].stock >= items[j].quantity {
        assert LineError(ps, items[j]).None?;
        FoundProductIsUnique(ps, ps[k].id, k);
      }
    }
  }

  /** The check looks at each line alone, so two lines for one product can
      together take more than is in stock: 5 in stock, two lines of 3 pass
      and leave -1. */
  lemma PerLineCheckCanOversell()
    ensures var p := Product(1, "Phone", "phone", "", 0, 100, New, 5, 0, 0, true, false, 0);
      var line := OrderItem(1, "Phone", "phone.png", 3, 100, 300);
      FirstStockError([p], [line, line]).None? && Restocked([p], [line, line], -1)[0].stock == -1
  {
    var p := Product(1, "Phone", "phone", "", 0, 100, New, 5, 0, 0, true, false, 0);
    var line := OrderItem(1, "Phone", "phone.png", 3, 100, 300);
    assert FindProduct([p], 1) == Some(0);
    assert LineError([p], line).None?;
    assert [line, line][..1] == [line];
    assert [line][..0] == [];
    assert QtyOf([line], 1) == 3;
    assert QtyOf([line, line], 1) == 6;
  }

  /** The catalog after `$inc: {stock: delta}` on the product with id `pid`. */
  function Bumped(ps: seq<Product>, pid: ProductId, delta: int): (r: seq<Product>)
    ensures |r| == |ps|
    ensures forall k :: 0 <= k < |ps| ==> r[k] == ps[k].(stock := ps[k].stock + if ps[k].id == pid then delta else 0)
  {
    seq(|ps|, k requires 0 <= k < |ps| => ps[k].(stock := ps[k].stock + if ps[k].id == pid then delta else 0))
  }

  /** One more line is one more bump. */
  lemma RestockedSnoc(ps: seq<Product>, items: seq<OrderItem>, i: nat, sign: int)
    requires i < |items|
    ensures Restocked(ps, items[..i + 1], sign)
      == Bumped(Restocked(ps, items[..i], sign), items[i].product, sign * items[i].quantity)
  {
    assert items[..i + 1][..i] == items[..i];
    var lhs := Restocked(ps, items[..i + 1], sign);
    var rhs := Bumped(Restocked(ps, items[..i], sign), items[i].product, sign * items[i].quantity);
    forall k | 0 <= k < |ps| ensures lhs[k] == rhs[k] {
      assert Restocked(ps, items[..i], sign)[k].id == ps[k].id;
    }
  }

  /** `findByIdAndUpdate(item.product, {$inc: {stock: sign * quantity}})`
      for each line in turn; a line whose product is gone changes nothing. */
  method AdjustStock(db: Store, items: seq<OrderItem>, sign: int)
    requires db.Valid()
    modifies db`products
    ensures db.Valid()
    ensures db.products == Restocked(old(db.products), items, sign)
  {
    ghost var ps := db.products;
    var i := 0;
    while i < |items|
      invariant 0 <= i <= |items|
      invariant db.products == Restocked(ps, items[..i], sign)
    {
      var pid := items[i].product;
      var delta := sign * items[i].quantity;
      RestockedSnoc(ps, items, i, sign);
      db.products := Bumped(db.products, pid, delta);
      i := i + 1;
    }
    assert items[..|items|] == items;
    RestockedKeepsIds(ps, items, sign);
  }

  /** The stock-check loop: the first line whose product is missing (404)
      or short of stock (400) decides the answer. */
  method CheckStock(ps: seq<Product>, items: seq<OrderItem>) returns (e: Option<int>)
    ensures e == FirstStockError(ps, items)
  {
    var i := 0;
    while i < |items|
      invariant 0 <= i <= |items|
      invariant forall k :: 0 <= k < i ==> LineError(ps, items[k]).None?
    {
      var r := LineError(ps, items[i]);
      if r.Some? {
        return r;
      }
      i := i + 1;
    }
    return None;
  }

  /** Appending an order with a fresh id and a new number keeps the order
      collection valid. */
  lemma AppendOrderValid(os: seq<Order>, o: Order)
    requires OrdersValid(os) && ValidOrder(o)
    requires forall k :: 0 <= k < |os| ==> os[k].id != o.id && os[k].orderNumber != o.orderNumber
    ensures OrdersValid(os + [o])
  {
  }

  /** Replacing an order by one with the same id, number and validated
      fields keeps the order collection valid. */
  lemma ReplaceOrderValid(os: seq<Order>, j: nat, o: Order)
    requires OrdersValid(os) && j < |os|
    requires o.id == os[j].id && o.orderNumber == os[j].orderNumber && ValidOrder(o)
    ensures OrdersValid(os[j := o])
  {
  }

  /** The checks `orderValidation` makes before the handler: at least one
      line, every shipping field present and a known payment method. */
  predicate RequestValid(items: seq<OrderItem>, shipping: ShippingAddress, payMethod: string)
  {
    |items| >= 1 && ValidShipping(shipping) && ParsePaymentMethod(payMethod).Some?
  }

  /** The document `Order.create` stores: status `pending`, the supplied
      items, address, payment and pricing, and the one history entry the
      pre-save hook adds for the new status. */
  function CreatedOrder(id: OrderId, number: string, caller: UserId, items: seq<OrderItem>,
                        shipping: ShippingAddress, payment: PaymentInfo, pricing: Pricing, now: int): (o: Order)
    ensures o.status == Pending && o.statusHistory == [HistoryEntry(Pending, now, "")]
    ensures o.items == items && o.pricing == pricing && o.user == caller && o.orderNumber == number
  {
    Order(id, number, caller, items, shipping, payment, pricing, Pending, "", [HistoryEntry(Pending, now, "")], now)
  }

  /** The stored carts after `Cart.findOneAndUpdate({user}, {items: []})`. */
  function CartsCleared(carts: map<UserId, Cart>, user: UserId): (r: map<UserId, Cart>)
    ensures r.Keys == carts.Keys
    ensures user in carts ==> r[user].items == [] && r[user].totalAmount == carts[user].totalAmount
    ensures forall u :: u in carts && u != user ==> r[u] == carts[u]
  {
    if user in carts then carts[user := ClearedByQuery(carts[user])] else carts
  }

  /** `Order.create` would store the order: the payment status is one of
      the spellings, every line and the pricing pass their minimums, and the
      order number is not taken (a unique index). */
  predicate Creatable(os: seq<Order>, number: string, items: seq<OrderItem>, payStatus: string, pricing: Pricing)
  {
    ParsePaymentStatus(payStatus).Some?
    && (forall k :: 0 <= k < |items| ==> ValidOrderItem(items[k]))
    && ValidPricing(pricing)
    && forall k :: 0 <= k < |os| ==> os[k].orderNumber != number
  }

  /** Emptying one cart's lines keeps the carts valid. */
  lemma CartsClearedValid(carts: map<UserId, Cart>, user: UserId)
    requires CartsValid(carts)
    ensures CartsValid(CartsCleared(carts, user))
  {
  }

  /** POST /api/orders. */
  method CreateOrder(db: Store, caller: UserId, items: seq<OrderItem>, shipping: ShippingAddress,
                     payMethod: string, transactionId: string, payStatus: string, pricing: Pricing,
                     newId: OrderId, timestamp36: string, random4: string, now: int)
    returns (code: int)
    requires db.Valid()
    requires forall k :: 0 <= k < |db.orders| ==> db.orders[k].id != newId
    modifies db`products, db`orders, db`carts
    ensures db.Valid()
    ensures code != 201 ==> db.products == old(db.products) && db.orders == old(db.orders) && db.carts == old(db.carts)
    ensures !RequestValid(items, shipping, payMethod) ==> code == 400
    ensures RequestValid(items, shipping, payMethod) && FirstStockError(old(db.products), items).Some?
      ==> code == FirstStockError(old(db.products), items).value
    ensures RequestValid(items, shipping, payMethod) && FirstStockError(old(db.products), items).None?
      && !Creatable(old(db.orders), OrderNumber(timestamp36, random4), items, payStatus, pricing)
      ==> code == 500
    ensures RequestValid(items, shipping, payMethod) && FirstStockError(old(db.products), items).None?
      && Creatable(old(db.orders), OrderNumber(timestamp36, random4), items, payStatus, pricing)
      ==> code == 201
    ensures code == 201 ==>
      db.orders == old(db.orders) + [CreatedOrder(newId, OrderNumber(timestamp36, random4), caller, items, shipping,
        PaymentInfo(ParsePaymentMethod(payMethod).value, transactionId, ParsePaymentStatus(payStatus).value), pricing, now)]
      && db.products == Restocked(old(db.products), items, -1)
      && db.carts == CartsCleared(old(db.carts), caller)
  {
    if !RequestValid(items, shipping, payMethod) {
      return 400;
    }
    var e := CheckStock(db.products, items);
    if e.Some? {
      return e.value;
    }
    var number := OrderNumber(timestamp36, random4);
    if !Creatable(db.orders, number, items, payStatus, pricing) {
      return 500;
    }
    var payment := PaymentInfo(ParsePaymentMethod(payMethod).value, transactionId, ParsePaymentStatus(payStatus).value);
    var draft := Order(newId, number, caller, items, shipping, payment, pricing, Pending, "", [], now);
    var order := PreSave(draft, true, number, now);
    assert order == CreatedOrder(newId, number, caller, items, shipping, payment, pricing, now);
    PlaceOrder(db, caller, order);
    code := 201;
  }

  /** The writes after the checks: store the order, take its lines out of
      stock, and empty the caller's cart by an update query. */
  method PlaceOrder(db: Store, caller: UserId, order: Order)
    requires db.Valid() && ValidOrder(order)
    requires forall k :: 0 <= k < |db.orders| ==> db.orders[k].id != order.id && db.orders[k].orderNumber != order.orderNumber
    modifies db`products, db`orders, db`carts
    ensures db.Valid()
    ensures db.orders == old(db.orders) + [order]
    ensures db.products == Restocked(old(db.products), order.items, -1)
    ensures db.carts == CartsCleared(old(db.carts), caller)
  {
    AppendOrderValid(db.orders, order);
    db.orders := db.orders + [order];
    AdjustStock(db, order.items, -1);
    CartsClearedValid(db.carts, caller);
    db.carts := CartsCleared(db.carts, caller);
  }

  /** The order after a successful cancel: the handler's entry, then the
      hook's entry when the status actually changed. */
  function CancelledOrder(o: Order, now: int): (r: Order)
    ensures r.status == Cancelled && HistoryExtends(o.statusHistory, r.statusHistory)
    ensures |r.statusHistory| == |o.statusHistory| + (if o.status == Cancelled then 1 else 2)
    ensures r.statusHistory[|o.statusHistory|] == HistoryEntry(Cancelled, now, "Cancelled by user")
    ensures o.status != Cancelled ==> r.statusHistory[|o.statusHistory| + 1] == HistoryEntry(Cancelled, now, "")
    ensures r.(status := o.status, statusHistory := o.statusHistory) == o
  {
    SavedOrder(o.(status := Cancelled, statusHistory := o.statusHistory + [HistoryEntry(Cancelled, now, "Cancelled by user")]),
          o.status != Cancelled, "", now)
  }

  /** PUT /api/orders/:id/cancel. */
  method CancelOrder(db: Store, caller: UserId, id: OrderId, now: int) returns (code: int)
    requires db.Valid()
    modifies db`products, db`orders
    ensures db.Valid()
    ensures code != 200 ==> db.products == old(db.products) && db.orders == old(db.orders)
    ensures FindOrder(old(db.orders), id).None? ==> code == 404
    ensures FindOrder(old(db.orders), id).Some? ==>
      var j := FindOrder(old(db.orders), id).value;
      var o := old(db.orders)[j];
      if o.user != caller then code == 403
      else if o.status == Shipped || o.status == Delivered then code == 400
      else (code == 200 && db.orders == old(db.orders)[j := CancelledOrder(o, now)]
            && db.products == Restocked(old(db.products), o.items, 1))
  {
    var j := FindOrder(db.orders, id);
    if j.None? {
      return 404;
    }
    var o := db.orders[j.value];
    if o.user != caller {
      return 403;
    }
    if o.status == Shipped || o.status == Delivered {
      return 400;
    }
    var changed := o.status != Cancelled;
    var draft := o.(status := Cancelled,
                    statusHistory := o.statusHistory + [HistoryEntry(Cancelled, now, "Cancelled by user")]);
    var saved := PreSave(draft, changed, "", now);
    ReplaceOrderValid(db.orders, j.value, saved);
    db.orders := db.orders[j.value := saved];
    AdjustStock(db, o.items, 1);
    code := 200;
  }

  /** The order after a status update to `st`: tracking number replaced
      only when one is supplied, the handler's entry, then the hook's entry
      when the status actually changed. */
  function StatusUpdated(o: Order, st: Status, tracking: string, note: string, now: int): (r: Order)
    ensures r.status == st && HistoryExtends(o.statusHistory, r.statusHistory)
    ensures r.trackingNumber == if tracking != "" then tracking else o.trackingNumber
    ensures |r.statusHistory| == |o.statusHistory| + (if st == o.status then 1 else 2)
    ensures r.statusHistory[|o.statusHistory|] == HistoryEntry(st, now, note)
    ensures st != o.status ==> r.statusHistory[|o.statusHistory| + 1] == HistoryEntry(st, now, "")
    ensures r.(status := o.status, trackingNumber := o.trackingNumber, statusHistory := o.statusHistory) == o
  {
    SavedOrder(o.(status := st,
             trackingNumber := if tracking != "" then tracking else o.trackingNumber,
             statusHistory := o.statusHistory + [HistoryEntry(st, now, note)]),
          st != o.status, "", now)
  }

  /** There is no transition check: even a delivered order can be set back
      to pending. */
  lemma AnyTransitionAllowed(o: Order, now: int)
    requires o.status == Delivered
    ensures StatusUpdated(o, Pending, "", "", now).status == Pending
    ensures StatusUpdated(o, Pending, "", "", now).statusHistory
      == o.statusHistory + [HistoryEntry(Pending, now, ""), HistoryEntry(Pending, now, "")]
  {
  }

  /** A new order moved to shipped and then to delivered carries five
      history entries: the creation entry, then the handler's and the
      hook's entry for each change. */
  lemma TwoChangesFiveEntries(o: Order, t1: int, t2: int)
    requires o.status == Pending && |o.statusHistory| == 1
    ensures |StatusUpdated(StatusUpdated(o, Shipped, "", "", t1), Delivered, "", "", t2).statusHistory| == 5
  {
  }

  /** PUT /api/orders/:id/status (admin only). `note` is the empty string
      when none is given. */
  method UpdateOrderStatus(db: Store, role: Role, id: OrderId, status: string, tracking: string,
                           note: string, now: int) returns (code: int)
    requires db.Valid()
    modifies db`orders
    ensures db.Valid()
    ensures code != 200 ==> db.orders == old(db.orders)
    ensures !Authorized(role, {Admin}) ==> code == 403
    ensures Authorized(role, {Admin}) && FindOrder(old(db.orders), id).None? ==> code == 404
    ensures Authorized(role, {Admin}) && FindOrder(old(db.orders), id).Some? ==>
      var j := FindOrder(old(db.orders), id).value;
      match ParseStatus(status)
      case None => code == 500
      case Some(st) => code == 200 && db.orders == old(db.orders)[j := StatusUpdated(old(db.orders)[j], st, tracking, note, now)]
  {
    if !Authorized(role, {Admin}) {
      return 403;
    }
    var j := FindOrder(db.orders, id);
    if j.None? {
      return 404;
    }
    var st := ParseStatus(status);
    if st.None? {
      return 500;
    }
    var o := db.orders[j.value];
    var draft := o.(status := st.value, statusHistory := o.statusHistory + [HistoryEntry(st.value, now, note)]);
    if tracking != "" {
      draft := draft.(trackingNumber := tracking);
    }
    var saved := PreSave(draft, st.value != o.status, "", now);
    ReplaceOrderValid(db.orders, j.value, saved);
    db.orders := db.orders[j.value := saved];
    code := 200;
  }

  /** GET /api/orders/:id: the owner or an admin may read it. */
  function GetOrder(orders: seq<Order>, caller: UserId, role: Role, id: OrderId): (r: Reply<Order>)
    ensures r.code == 404 <==> forall k :: 0 <= k < |orders| ==> orders[k].id != id
    ensures r.code in {200, 403, 404}
    ensures r.code == 403 ==>
      r.data.None? && exists k :: 0 <= k < |orders| && orders[k].id == id && orders[k].user != caller && role != Admin
    ensures r.code == 200 ==>
      r.data.Some? && r.data.value in orders && r.data.value.id == id && (r.data.value.user == caller || role == Admin)
  {
    match FindOrder(orders, id)
    case None => Reply(404, None)
    case Some(k) =>
      if orders[k].user != caller && role != Admin then Reply(403, None) else Reply(200, Some(orders[k]))
  }

  /** `-createdAt`: newest first. */
  function NewestFirst(o: Order): int
  {
    -o.createdAt
  }

  /** The owner filter of the caller's order listing. */
  function OwnedBy(caller: UserId): Order -> bool
  {
    (o: Order) => o.user == caller
  }

  /** The status code, count and page arithmetic of the caller's order listing. */
  lemma OwnOrdersCounts(orders: seq<Order>, caller: UserId, pageRaw: Option<int>, limitRaw: Option<int>, r: Listing<Order>)
    requires r == List(orders, OwnedBy(caller), NewestFirst, pageRaw, limitRaw, 10)
    ensures r.code == 500 <==> Skip(OrDefault(pageRaw, 1), OrDefault(limitRaw, 10)) < 0
    ensures r.code != 500 ==> r.code == 200
    ensures r.code == 200 ==> r.total == Count(orders, OwnedBy(caller))
    ensures r.code == 200 ==> |r.data| <= if OrDefault(limitRaw, 10) > 0 then OrDefault(limitRaw, 10) else -OrDefault(limitRaw, 10)
    ensures pageRaw.None? && limitRaw.None? ==> r.code == 200 && r.page == 1 && r.pages == Pages(r.total, 10)
  {
  }

  /** The caller's order listing shows the caller's own orders, a page of them. */
  lemma OwnOrdersPage(orders: seq<Order>, caller: UserId, pageRaw: Option<int>, limitRaw: Option<int>, r: Listing<Order>)
    requires r == List(orders, OwnedBy(caller), NewestFirst, pageRaw, limitRaw, 10)
    ensures r.code == 200 ==>
      r.data == Page(orders, OwnedBy(caller), NewestFirst,
                     Skip(OrDefault(pageRaw, 1), OrDefault(limitRaw, 10)), OrDefault(limitRaw, 10))
    ensures r.code == 200 ==> multiset(r.data) <= multiset(Filter(orders, OwnedBy(caller)))
    ensures r.code == 200 ==> forall k :: 0 <= k < |r.data| ==> r.data[k] in orders && r.data[k].user == caller
  {
  }

  /** The caller's order listing is newest first, and its first page holds the newest. */
  lemma OwnOrdersNewest(orders: seq<Order>, caller: UserId, pageRaw: Option<int>, limitRaw: Option<int>, r: Listing<Order>)
    requires r == List(orders, OwnedBy(caller), NewestFirst, pageRaw, limitRaw, 10)
    ensures r.code == 200 ==> forall i, j :: 0 <= i < j < |r.data| ==> r.data[i].createdAt >= r.data[j].createdAt
    ensures r.code == 200 && OrDefault(pageRaw, 1) == 1 ==>
      forall o, k :: o in orders && o.user == caller && o !in r.data && 0 <= k < |r.data| ==> o.createdAt <= r.data[k].createdAt
  {
    assert r.code == 200 ==> SortedBy(r.data, NewestFirst);
    if r.code == 200 && OrDefault(pageRaw, 1) == 1 {
      forall o, k | o in orders && o.user == caller && o !in r.data && 0 <= k < |r.data|
        ensures o.createdAt <= r.data[k].createdAt
      {
        ListFirstBefore(orders, OwnedBy(caller), NewestFirst, pageRaw, limitRaw, 10, o, k);
      }
    }
  }

  /** GET /api/orders: the caller's own orders, newest first, ten a page by
      default. */
  function GetOrders(orders: seq<Order>, caller: UserId, pageRaw: Option<int>, limitRaw: Option<int>): (r: Listing<Order>)
    ensures r.code == 500 <==> Skip(OrDefault(pageRaw, 1), OrDefault(limitRaw, 10)) < 0
    ensures r.code != 500 ==> r.code == 200
    ensures r.code == 200 ==> r.total == Count(orders, OwnedBy(caller))
    ensures r.code == 200 ==>
      r.data == Page(orders, OwnedBy(caller), NewestFirst,
                     Skip(OrDefault(pageRaw, 1), OrDefault(limitRaw, 10)), OrDefault(limitRaw, 10))
    ensures r.code == 200 ==> multiset(r.data) <= multiset(Filter(orders, OwnedBy(caller)))
    ensures r.code == 200 ==> forall k :: 0 <= k < |r.data| ==> r.data[k] in orders && r.data[k].user == caller
    ensures r.code == 200 ==> forall i, j :: 0 <= i < j < |r.data| ==> r.data[i].createdAt >= r.data[j].createdAt
    ensures r.code == 200 ==> |r.data| <= if OrDefault(limitRaw, 10) > 0 then OrDefault(limitRaw, 10) else -OrDefault(limitRaw, 10)
    ensures r.code == 200 && OrDefault(pageRaw, 1) == 1 ==>
      forall o, k :: o in orders && o.user == caller && o !in r.data && 0 <= k < |r.data| ==> o.createdAt <= r.data[k].createdAt
    ensures pageRaw.None? && limitRaw.None? ==> r.code == 200 && r.page == 1 && r.pages == Pages(r.total, 10)
  {
    var r := List(orders, OwnedBy(caller), NewestFirst, pageRaw, limitRaw, 10);
    OwnOrdersCounts(orders, caller, pageRaw, limitRaw, r);
    OwnOrdersPage(orders, caller, pageRaw, limitRaw, r);
    OwnOrdersNewest(orders, caller, pageRaw, limitRaw, r);
    r
  }

  /** The admin status filter: applied only when a status is given. */
  function StatusFilter(status: string): Order -> bool
  {
    (o: Order) => status == "" || StatusName(o.status) == status
  }

  /** The status code, count and page arithmetic of the admin order listing. */
  lemma AllOrdersCounts(orders: seq<Order>, status: string, pageRaw: Option<int>, limitRaw: Option<int>, r: Listing<Order>)
    requires r == List(orders, StatusFilter(status), NewestFirst, pageRaw, limitRaw, 20)
    ensures r.code == 500 <==> Skip(OrDefault(pageRaw, 1), OrDefault(limitRaw, 20)) < 0
    ensures r.code != 500 ==> r.code == 200
    ensures r.code == 200 ==> r.total == Count(orders, StatusFilter(status))
    ensures pageRaw.None? && limitRaw.None? ==> r.code == 200 && r.pages == Pages(r.total, 20)
  {
  }

  /** Without a status filter the admin listing counts every order. */
  lemma AllOrdersUnfiltered(orders: seq<Order>, pageRaw: Option<int>, limitRaw: Option<int>, r: Listing<Order>)
    requires r == List(orders, StatusFilter(""), NewestFirst, pageRaw, limitRaw, 20)
    ensures r.code == 200 ==> r.total == |orders|
  {
    CountAll(orders, StatusFilter(""));
  }

  /** The admin order listing shows a page of the orders with the asked status. */
  lemma AllOrdersPage(orders: seq<Order>, status: string, pageRaw: Option<int>, limitRaw: Option<int>, r: Listing<Order>)
    requires r == List(orders, StatusFilter(status), NewestFirst, pageRaw, limitRaw, 20)
    ensures r.code == 200 ==>
      r.data == Page(orders, StatusFilter(status), NewestFirst,
                     Skip(OrDefault(pageRaw, 1), OrDefault(limitRaw, 20)), OrDefault(limitRaw, 20))
    ensures r.code == 200 ==> multiset(r.data) <= multiset(Filter(orders, StatusFilter(status)))
    ensures r.code == 200 ==> forall k :: 0 <= k < |r.data| ==>
      r.data[k] in orders && (status != "" ==> StatusName(r.data[k].status) == status)
  {
  }

  /** The admin order listing is newest first, and its first page holds the newest. */
  lemma AllOrdersNewest(orders: seq<Order>, status: string, pageRaw: Option<int>, limitRaw: Option<int>, r: Listing<Order>)
    requires r == List(orders, StatusFilter(status), NewestFirst, pageRaw, limitRaw, 20)
    ensures r.code == 200 ==> forall i, j :: 0 <= i < j < |r.data| ==> r.data[i].createdAt >= r.data[j].createdAt
    ensures r.code == 200 && OrDefault(pageRaw, 1) == 1 ==>
      forall o, k :: o in orders && (status == "" || StatusName(o.status) == status) && o !in r.data && 0 <= k < |r.data|
        ==> o.createdAt <= r.data[k].createdAt
  {
    assert r.code == 200 ==> SortedBy(r.data, NewestFirst);
    if r.code == 200 && OrDefault(pageRaw, 1) == 1 {
      forall o, k | o in orders && (status == "" || StatusName(o.status) == status) && o !in r.data && 0 <= k < |r.data|
        ensures o.createdAt <= r.data[k].createdAt
      {
        ListFirstBefore(orders, StatusFilter(status), NewestFirst, pageRaw, limitRaw, 20, o, k);
      }
    }
  }

  /** GET /api/orders/admin/all (admin only): every order, or those with the
      given status, newest first, twenty a page by default. */
  function GetAllOrders(orders: seq<Order>, role: Role, status: string,
                        pageRaw: Option<int>, limitRaw: Option<int>): (r: Listing<Order>)
    ensures !Authorized(role, {Admin}) <==> r.code == 403
    ensures Authorized(role, {Admin}) ==>
      (r.code == 500 <==> Skip(OrDefault(pageRaw, 1), OrDefault(limitRaw, 20)) < 0)
      && (r.code != 500 ==> r.code == 200)
    ensures r.code == 200 ==> r.total == Count(orders, StatusFilter(status))
    ensures r.code == 200 ==>
      r.data == Page(orders, StatusFilter(status), NewestFirst,
                     Skip(OrDefault(pageRaw, 1), OrDefault(limitRaw, 20)), OrDefault(limitRaw, 20))
    ensures r.code == 200 ==> multiset(r.data) <= multiset(Filter(orders, StatusFilter(status)))
    ensures r.code == 200 ==> forall k :: 0 <= k < |r.data| ==>
      r.data[k] in orders && (status != "" ==> StatusName(r.data[k].status) == status)
    ensures r.code == 200 ==> forall i, j :: 0 <= i < j < |r.data| ==> r.data[i].createdAt >= r.data[j].createdAt
    ensures r.code == 200 && status == "" ==> r.total == |orders|
    ensures r.code == 200 && OrDefault(pageRaw, 1) == 1 ==>
      forall o, k :: o in orders && (status == "" || StatusName(o.status) == status) && o !in r.data && 0 <= k < |r.data|
        ==> o.createdAt <= r.data[k].createdAt
    ensures Authorized(role, {Admin}) && pageRaw.None? && limitRaw.None? ==> r.code == 200 && r.pages == Pages(r.total, 20)
  {
    if !Authorized(role, {Admin}) then Listing(403, [], 0, 0, 0)
    else
      var r := List(orders, StatusFilter(status), NewestFirst, pageRaw, limitRaw, 20);
      AllOrdersCounts(orders, status, pageRaw, limitRaw, r);
      AllOrdersPage(orders, status, pageRaw, limitRaw, r);
      AllOrdersNewest(orders, status, pageRaw, limitRaw, r);
      if status == "" then
        AllOrdersUnfiltered(orders, pageRaw, limitRaw, r);
        r
      else
        r
  }

  /** Counting with a filter that keeps everything gives the length. */
  lemma {:induction false} CountAll<T>(s: seq<T>, f: T -> bool)
    requires forall x :: f(x)
    ensures Count(s, f) == |s|
  {
    if s != [] {
      CountAll(s[1..], f);
    }
  }

  /** The statuses whose orders count as revenue. */
  predicate Earning(st: Status)
  {
    st == Processing || st == Shipped || st == Delivered
  }

  /** `$sum` of `pricing.total` over the earning orders; 0 when there are none. */
  function Revenue(os: seq<Order>): int
  {
    if os == [] then 0
    else (if Earning(os[0].status) then os[0].pricing.total else 0) + Revenue(os[1..])
  }

  /** Revenue is never negative, since every stored total is at least 0. */
  lemma {:induction false} RevenueNonNegative(os: seq<Order>)
    requires forall k :: 0 <= k < |os| ==> ValidOrder(os[k])
    ensures Revenue(os) >= 0
  {
    if os != [] {
      assert ValidOrder(os[0]);
      RevenueNonNegative(os[1..]);
    }
  }

  /** Revenue looks only at the earning orders. */
  lemma {:induction false} RevenueOfEarning(os: seq<Order>)
    ensures Revenue(os) == Revenue(Filter(os, (o: Order) => Earning(o.status)))
  {
    if os != [] {
      RevenueOfEarning(os[1..]);
      var t := Filter(os[1..], (o: Order) => Earning(o.status));
      if Earning(os[0].status) {
        assert ([os[0]] + t)[1..] == t;
      }
    }
  }

  /** Orders by status. */
  function CountStatus(os: seq<Order>, st: Status): nat
  {
    Count(os, (o: Order) => o.status == st)
  }

  datatype Statistics = Statistics(
    totalOrders: nat, pendingOrders: nat, processingOrders: nat, shippedOrders: nat,
    deliveredOrders: nat, cancelledOrders: nat, totalRevenue: int)

  /** The five status counts partition the orders. */
  lemma {:induction false} CountsPartition(os: seq<Order>)
    ensures CountStatus(os, Pending) + CountStatus(os, Processing) + CountStatus(os, Shipped)
      + CountStatus(os, Delivered) + CountStatus(os, Cancelled) == |os|
  {
    if os != [] {
      CountsPartition(os[1..]);
    }
  }

  /** GET /api/orders/admin/statistics (admin only). */
  function GetOrderStatistics(orders: seq<Order>, role: Role): (r: Reply<Statistics>)
    requires OrdersValid(orders)
    ensures !Authorized(role, {Admin}) <==> r.code == 403
    ensures Authorized(role, {Admin}) ==> r.code == 200
    ensures r.code == 200 ==>
      r.data.Some?
      && r.data.value.pendingOrders == CountStatus(orders, Pending)
      && r.data.value.processingOrders == CountStatus(orders, Processing)
      && r.data.value.shippedOrders == CountStatus(orders, Shipped)
      && r.data.value.deliveredOrders == CountStatus(orders, Delivered)
      && r.data.value.cancelledOrders == CountStatus(orders, Cancelled)
      && r.data.value.totalRevenue == Revenue(orders)
    ensures r.code == 200 ==>
      r.data.Some?
      && r.data.value.totalOrders == r.data.value.pendingOrders + r.data.value.processingOrders
           + r.data.value.shippedOrders + r.data.value.deliveredOrders + r.data.value.cancelledOrders
      && r.data.value.totalRevenue >= 0
      && r.data.value.totalOrders == |orders|
      && ((forall k :: 0 <= k < |orders| ==> !Earning(orders[k].status)) ==> r.data.value.totalRevenue == 0)
  {
    if !Authorized(role, {Admin}) then Reply(403, None)
    else
      CountsPartition(orders);
      RevenueNonNegative(orders);
      RevenueOfEarning(orders);
      assert (forall k :: 0 <= k < |orders| ==> !Earning(orders[k].status))
        ==> Filter(orders, (o: Order) => Earning(o.status)) == [];
      CountAll(orders, (o: Order) => true);
      Reply(200, Some(Statistics(
        Count(orders, (o: Order) => true),
        CountStatus(orders, Pending), CountStatus(orders, Processing), CountStatus(orders, Shipped),
        CountStatus(orders, Delivered), CountStatus(orders, Cancelled),
        Revenue(orders))))
  }
}
