/** The order document (server/src/models/Order.ts): its enumerations and
    defaults, the numeric minimums, and the pre-save hook that fills in a
    missing order number and logs a modified status. */
module OrderModel {
  import opened Ids
  import opened Wrappers


  datatype Status = Pending | Processing | Shipped | Delivered | Cancelled

  /** The stored spelling of each status. */
  function StatusName(s: Status): string
  {
    match s
    case Pending => "pending"
    case Processing => "processing"
    case Shipped => "shipped"
    case Delivered => "delivered"
    case Cancelled => "cancelled"
  }

  /** The status enum validator: exactly the five spellings are accepted. */
  function ParseStatus(s: string): (r: Option<Status>)
    ensures r.Some? ==> StatusName(r.value) == s
    ensures forall st :: s == StatusName(st) ==> r == Some(st)
  {
    if s == "pending" then Some(Pending)
    else if s == "processing" then Some(Processing)
    else if s == "shipped" then Some(Shipped)
    else if s == "delivered" then Some(Delivered)
    else if s == "cancelled" then Some(Cancelled)
    else None
  }

  datatype PaymentMethod = Card | Paypal | BankTransfer | CashOnDelivery

  function PaymentMethodName(m: PaymentMethod): string
  {
    match m
    case Card => "card"
    case Paypal => "paypal"
    case BankTransfer => "bank_transfer"
    case CashOnDelivery => "cash_on_delivery"
  }

  /** The payment method enum validator. */
  function ParsePaymentMethod(s: string): (r: Option<PaymentMethod>)
    ensures r.Some? ==> PaymentMethodName(r.value) == s
    ensures forall m :: s == PaymentMethodName(m) ==> r == Some(m)
  {
    if s == "card" then Some(Card)
    else if s == "paypal" then Some(Paypal)
    else if s == "bank_transfer" then Some(BankTransfer)
    else if s == "cash_on_delivery" then Some(CashOnDelivery)
    else None
  }

  datatype PaymentStatus = PaymentPending | PaymentCompleted | PaymentFailed

  /** The payment status: absent (the empty string) means the default
      `pending`; otherwise one of the three spellings. */
  function ParsePaymentStatus(s: string): (r: Option<PaymentStatus>)
    ensures r == Some(PaymentPending) <==> s == "" || s == "pending"
    ensures r == Some(PaymentCompleted) <==> s == "completed"
    ensures r == Some(PaymentFailed) <==> s == "failed"
    ensures r.None? <==> !(s in {"", "pending", "completed", "failed"})
  {
    if s == "" || s == "pending" then Some(PaymentPending)
    else if s == "completed" then Some(PaymentCompleted)
    else if s == "failed" then Some(PaymentFailed)
    else None
  }

  datatype PaymentInfo = PaymentInfo(payMethod: PaymentMethod, transactionId: string, status: PaymentStatus)

  datatype OrderItem = OrderItem(
    product: ProductId, name: string, image: string, quantity: int, price: int, subtotal: int)

  datatype ShippingAddress = ShippingAddress(
    fullName: string, street: string, city: string, state: string,
    zipCode: string, country: string, phone: string)

  datatype Pricing = Pricing(subtotal: int, tax: int, shippingCost: int, discount: int, total: int)

  datatype HistoryEntry = HistoryEntry(status: Status, date: int, note: string)

  datatype Order = Order(
    id: OrderId,
    orderNumber: string,
    user: UserId,
    items: seq<OrderItem>,
    shippingAddress: ShippingAddress,
    paymentInfo: PaymentInfo,
    pricing: Pricing,
    status: Status,
    trackingNumber: string,
    statusHistory: seq<HistoryEntry>,
    createdAt: int)

  /** The line schema: name and image present, quantity at least 1, price
      and subtotal not negative. */
  predicate ValidOrderItem(i: OrderItem)
  {
    i.name != "" && i.image != "" && i.quantity >= 1 && i.price >= 0 && i.subtotal >= 0
  }

  /** Every pricing field is at least 0. */
  predicate ValidPricing(p: Pricing)
  {
    p.subtotal >= 0 && p.tax >= 0 && p.shippingCost >= 0 && p.discount >= 0 && p.total >= 0
  }

  predicate ValidShipping(a: ShippingAddress)
  {
    a.fullName != "" && a.street != "" && a.city != "" && a.state != ""
    && a.zipCode != "" && a.country != "" && a.phone != ""
  }

  /** What the order schema's validators accept. */
  predicate ValidOrder(o: Order)
  {
    o.orderNumber != ""
    && (forall k :: 0 <= k < |o.items| ==> ValidOrderItem(o.items[k]))
    && ValidShipping(o.shippingAddress)
    && ValidPricing(o.pricing)
  }

  /** `ORD-${timestamp}-${random}`, from the base-36 clock reading and random
      suffix, both upper-cased. */
  function OrderNumber(timestamp36: string, random4: string): (r: string)
    ensures |r| >= 5 && r[..4] == "ORD-"
  {
    "ORD-" + timestamp36 + "-" + random4
  }

  /** What the pre-save hook stores: an order without a number gets
      `generated`; a modified status appends one entry with that status,
      clock `now` and an empty note; nothing else changes. */
  function SavedOrder(o: Order, statusModified: bool, generated: string, now: int): (r: Order)
    ensures r.orderNumber == if o.orderNumber == "" then generated else o.orderNumber
    ensures r.statusHistory == o.statusHistory + if statusModified then [HistoryEntry(o.status, now, "")] else []
    ensures |r.statusHistory| == |o.statusHistory| + (if statusModified then 1 else 0)
    ensures r.(orderNumber := o.orderNumber, statusHistory := o.statusHistory) == o
  {
    o.(orderNumber := if o.orderNumber == "" then generated else o.orderNumber,
       statusHistory := o.statusHistory + if statusModified then [HistoryEntry(o.status, now, "")] else [])
  }

  /** Saving twice without a status change stores the same order. */
  lemma SavedSettles(o: Order, statusModified: bool, generated: string, now: int)
    ensures SavedOrder(SavedOrder(o, statusModified, generated, now), false, generated, now)
         == SavedOrder(o, statusModified, generated, now)
  {
    assert SavedOrder(o, statusModified, generated, now).statusHistory + [] == SavedOrder(o, statusModified, generated, now).statusHistory;
  }

  /** The pre-save hook, step by step. */
  method PreSave(o: Order, statusModified: bool, generated: string, now: int) returns (saved: Order)
    ensures saved == SavedOrder(o, statusModified, generated, now)
  {
    saved := o;
    if saved.orderNumber == "" {
      saved := saved.(orderNumber := generated);
    }
    if statusModified {
      saved := saved.(statusHistory := saved.statusHistory + [HistoryEntry(saved.status, now, "")]);
    }
  }

  /** The status history only grows: every earlier entry stays in place. */
  ghost predicate HistoryExtends(before: seq<HistoryEntry>, after: seq<HistoryEntry>)
  {
    |before| <= |after| && after[..|before|] == before
  }
}
