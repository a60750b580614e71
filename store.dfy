/** The shop's tables and the operations that change them: checkout with a
    payment bill, checkout without one, the gateway's callback and redirect,
    and the status updates. Each operation runs as one transaction: on any
    failure the tables are as they were before the call. */
module Store {
  import opened Php
  import opened Pricing
  import opened Products
  import opened OrderItems
  import opened Orders
  import opened Reconcile
  import Money
  import Billplz

  /** A checkout request as validation lets it through. `color` may be
      omitted, null or given. */
  datatype OrderRequest = OrderRequest(
    customerName: string,
    customerPhone: string,
    customerEmail: string,
    deliveryMethod: string,
    paymentMethod: string,
    productId: nat,
    quantity: int,
    color: Field<string>)

  /** The request validation (`required|integer|min:1`, the two `in:` lists). */
  predicate Admissible(req: OrderRequest)
  {
    && req.quantity >= 1
    && req.deliveryMethod in {"cod", "postage", "walkin"}
    && req.paymentMethod in {"full", "booking", "walkin"}
  }

  /** `createDirectPayment`: 201 with the bill, 400 when stock is short,
      500 for any exception. */
  datatype CheckoutResponse =
    | Created(orderId: nat, orderNumber: string, billUrl: string, billId: string, totalAmount: real)
    | InsufficientStock(available: int)
    | CheckoutFailed

  /** The shared outcome of `apiStore` and `store`. */
  datatype PlaceResponse = Placed(order: Order) | OutOfStock(available: int) | PlaceFailed

  /** `apiStore` answers with 201, 400 or 500. */
  function ApiStatus(r: PlaceResponse): (code: int)
    ensures code == 201 <==> r.Placed?
    ensures code == 400 <==> r.OutOfStock?
    ensures code == 500 <==> r.PlaceFailed?
  {
    match r
    case Placed(_) => 201
    case OutOfStock(_) => 400
    case PlaceFailed => 500
  }

  /** `store` redirects to the success page, or back with an error under
      `quantity` (short stock) or `error` (any exception). */
  datatype StoreRedirect = ToSuccessPage(orderId: nat) | BackWithError(field: string)

  function StoreOutcome(r: PlaceResponse): (s: StoreRedirect)
    ensures s.ToSuccessPage? <==> r.Placed?
    ensures r.Placed? ==> s.orderId == r.order.id
    ensures r.OutOfStock? ==> s == BackWithError("quantity")
    ensures r.PlaceFailed? ==> s == BackWithError("error")
  {
    match r
    case Placed(o) => ToSuccessPage(o.id)
    case OutOfStock(_) => BackWithError("quantity")
    case PlaceFailed => BackWithError("error")
  }

  /** `handleBillplzCallback`'s JSON answers. */
  datatype CallbackResponse = Processed | AlreadyProcessed | InvalidSignature | OrderNotFound | CallbackFailed

  function CallbackStatus(r: CallbackResponse): (code: int)
    ensures code == 200 <==> r.Processed? || r.AlreadyProcessed?
    ensures code == 400 <==> r.InvalidSignature?
    ensures code == 404 <==> r.OrderNotFound?
    ensures code == 500 <==> r.CallbackFailed?
  {
    match r
    case Processed => 200
    case AlreadyProcessed => 200
    case InvalidSignature => 400
    case OrderNotFound => 404
    case CallbackFailed => 500
  }

  /** The admin `updateStatus` outcomes. */
  datatype AdminResponse = StatusUpdated | InvalidStatus | NoSuchOrder

  function OrderNumbers(orders: seq<Order>): (ns: seq<string>)
    ensures |ns| == |orders| && forall i :: 0 <= i < |orders| ==> ns[i] == orders[i].orderNumber
  {
    seq(|orders|, i requires 0 <= i < |orders| => orders[i].orderNumber)
  }

  predicate KeyInUse(orders: seq<Order>, key: string)
  {
    exists i :: 0 <= i < |orders| && orders[i].idempotencyKey == Some(key)
  }

  /** The row `Order::create` inserts: pending, priced by `quote`, with no
      payment fields beyond the column defaults. Its four amounts are kept
      as the `decimal:2` casts read them back: each rounded to whole sen on
      its own. */
  function PendingOrder(id: nat, number: string, req: OrderRequest, quote: Quote): (o: Order)
    ensures o.id == id && o.orderNumber == number
    ensures o.customerName == req.customerName && o.deliveryMethod == req.deliveryMethod
    ensures o.paymentMethod == req.paymentMethod
    ensures o.status == Pending && o.paymentStatus == PaymentPending
    ensures o.billId.None? && o.collectionId.None? && o.idempotencyKey.None? && o.paidAt.None? && o.notes.None?
    ensures o.metadata == map[]
    ensures -0.005 <= o.subtotal - quote.subtotal <= 0.005
    ensures -0.005 <= o.totalAmount - quote.total <= 0.005
  {
    Money.Decimal2Close(quote.subtotal);
    Money.Decimal2Close(quote.total);
    Order(id, number, req.customerName, req.customerPhone, req.customerEmail,
          req.deliveryMethod, req.paymentMethod,
          Money.Decimal2(quote.subtotal), Money.Decimal2(quote.deliveryDiscount),
          Money.Decimal2(quote.paymentDiscount), Money.Decimal2(quote.total),
          Pending, None, None, None, PaymentPending, None, None, map[])
  }

  /** Rounding each amount on its own, `calculateTotal` on the stored row
      stays within two sen of the stored total. */
  lemma {:induction false} StoredTotalWithinTwoSen(id: nat, number: string, req: OrderRequest, quote: Quote)
    requires quote.total == quote.subtotal - quote.deliveryDiscount - quote.paymentDiscount
    ensures var o := PendingOrder(id, number, req, quote);
      -0.02 <= CalculateTotal(o) - o.totalAmount <= 0.02
  {
    Money.Decimal2Close(quote.subtotal);
    Money.Decimal2Close(quote.deliveryDiscount);
    Money.Decimal2Close(quote.paymentDiscount);
    Money.Decimal2Close(quote.total);
  }

  /** ... but not always equal to it: 19.90 with postage and full payment has
      discounts of 0.995 each and a total of 17.91; read back, the
      discounts are 1.00 each, so `calculateTotal` gives 17.90 while
      `total_amount` holds 17.91. */
  lemma RoundedDiscountsShiftTotal(id: nat, number: string, req: OrderRequest)
    requires req.deliveryMethod == "postage" && req.paymentMethod == "full"
    ensures var o := PendingOrder(id, number, req, PriceOrder(19.90, 1, "postage", "full"));
      o.totalAmount == 17.91 && CalculateTotal(o) == 17.90 && !TotalsAgree(o)
  {
    var q := PriceOrder(19.90, 1, "postage", "full");
    assert q == Quote(19.90, 0.995, 0.995, 17.91);
    assert Money.RoundHalfAway(1990.0) == 1990;
    assert Money.RoundHalfAway(99.5) == 100;
    assert Money.RoundHalfAway(1791.0) == 1791;
  }

  /** The line item `OrderItem::create` inserts: a snapshot of the product's
      name and price at the time of ordering. */
  function SnapshotItem(id: nat, orderId: nat, req: OrderRequest, p: Product): (item: OrderItem)
    ensures item.productPrice == p.price && item.productName == p.name
    ensures item.quantity == req.quantity && item.orderId == orderId && item.productId == req.productId
    ensures item.subtotal == CalculateSubtotal(item)
  {
    OrderItem(id, orderId, req.productId, p.name, p.price, req.quantity, OrNull(req.color),
              p.price * req.quantity as real)
  }

  /** The bill's full reply, stored as the order's payment metadata. */
  function ReplyMetadata(reply: map<string, string>): (m: map<string, Meta>)
    ensures m.Keys == reply.Keys && forall k :: k in reply ==> m[k] == Text(reply[k])
  {
    map k | k in reply :: Text(reply[k])
  }

  /** Whether the callback's signature is good enough to go on: checked only
      when the `X-Signature` header and the configured key are both truthy;
      `None` when the verifier raised. */
  function SignatureCheck(payload: Billplz.Payload, header: Option<string>, signingKey: string,
                          hmac: (string, string) -> string): (c: Option<bool>)
    ensures !(Truthy(header) && Truthy(Some(signingKey))) ==> c == Some(true)
    ensures Truthy(header) && Truthy(Some(signingKey)) ==>
      c == Billplz.VerifyWebhookSignature(payload, header.value, signingKey, hmac)
  {
    if Truthy(header) && Truthy(Some(signingKey)) then
      Billplz.VerifyWebhookSignature(payload, header.value, signingKey, hmac)
    else Some(true)
  }

  /** A paid callback whose `paid_at` the `datetime` cast of `orders.paid_at`
      cannot read: filling the update raises, and the handler answers 500. */
  predicate UnreadablePaidAt(d: Billplz.Callback, parsesAsDate: string -> bool)
  {
    d.paid && d.paidAt.Some? && !parsesAsDate(d.paidAt.value)
  }

  /** The order the redirect lands on: the callback's lookup, or else the
      `order_id` query parameter when one is present. */
  function RedirectOrder(orders: seq<Order>, d: Billplz.Callback, orderIdParam: Option<int>): (r: Option<nat>)
    ensures r.Some? ==> r.value < |orders|
    ensures FindOrder(orders, d).Some? ==> r == FindOrder(orders, d)
    ensures FindOrder(orders, d).None? && orderIdParam.None? ==> r.None?
    ensures FindOrder(orders, d).None? && orderIdParam.Some? ==> r == FindById(orders, orderIdParam.value)
  {
    var found := FindOrder(orders, d);
    if found.None? && orderIdParam.Some? then FindById(orders, orderIdParam.value) else found
  }

  /** The error page: the configured success URL with its
      `/shop/order/success` replaced by `/shop/order/error`. */
  function ErrorPage(frontendUrl: string): string
  {
    ReplaceAll(frontendUrl, "/shop/order/success", "/shop/order/error")
  }

  /** The price of `req` at the product's current price. */
  function QuoteFor(products: map<nat, Product>, req: OrderRequest): (q: Quote)
    requires req.productId in products
    ensures q.subtotal == products[req.productId].price * req.quantity as real
    ensures q.total == q.subtotal - q.deliveryDiscount - q.paymentDiscount
  {
    PriceOrder(products[req.productId].price, req.quantity, req.deliveryMethod, req.paymentMethod)
  }

  /** The bill the gateway returns for the order, `None` when the call or
      the reply fails (`createDirectPaymentBill`). */
  function RequestBill(cfg: Billplz.GatewayConfig, gateway: Billplz.BillRequest -> Option<map<string, string>>,
                       id: nat, number: string, req: OrderRequest, quote: Quote, bankCode: Option<string>)
    : Option<Billplz.Bill>
  {
    Billplz.BillFromReply(gateway(Billplz.BillRequestFor(
      cfg, id, number, req.customerName, req.customerPhone, req.customerEmail, quote.total, bankCode)))
  }

  /** The tables after a successful order: `order` appended, the product's
      snapshot item appended, and the ordered quantity taken off its stock. */
  ghost predicate Committed(products0: map<nat, Product>, orders0: seq<Order>, items0: seq<OrderItem>,
                            products: map<nat, Product>, orders: seq<Order>, items: seq<OrderItem>,
                            req: OrderRequest, order: Order)
  {
    && req.productId in products0
    && var p := products0[req.productId];
    && orders == orders0 + [order]
    && items == items0 + [SnapshotItem(|items0| + 1, order.id, req, p)]
    && products == products0[req.productId := p.(stock := p.stock - req.quantity)]
  }

  /** What every operation keeps: stock never negative; ids in insertion
      order; every item belongs to an existing order, holds a positive
      quantity and its snapshot subtotal; order numbers and idempotency
      keys unique (the columns' unique indexes). */
  ghost predicate Consistent(products: map<nat, Product>, orders: seq<Order>, items: seq<OrderItem>)
  {
    && (forall pid :: pid in products ==> products[pid].stock >= 0)
    && (forall i :: 0 <= i < |orders| ==> orders[i].id == i + 1)
    && (forall i :: 0 <= i < |items| ==>
          items[i].id == i + 1 && 1 <= items[i].orderId <= |orders|
          && items[i].quantity >= 1 && items[i].subtotal == CalculateSubtotal(items[i]))
    && (forall i, j :: 0 <= i < j < |orders| ==> orders[i].orderNumber != orders[j].orderNumber)
    && (forall i, j :: 0 <= i < j < |orders| && orders[i].idempotencyKey.Some? ==>
          orders[i].idempotencyKey != orders[j].idempotencyKey)
  }

  /** A new order with a fresh number and key, its item, and a stock
      decrement the stock covers keep the tables consistent. */
  lemma {:induction false} CheckoutKeepsConsistent(products: map<nat, Product>, orders: seq<Order>, items: seq<OrderItem>,
                                                   order: Order, item: OrderItem, pid: nat, quantity: int)
    requires Consistent(products, orders, items)
    requires order.id == |orders| + 1
    requires order.orderNumber !in OrderNumbers(orders)
    requires order.idempotencyKey.Some? ==> !KeyInUse(orders, order.idempotencyKey.value)
    requires item.id == |items| + 1 && item.orderId == order.id
    requires item.quantity >= 1 && item.subtotal == CalculateSubtotal(item)
    requires pid in products && 0 <= quantity <= products[pid].stock
    ensures Consistent(products[pid := products[pid].(stock := products[pid].stock - quantity)],
                       orders + [order], items + [item])
  {
    var os := orders + [order];
    forall i, j | 0 <= i < j < |os| ensures os[i].orderNumber != os[j].orderNumber {
      if j == |orders| {
        assert OrderNumbers(orders)[i] == os[i].orderNumber;
      }
    }
    forall i, j | 0 <= i < j < |os| && os[i].idempotencyKey.Some?
      ensures os[i].idempotencyKey != os[j].idempotencyKey
    {
      if j == |orders| && os[j].idempotencyKey.Some? {
        assert !KeyInUse(orders, os[j].idempotencyKey.value);
      }
    }
  }

  /** Replacing an order by the same record with other payment bookkeeping
      or status keeps the tables consistent. */
  lemma {:induction false} ReplaceKeepsConsistent(products: map<nat, Product>, orders: seq<Order>, items: seq<OrderItem>,
                                                  i: nat, o: Order)
    requires Consistent(products, orders, items) && i < |orders|
    requires o.id == orders[i].id && o.orderNumber == orders[i].orderNumber
    requires o.idempotencyKey == orders[i].idempotencyKey
    ensures Consistent(products, orders[i := o], items)
  {
  }

  /** Raising stock levels keeps the tables consistent. */
  lemma {:induction false} RestockKeepsConsistent(products: map<nat, Product>, orders: seq<Order>, items: seq<OrderItem>,
                                                  restocked: map<nat, Product>)
    requires Consistent(products, orders, items)
    requires restocked.Keys == products.Keys
    requires forall pid :: pid in products ==> restocked[pid].stock >= products[pid].stock
    ensures Consistent(restocked, orders, items)
  {
  }

  class Shop {
    /** Live products by id. */
    var products: map<nat, Product>
    /** Orders in id order; order `i + 1` is at index `i`. */
    var orders: seq<Order>
    /** Order items in id order. */
    var items: seq<OrderItem>

    ghost predicate Valid()
      reads this
    {
      Consistent(products, orders, items)
    }

    constructor(catalogue: map<nat, Product>)
      requires forall pid :: pid in catalogue ==> catalogue[pid].stock >= 0
      ensures Valid()
      ensures products == catalogue && orders == [] && items == []
    {
      products := catalogue;
      orders := [];
      items := [];
    }

    // -------------------------------------------------------------------
    // Checkout with a payment bill

    /** `createDirectPayment`. The day and the new idempotency key are
        parameters; the gateway is a function from the bill request to its
        reply (`None` when the call fails). */
    method CreateDirectPayment(req: OrderRequest, bankCode: Field<string>, today: string, uuid: string,
                               cfg: Billplz.GatewayConfig,
                               gateway: Billplz.BillRequest -> Option<map<string, string>>)
      returns (r: CheckoutResponse)
      requires Valid() && Admissible(req)
      modifies this
      ensures Valid()
      // short stock is answered with the stock on hand
      ensures r.InsufficientStock? <==>
        req.productId in old(products) && old(products)[req.productId].stock < req.quantity
      ensures r.InsufficientStock? ==> r.available == old(products)[req.productId].stock
      // every failure leaves the tables as they were
      ensures !r.Created? ==> products == old(products) && orders == old(orders) && items == old(items)
      // every check passing means success: the order is created exactly when
      // the product exists, stock suffices, the number and key are fresh,
      // `color` is present and the gateway returns a usable bill
      ensures r.CheckoutFailed? <==>
        || req.productId !in old(products)
        || (&& old(products)[req.productId].stock >= req.quantity
            && var number := GenerateOrderNumber(OrderNumbers(old(orders)), today);
            || number in OrderNumbers(old(orders))
            || KeyInUse(old(orders), uuid)
            || req.color.Omitted?
            || RequestBill(cfg, gateway, |old(orders)| + 1, number, req, QuoteFor(old(products), req),
                           OrNull(bankCode)).None?)
      // success: one pending order carrying the bill, one snapshot item, stock taken
      ensures r.Created? ==>
        && req.productId in old(products) && req.quantity <= old(products)[req.productId].stock
        && r.orderId == |old(orders)| + 1
        && r.orderNumber == GenerateOrderNumber(OrderNumbers(old(orders)), today)
      ensures r.Created? ==>
        var quote := QuoteFor(old(products), req);
        var bill := RequestBill(cfg, gateway, r.orderId, r.orderNumber, req, quote, OrNull(bankCode));
        && bill.Some?
        && r.billUrl == bill.value.billUrl && r.billId == bill.value.billId
        && r.totalAmount == Money.Decimal2(quote.total)
        && Committed(old(products), old(orders), old(items), products, orders, items, req,
             PendingOrder(r.orderId, r.orderNumber, req, quote).(
               billId := Some(bill.value.billId), collectionId := Some(bill.value.collectionId),
               idempotencyKey := Some(uuid), metadata := ReplyMetadata(bill.value.fullResponse)))
    {
      if req.productId !in products {
        return CheckoutFailed;
      }
      var p := products[req.productId];
      if p.stock < req.quantity {
        return InsufficientStock(p.stock);
      }
      var quote := QuoteFor(products, req);
      var id := |orders| + 1;
      var number := GenerateOrderNumber(OrderNumbers(orders), today);
      if number in OrderNumbers(orders) || KeyInUse(orders, uuid) {
        // the insert violates a unique index
        return CheckoutFailed;
      }
      if req.color.Omitted? {
        // reading the absent `color` while inserting the item raises, and
        // the transaction drops the order row inserted just before
        return CheckoutFailed;
      }
      var bill := RequestBill(cfg, gateway, id, number, req, quote, OrNull(bankCode));
      if bill.None? {
        // the gateway call raises: the order and its item are rolled back
        return CheckoutFailed;
      }
      // the inserted row as updated with the bill's fields before commit
      var billed := PendingOrder(id, number, req, quote).(
        billId := Some(bill.value.billId), collectionId := Some(bill.value.collectionId),
        idempotencyKey := Some(uuid), metadata := ReplyMetadata(bill.value.fullResponse));
      Commit(req, billed);
      r := Created(id, number, bill.value.billUrl, bill.value.billId, Money.Decimal2(quote.total));
    }

    /** The writes of a successful checkout, applied together when the
        transaction commits: the order row, its snapshot item, and the
        `decrement` of the product's stock. */
    method Commit(req: OrderRequest, order: Order)
      requires Valid() && req.quantity >= 1
      requires req.productId in products && req.quantity <= products[req.productId].stock
      requires order.id == |orders| + 1
      requires order.orderNumber !in OrderNumbers(orders)
      requires order.idempotencyKey.Some? ==> !KeyInUse(orders, order.idempotencyKey.value)
      modifies this
      ensures Valid()
      ensures Committed(old(products), old(orders), old(items), products, orders, items, req, order)
    {
      var p := products[req.productId];
      var item := SnapshotItem(|items| + 1, order.id, req, p);
      CheckoutKeepsConsistent(products, orders, items, order, item, req.productId, req.quantity);
      orders := orders + [order];
      items := items + [item];
      products := products[req.productId := p.(stock := p.stock - req.quantity)];
    }

    // -------------------------------------------------------------------
    // Checkout without the gateway

    /** The common body of `apiStore` and `store`: the same stock check and
        pricing, a pending order with no payment fields, one snapshot item,
        stock taken. */
    method PlaceOrder(req: OrderRequest, today: string) returns (r: PlaceResponse)
      requires Valid() && Admissible(req)
      modifies this
      ensures Valid()
      ensures r.OutOfStock? <==>
        req.productId in old(products) && old(products)[req.productId].stock < req.quantity
      ensures r.OutOfStock? ==> r.available == old(products)[req.productId].stock
      ensures !r.Placed? ==> products == old(products) && orders == old(orders) && items == old(items)
      // the order is placed exactly when the product exists, stock
      // suffices, the number is fresh and `color` is present
      ensures r.PlaceFailed? <==>
        || req.productId !in old(products)
        || (&& old(products)[req.productId].stock >= req.quantity
            && (|| GenerateOrderNumber(OrderNumbers(old(orders)), today) in OrderNumbers(old(orders))
                || req.color.Omitted?))
      ensures r.Placed? ==>
        var p := old(products)[req.productId];
        var quote := PriceOrder(p.price, req.quantity, req.deliveryMethod, req.paymentMethod);
        var id := |old(orders)| + 1;
        && req.productId in old(products) && req.quantity <= p.stock
        && r.order == PendingOrder(id, GenerateOrderNumber(OrderNumbers(old(orders)), today), req, quote)
        && Committed(old(products), old(orders), old(items), products, orders, items, req, r.order)
    {
      if req.productId !in products {
        return PlaceFailed;
      }
      var p := products[req.productId];
      if p.stock < req.quantity {
        return OutOfStock(p.stock);
      }
      var quote := PriceOrder(p.price, req.quantity, req.deliveryMethod, req.paymentMethod);
      var id := |orders| + 1;
      var number := GenerateOrderNumber(OrderNumbers(orders), today);
      if number in OrderNumbers(orders) {
        // the insert violates the unique index on `order_number`
        return PlaceFailed;
      }
      if req.color.Omitted? {
        // reading the absent `color` while inserting the item raises: the
        // order row inserted just before is rolled back
        return PlaceFailed;
      }
      var order := PendingOrder(id, number, req, quote);
      Commit(req, order);
      r := Placed(order);
    }

    // -------------------------------------------------------------------
    // The gateway's callback

    /** `handleBillplzCallback`. `signingKey` is the configured X-Signature
        key, `hmac` the keyed hash, `parsesAsDate` whether the `datetime`
        cast can read a `paid_at` string, `now` the clock. */
    method HandleBillplzCallback(payload: Billplz.Payload, header: Option<string>, signingKey: string,
                                 hmac: (string, string) -> string, parsesAsDate: string -> bool, now: int)
      returns (r: CallbackResponse)
      requires Valid()
      modifies this
      ensures Valid()
      ensures items == old(items)
      // a rejected or raising signature check, and a callback for no order, change nothing
      ensures SignatureCheck(payload, header, signingKey, hmac).None? ==> r == CallbackFailed
      ensures SignatureCheck(payload, header, signingKey, hmac) == Some(false) ==> r == InvalidSignature
      ensures SignatureCheck(payload, header, signingKey, hmac) == Some(true) ==>
        (r == OrderNotFound <==> FindOrder(old(orders), Billplz.ParseWebhookData(payload)).None?)
      ensures SignatureCheck(payload, header, signingKey, hmac) == Some(true)
              && FindOrder(old(orders), Billplz.ParseWebhookData(payload)).Some? ==>
        r == Processed || r == AlreadyProcessed || r == CallbackFailed
      // a paid_at the datetime cast cannot read raises while the update is built
      ensures SignatureCheck(payload, header, signingKey, hmac) == Some(true)
              && FindOrder(old(orders), Billplz.ParseWebhookData(payload)).Some? ==>
        var d := Billplz.ParseWebhookData(payload);
        (r == CallbackFailed <==>
           old(orders)[FindOrder(old(orders), d).value].paymentStatus != PaymentPaid && UnreadablePaidAt(d, parsesAsDate))
      ensures r != Processed ==> products == old(products) && orders == old(orders)
      ensures r == Processed || r == AlreadyProcessed ==>
        SignatureCheck(payload, header, signingKey, hmac) == Some(true)
        && FindOrder(old(orders), Billplz.ParseWebhookData(payload)).Some?
      // a paid callback for a paid order is a no-op
      ensures r == AlreadyProcessed <==>
        var d := Billplz.ParseWebhookData(payload);
        var found := FindOrder(old(orders), d);
        SignatureCheck(payload, header, signingKey, hmac) == Some(true) && found.Some?
        && old(orders)[found.value].paymentStatus == PaymentPaid && d.paid
      // any other paid callback marks the order paid
      ensures r == Processed && Billplz.ParseWebhookData(payload).paid ==>
        var d := Billplz.ParseWebhookData(payload);
        var i := FindOrder(old(orders), d).value;
        old(orders)[i].paymentStatus != PaymentPaid && !UnreadablePaidAt(d, parsesAsDate)
        && orders == old(orders)[i := MarkPaid(old(orders)[i], d, now, "webhook_data")]
        && products == old(products)
      // an unpaid callback fails the order, whatever its state, and restores its stock
      ensures r == Processed && !Billplz.ParseWebhookData(payload).paid ==>
        var d := Billplz.ParseWebhookData(payload);
        var i := FindOrder(old(orders), d).value;
        && orders == old(orders)[i := MarkFailed(old(orders)[i], d, now)]
        && products == RestoreStock(old(products), old(items), old(orders)[i].id)
    {
      var check := SignatureCheck(payload, header, signingKey, hmac);
      if check.None? {
        return CallbackFailed;
      }
      if !check.value {
        return InvalidSignature;
      }
      var d := Billplz.ParseWebhookData(payload);
      var found := FindOrder(orders, d);
      if found.None? {
        return OrderNotFound;
      }
      var i := found.value;
      var o := orders[i];
      if o.paymentStatus == PaymentPaid && d.paid {
        return AlreadyProcessed;
      }
      if UnreadablePaidAt(d, parsesAsDate) {
        return CallbackFailed;
      }
      if d.paid {
        orders := orders[i := MarkPaid(o, d, now, "webhook_data")];
        ReplaceKeepsConsistent(products, old(orders), items, i, orders[i]);
      } else {
        orders := orders[i := MarkFailed(o, d, now)];
        ReplaceKeepsConsistent(products, old(orders), items, i, orders[i]);
        RestoreOrderStock(o.id);
      }
      r := Processed;
    }

    /** The `foreach` over the order's items: each item's quantity goes back
        to its product, and an item whose product is gone is skipped. */
    method RestoreOrderStock(orderId: nat)
      requires Valid()
      modifies this
      ensures Valid()
      ensures orders == old(orders) && items == old(items)
      ensures products == RestoreStock(old(products), items, orderId)
    {
      var k := 0;
      while k < |items|
        invariant 0 <= k <= |items|
        invariant items == old(items) && orders == old(orders)
        invariant products == RestoreStock(old(products), items[..k], orderId)
      {
        var item := items[k];
        if item.orderId == orderId && item.productId in products {
          var p := products[item.productId];
          products := products[item.productId := p.(stock := p.stock + item.quantity)];
        }
        assert items[..k + 1][..k] == items[..k];
        k := k + 1;
      }
      assert items[..k] == items;
      RestoreStockNeverLowers(old(products), items, orderId);
      RestockKeepsConsistent(old(products), orders, items, products);
    }

    // -------------------------------------------------------------------
    // The customer's redirect back from the gateway

    /** `handleBillplzRedirect`: marks a still-pending order paid when the
        redirect says so, never fails an order and never touches stock;
        answers with the page to send the customer to. */
    method HandleBillplzRedirect(payload: Billplz.Payload, orderIdParam: Option<int>, now: int,
                                 frontendUrl: string)
      returns (target: string)
      requires Valid()
      modifies this
      ensures Valid()
      ensures products == old(products) && items == old(items)
      ensures RedirectOrder(old(orders), Billplz.ParseWebhookData(payload), orderIdParam).None? ==>
        orders == old(orders) && target == ErrorPage(frontendUrl) + "?type=order_not_found"
      ensures RedirectOrder(old(orders), Billplz.ParseWebhookData(payload), orderIdParam).Some? ==>
        var d := Billplz.ParseWebhookData(payload);
        var i := RedirectOrder(old(orders), d, orderIdParam).value;
        && target == frontendUrl + "/" + old(orders)[i].orderNumber
                     + (if d.paid then "?payment=success" else "?payment=failed")
        && orders == (if old(orders)[i].paymentStatus == PaymentPending && d.paid
                      then old(orders)[i := MarkPaid(old(orders)[i], d, now, "redirect_data")]
                      else old(orders))
      ensures |orders| == |old(orders)|
      ensures forall j :: 0 <= j < |orders| && orders[j].paymentStatus != old(orders)[j].paymentStatus ==>
        old(orders)[j].paymentStatus == PaymentPending && orders[j].paymentStatus == PaymentPaid
    {
      var d := Billplz.ParseWebhookData(payload);
      var found := RedirectOrder(orders, d, orderIdParam);
      if found.None? {
        return ErrorPage(frontendUrl) + "?type=order_not_found";
      }
      var i := found.value;
      var o := orders[i];
      if o.paymentStatus == PaymentPending && d.paid {
        orders := orders[i := MarkPaid(o, d, now, "redirect_data")];
        ReplaceKeepsConsistent(products, old(orders), items, i, orders[i]);
      }
      target := frontendUrl + "/" + o.orderNumber + (if d.paid then "?payment=success" else "?payment=failed");
    }

    // -------------------------------------------------------------------
    // Status updates

    /** The admin `updateStatus`: a missing order is not found (checked
        before validation), a status outside the four is refused, and the
        old notes stay unless new ones are given. */
    method UpdateStatus(id: int, status: string, notes: Field<string>) returns (r: AdminResponse)
      requires Valid()
      modifies this
      ensures Valid()
      ensures products == old(products) && items == old(items)
      ensures r == NoSuchOrder <==> FindById(old(orders), id).None?
      ensures r == InvalidStatus <==> FindById(old(orders), id).Some? && ParseStatus(status).None?
      ensures r != StatusUpdated ==> orders == old(orders)
      ensures r == StatusUpdated ==>
        var i := FindById(old(orders), id).value;
        var o := old(orders)[i];
        orders == old(orders)[i := o.(status := ParseStatus(status).value,
                                      notes := if notes.Given? then Some(notes.value) else o.notes)]
    {
      var found := FindById(orders, id);
      if found.None? {
        return NoSuchOrder;
      }
      var s := ParseStatus(status);
      if s.None? {
        return InvalidStatus;
      }
      var i := found.value;
      var o := orders[i];
      orders := orders[i := o.(status := s.value, notes := if notes.Given? then Some(notes.value) else o.notes)];
      ReplaceKeepsConsistent(products, old(orders), items, i, orders[i]);
      r := StatusUpdated;
    }

    /** `Order::updateStatus` on the order at index `i`: false and no change
        for a status outside the four, otherwise the status is set. */
    method SetOrderStatus(i: nat, status: string) returns (ok: bool)
      requires Valid() && i < |orders|
      modifies this
      ensures Valid()
      ensures products == old(products) && items == old(items)
      ensures ok <==> status in {"pending", "processing", "completed", "cancelled"}
      ensures ok ==> orders == old(orders)[i := old(orders)[i].(status := ParseStatus(status).value)]
      ensures ok ==> StatusName(orders[i].status) == status
      ensures !ok ==> orders == old(orders)
    {
      var s := ParseStatus(status);
      if s.None? {
        return false;
      }
      StatusNamesRoundTrip(s.value, status);
      orders := orders[i := orders[i].(status := s.value)];
      ReplaceKeepsConsistent(products, old(orders), items, i, orders[i]);
      ok := true;
    }

    // -------------------------------------------------------------------
    // Repeated callbacks

    /** The same paid callback delivered twice: the second delivery finds
        the order paid and changes nothing. */
    method RepeatedPaidCallback(payload: Billplz.Payload, header: Option<string>, signingKey: string,
                                hmac: (string, string) -> string, parsesAsDate: string -> bool,
                                now1: int, now2: int)
      returns (r1: CallbackResponse, r2: CallbackResponse)
      requires Valid() && Billplz.ParseWebhookData(payload).paid
      modifies this
      ensures Valid()
      ensures r1 == Processed || r1 == AlreadyProcessed ==> r2 == AlreadyProcessed
      ensures r1 != Processed && r1 != AlreadyProcessed ==> r2 == r1
      ensures products == old(products) && items == old(items)
      ensures r1 == Processed ==> FindOrder(old(orders), Billplz.ParseWebhookData(payload)).Some?
      ensures r1 == Processed ==>
        var d := Billplz.ParseWebhookData(payload);
        var i := FindOrder(old(orders), d).value;
        orders == old(orders)[i := MarkPaid(old(orders)[i], d, now1, "webhook_data")]
      ensures r1 != Processed ==> orders == old(orders)
    {
      var d := Billplz.ParseWebhookData(payload);
      var before := orders;
      r1 := HandleBillplzCallback(payload, header, signingKey, hmac, parsesAsDate, now1);
      if r1 == Processed {
        var i := FindOrder(before, d).value;
        TransitionsKeepMatching(before[i], d, d, now1, "webhook_data");
        FindOrderStable(before, i, MarkPaid(before[i], d, now1, "webhook_data"), d);
      }
      r2 := HandleBillplzCallback(payload, header, signingKey, hmac, parsesAsDate, now2);
    }

    /** The same unpaid callback delivered twice: nothing guards the failure
        path, so the second delivery fails the order again and restores its
        stock a second time. */
    method RepeatedFailedCallback(payload: Billplz.Payload, header: Option<string>, signingKey: string,
                                  hmac: (string, string) -> string, parsesAsDate: string -> bool,
                                  now1: int, now2: int)
      returns (r1: CallbackResponse, r2: CallbackResponse)
      requires Valid() && !Billplz.ParseWebhookData(payload).paid
      modifies this
      ensures Valid()
      ensures r1 == Processed ==> r2 == Processed
      ensures r1 == Processed ==> FindOrder(old(orders), Billplz.ParseWebhookData(payload)).Some?
      ensures r1 == Processed ==>
        var i := FindOrder(old(orders), Billplz.ParseWebhookData(payload)).value;
        var id := old(orders)[i].id;
        products == RestoreStock(RestoreStock(old(products), old(items), id), old(items), id)
    {
      var d := Billplz.ParseWebhookData(payload);
      var before := orders;
      var stock := products;
      r1 := HandleBillplzCallback(payload, header, signingKey, hmac, parsesAsDate, now1);
      if r1 == Processed {
        var i := FindOrder(before, d).value;
        TransitionsKeepMatching(before[i], d, d, now1, "webhook_data");
        FindOrderStable(before, i, MarkFailed(before[i], d, now1), d);
        assert FindOrder(orders, d) == Some(i) && orders[i].id == before[i].id;
        assert products == RestoreStock(stock, items, before[i].id);
      }
      r2 := HandleBillplzCallback(payload, header, signingKey, hmac, parsesAsDate, now2);
    }
  }
}
