/** The pure half of payment reconciliation: which order a gateway callback
    addresses, what a paid or a failed callback does to that order, and how
    a failed payment puts the ordered quantities back on the shelf. */
module Reconcile {
  import opened Php
  import opened Orders
  import opened Products
  import opened OrderItems
  import Billplz

  // ---------------------------------------------------------------------
  // Finding the order

  /** `where('order_number', reference_2)->orWhere('billplz_bill_id', id)`.
      A null value compares as `IS NULL`: a callback without `id` matches
      every order that has no bill yet, and one without `reference_2` matches
      no order by number (order numbers are never null). */
  predicate Matches(o: Order, d: Billplz.Callback)
  {
    Some(o.orderNumber) == d.orderNumber || o.billId == d.billId
  }

  /** `->first()`: the matching order with the lowest id, as an index. */
  function FindOrder(orders: seq<Order>, d: Billplz.Callback): (r: Option<nat>)
    ensures r.Some? ==> r.value < |orders| && Matches(orders[r.value], d)
    ensures r.Some? ==> forall j :: 0 <= j < r.value ==> !Matches(orders[j], d)
    ensures r.None? <==> forall j :: 0 <= j < |orders| ==> !Matches(orders[j], d)
  {
    if orders == [] then None
    else if Matches(orders[0], d) then Some(0)
    else
      var r := FindOrder(orders[1..], d);
      if r.None? then None else Some(r.value + 1)
  }

  /** `Order::find($id)`: the order with that primary key, as an index. */
  function FindById(orders: seq<Order>, id: int): (r: Option<nat>)
    ensures r.Some? ==> r.value < |orders| && orders[r.value].id == id
    ensures r.None? <==> forall j :: 0 <= j < |orders| ==> orders[j].id != id
  {
    if orders == [] then None
    else if orders[0].id == id then Some(0)
    else
      var r := FindById(orders[1..], id);
      if r.None? then None else Some(r.value + 1)
  }

  /** Replacing an order by one the callback matches equally leaves the
      lookup where it was. */
  lemma {:induction false} FindOrderStable(orders: seq<Order>, i: nat, o: Order, d: Billplz.Callback)
    requires i < |orders| && Matches(o, d) == Matches(orders[i], d)
    ensures FindOrder(orders[i := o], d) == FindOrder(orders, d)
  {
    if i > 0 {
      assert orders[i := o][1..] == orders[1..][i - 1 := o];
      FindOrderStable(orders[1..], i - 1, o, d);
    }
  }

  /** A callback that carries no bill id lands on the oldest order that has
      no bill yet, whatever its number. */
  lemma {:induction false} MissingBillIdMatchesUnbilledOrder(orders: seq<Order>, d: Billplz.Callback, i: nat)
    requires d.billId.None? && i < |orders| && orders[i].billId.None?
    ensures FindOrder(orders, d).Some? && FindOrder(orders, d).value <= i
  {
    assert Matches(orders[i], d);
  }

  // ---------------------------------------------------------------------
  // The two transitions

  /** The order is the same record apart from the payment bookkeeping. */
  predicate OnlyPaymentChanged(o: Order, r: Order)
  {
    r == o.(paymentStatus := r.paymentStatus, status := r.status, paidAt := r.paidAt, metadata := r.metadata)
  }

  /** `array_merge($metadata ?? [], $added)` with string keys: every prior
      key survives unless `added` overrides it. */
  predicate MergedInto(old_: map<string, Meta>, added: map<string, Meta>, r: map<string, Meta>)
  {
    && r.Keys == old_.Keys + added.Keys
    && (forall k :: k in added ==> r[k] == added[k])
    && (forall k :: k in old_ && k !in added ==> r[k] == old_[k])
  }

  /** The metadata a successful payment records under `tag`
      (`webhook_data` or `redirect_data`). */
  function PaidEntries(d: Billplz.Callback, tag: string): map<string, Meta>
  {
    map[tag := Parsed(d), "paid_at" := TextOrNull(d.paidAt), "transaction_id" := TextOrNull(d.transactionId)]
  }

  /** The metadata a failed payment records. */
  function FailedEntries(d: Billplz.Callback, now: int): map<string, Meta>
  {
    map["webhook_data" := Parsed(d), "failed_at" := At(now)]
  }

  /** A successful payment: paid, processing, stamped with the gateway's
      `paid_at` or else the clock, and the callback merged into the metadata. */
  function MarkPaid(o: Order, d: Billplz.Callback, now: int, tag: string): (r: Order)
    ensures r.paymentStatus == PaymentPaid && r.status == Processing
    ensures d.paidAt.Some? ==> r.paidAt == Some(Reported(d.paidAt.value))
    ensures d.paidAt.None? ==> r.paidAt == Some(Clock(now))
    ensures MergedInto(o.metadata, PaidEntries(d, tag), r.metadata)
    ensures OnlyPaymentChanged(o, r)
  {
    o.(paymentStatus := PaymentPaid, status := Processing,
       paidAt := Some(if d.paidAt.Some? then Reported(d.paidAt.value) else Clock(now)),
       metadata := o.metadata + PaidEntries(d, tag))
  }

  /** A failed payment: failed, cancelled, the callback and the clock merged
      into the metadata; `paid_at` is left as it was. */
  function MarkFailed(o: Order, d: Billplz.Callback, now: int): (r: Order)
    ensures r.paymentStatus == PaymentFailed && r.status == Cancelled
    ensures r.paidAt == o.paidAt
    ensures MergedInto(o.metadata, FailedEntries(d, now), r.metadata)
    ensures OnlyPaymentChanged(o, r)
  {
    o.(paymentStatus := PaymentFailed, status := Cancelled, metadata := o.metadata + FailedEntries(d, now))
  }

  /** Neither transition moves an order to another callback's match set. */
  lemma {:induction false} TransitionsKeepMatching(o: Order, d: Billplz.Callback, e: Billplz.Callback, now: int, tag: string)
    ensures Matches(MarkPaid(o, d, now, tag), e) == Matches(o, e)
    ensures Matches(MarkFailed(o, d, now), e) == Matches(o, e)
  {
  }

  // ---------------------------------------------------------------------
  // Restoring stock

  /** One item of the order put back: `Product::find` then `increment`;
      an item whose product no longer exists is skipped. */
  function RestoreItem(products: map<nat, Product>, item: OrderItem, orderId: nat): map<nat, Product>
  {
    if item.orderId == orderId && item.productId in products then
      var p := products[item.productId];
      products[item.productId := p.(stock := p.stock + item.quantity)]
    else products
  }

  /** The items of `orderId` among `items`, put back in item order. */
  function RestoreStock(products: map<nat, Product>, items: seq<OrderItem>, orderId: nat): map<nat, Product>
  {
    if items == [] then products
    else RestoreItem(RestoreStock(products, items[..|items| - 1], orderId), items[|items| - 1], orderId)
  }

  /** How many units of `productId` the order `orderId` holds. */
  function QuantityOf(items: seq<OrderItem>, orderId: nat, productId: nat): int
  {
    if items == [] then 0
    else
      var last := items[|items| - 1];
      QuantityOf(items[..|items| - 1], orderId, productId)
        + (if last.orderId == orderId && last.productId == productId then last.quantity else 0)
  }

  /** Restoring adds back, to every product still present, exactly the
      quantity the order holds of it; nothing else about a product changes
      and no product appears or disappears. */
  lemma {:induction false} RestoreStockAddsQuantities(products: map<nat, Product>, items: seq<OrderItem>, orderId: nat)
    ensures RestoreStock(products, items, orderId).Keys == products.Keys
    ensures forall pid :: pid in products ==>
      RestoreStock(products, items, orderId)[pid]
        == products[pid].(stock := products[pid].stock + QuantityOf(items, orderId, pid))
  {
    if items != [] {
      RestoreStockAddsQuantities(products, items[..|items| - 1], orderId);
    }
  }

  /** An order's quantities are positive when its items' are. */
  lemma {:induction false} QuantityOfNonNegative(items: seq<OrderItem>, orderId: nat, productId: nat)
    requires forall k :: 0 <= k < |items| ==> items[k].quantity >= 1
    ensures QuantityOf(items, orderId, productId) >= 0
  {
    if items != [] {
      QuantityOfNonNegative(items[..|items| - 1], orderId, productId);
    }
  }

  /** Restoring never lowers a stock level. */
  lemma {:induction false} RestoreStockNeverLowers(products: map<nat, Product>, items: seq<OrderItem>, orderId: nat)
    requires forall k :: 0 <= k < |items| ==> items[k].quantity >= 1
    ensures RestoreStock(products, items, orderId).Keys == products.Keys
    ensures forall pid :: pid in products ==> RestoreStock(products, items, orderId)[pid].stock >= products[pid].stock
  {
    RestoreStockAddsQuantities(products, items, orderId);
    forall pid | pid in products
      ensures RestoreStock(products, items, orderId)[pid].stock >= products[pid].stock
    {
      QuantityOfNonNegative(items, orderId, pid);
    }
  }

  /** A second failed callback for the same order restores the stock a
      second time: every product present gains twice the order's quantity. */
  lemma {:induction false} RestoringTwiceAddsTwice(products: map<nat, Product>, items: seq<OrderItem>, orderId: nat)
    ensures var twice := RestoreStock(RestoreStock(products, items, orderId), items, orderId);
      twice.Keys == products.Keys &&
      forall pid :: pid in products ==>
        twice[pid].stock == products[pid].stock + 2 * QuantityOf(items, orderId, pid)
  {
    RestoreStockAddsQuantities(products, items, orderId);
    RestoreStockAddsQuantities(RestoreStock(products, items, orderId), items, orderId);
  }

  lemma {:induction false} QuantityOfOtherOrders(items: seq<OrderItem>, orderId: nat, productId: nat)
    requires forall k :: 0 <= k < |items| ==> items[k].orderId != orderId
    ensures QuantityOf(items, orderId, productId) == 0
  {
    if items != [] {
      QuantityOfOtherOrders(items[..|items| - 1], orderId, productId);
    }
  }

  /** Checkout followed by a failed payment is a round trip for stock: the
      new order's single item takes `quantity` off one product, and restoring
      the new order puts exactly that back, since every earlier item belongs
      to an earlier order. */
  lemma {:induction false} FailedCheckoutRestoresStock(products: map<nat, Product>, items: seq<OrderItem>,
                                                       item: OrderItem)
    requires item.productId in products
    requires forall k :: 0 <= k < |items| ==> items[k].orderId != item.orderId
    ensures var p := products[item.productId];
      RestoreStock(products[item.productId := p.(stock := p.stock - item.quantity)], items + [item], item.orderId)
        == products
  {
    var pid := item.productId;
    var p := products[pid];
    var taken := products[pid := p.(stock := p.stock - item.quantity)];
    var all := items + [item];
    assert all[..|all| - 1] == items;
    RestoreStockAddsQuantities(taken, items, item.orderId);
    forall q | q in taken ensures QuantityOf(items, item.orderId, q) == 0 {
      QuantityOfOtherOrders(items, item.orderId, q);
    }
    var before := RestoreStock(taken, items, item.orderId);
    assert before == taken;
  }
}
