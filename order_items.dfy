/** An order line: a snapshot of the product's name and price at the moment
    of ordering, the quantity and the line subtotal. */
module OrderItems {
  import opened Php

  datatype OrderItem = OrderItem(
    id: nat,
    orderId: nat,
    productId: nat,
    productName: string,
    productPrice: real,
    quantity: int,
    color: Option<string>,
    subtotal: real)

  /** `calculateSubtotal`: the snapshot price times the quantity. It reads
      only the line itself, never the catalogue's current price. */
  function CalculateSubtotal(item: OrderItem): (r: real)
    ensures item.productPrice >= 0.0 && item.quantity >= 0 ==> r >= 0.0
    ensures item.quantity == 1 ==> r == item.productPrice
    ensures item.quantity == 0 ==> r == 0.0
  {
    item.productPrice * item.quantity as real
  }

  /** With a non-negative price and at least one unit, a line costs at least
      the unit price, and exactly the unit price times the quantity. */
  lemma {:induction false} SubtotalCoversOneUnit(item: OrderItem)
    requires item.productPrice >= 0.0 && item.quantity >= 1
    ensures item.productPrice <= CalculateSubtotal(item)
    ensures item.quantity > 1 && item.productPrice > 0.0 ==> item.productPrice < CalculateSubtotal(item)
  {
    var extra := item.productPrice * (item.quantity - 1) as real;
    assert CalculateSubtotal(item) == item.productPrice + extra;
    assert extra >= 0.0;
  }
}
