/** The pricing rules shared by the Billplz checkout and the gateway-less
    order creation: subtotal = unit price × quantity, two fixed percentage
    discount tables keyed by the delivery and payment method, and
    total = subtotal − delivery discount − payment discount. */
module Pricing {

  /** `calculateDeliveryDiscount`'s table: cod 0 %, postage 5 %, walkin 10 %;
      any other key 0 %. */
  function DeliveryPercent(key: string): (pct: nat)
    ensures pct <= 10
  {
    if key == "cod" then 0
    else if key == "postage" then 5
    else if key == "walkin" then 10
    else 0
  }

  /** `calculatePaymentDiscount`'s table: full 5 %, booking 0 %, walkin 3 %;
      any other key 0 %. */
  function PaymentPercent(key: string): (pct: nat)
    ensures pct <= 5
  {
    if key == "full" then 5
    else if key == "booking" then 0
    else if key == "walkin" then 3
    else 0
  }

  /** `$subtotal * ($percentage / 100)` */
  function DeliveryDiscount(key: string, subtotal: real): real
  {
    subtotal * (DeliveryPercent(key) as real / 100.0)
  }

  function PaymentDiscount(key: string, subtotal: real): real
  {
    subtotal * (PaymentPercent(key) as real / 100.0)
  }

  /** The amounts stored on a new order. */
  datatype Quote = Quote(subtotal: real, deliveryDiscount: real, paymentDiscount: real, total: real)

  /** Prices `quantity` units at `unitPrice` for the chosen methods. */
  function PriceOrder(unitPrice: real, quantity: int, delivery: string, payment: string): (q: Quote)
    ensures q.subtotal == unitPrice * quantity as real
    ensures q.total == q.subtotal - q.deliveryDiscount - q.paymentDiscount
  {
    var subtotal := unitPrice * quantity as real;
    var dd := DeliveryDiscount(delivery, subtotal);
    var pd := PaymentDiscount(payment, subtotal);
    Quote(subtotal, dd, pd, subtotal - dd - pd)
  }

  /** Keys outside the tables earn no discount (no error is raised). */
  lemma UnknownMethodsEarnNothing(delivery: string, payment: string, subtotal: real)
    ensures delivery !in {"cod", "postage", "walkin"} ==> DeliveryDiscount(delivery, subtotal) == 0.0
    ensures payment !in {"full", "booking", "walkin"} ==> PaymentDiscount(payment, subtotal) == 0.0
  {
  }

  /** Whatever the methods, a non-negative subtotal loses at most 15 %:
      0.85 · subtotal ≤ total ≤ subtotal, and every discount is non-negative. */
  lemma {:induction false} TotalWithinDiscountBand(unitPrice: real, quantity: int, delivery: string, payment: string)
    requires unitPrice * quantity as real >= 0.0
    ensures var q := PriceOrder(unitPrice, quantity, delivery, payment);
      && 0.0 <= q.deliveryDiscount <= q.subtotal / 10.0
      && 0.0 <= q.paymentDiscount <= q.subtotal / 20.0
      && q.subtotal * 0.85 <= q.total <= q.subtotal
  {
    var q := PriceOrder(unitPrice, quantity, delivery, payment);
    var s := q.subtotal;
    var d := DeliveryPercent(delivery) as real;
    var p := PaymentPercent(payment) as real;
    assert q.deliveryDiscount == s * (d / 100.0);
    assert q.paymentDiscount == s * (p / 100.0);
    assert 0.0 <= s * (d / 100.0) <= s * (10.0 / 100.0) by {
      assert 0.0 <= d / 100.0 <= 10.0 / 100.0;
    }
    assert 0.0 <= s * (p / 100.0) <= s * (5.0 / 100.0) by {
      assert 0.0 <= p / 100.0 <= 5.0 / 100.0;
    }
  }

  /** The worked example: 200 with postage and full payment gives discounts
      of 10 and 10 and a total of 180. */
  lemma PostageFullExample()
    ensures PriceOrder(200.0, 1, "postage", "full") == Quote(200.0, 10.0, 10.0, 180.0)
  {
  }
}
