/** The catalogue record the order core reads and whose stock it moves, with
    the model's stock and sale helpers. */
module Products {
  import opened Php
  import Money

  /** A product row. `original_price` is nullable; through the `decimal:2`
      cast a present value is a non-empty string, so only null is falsy. */
  datatype Product = Product(
    name: string,
    price: real,
    originalPrice: Option<real>,
    stock: int,
    isActive: bool)

  /** What the catalogue's own validation admits: price, stock and original
      price are never negative. */
  predicate WellFormed(p: Product)
  {
    p.price >= 0.0 && p.stock >= 0 && (p.originalPrice.Some? ==> p.originalPrice.value >= 0.0)
  }

  /** `isInStock`: at least one unit can be ordered; with stock never
      negative, exactly when the stock is not zero. */
  predicate IsInStock(p: Product)
    ensures IsInStock(p) <==> !(p.stock < 1)
    ensures WellFormed(p) ==> (IsInStock(p) <==> p.stock != 0)
  {
    p.stock > 0
  }

  /** `isOnSale`: an original price is set and exceeds the price. Null is
      the only falsy original price, and on a well-formed product a sale
      price is below a positive original price, so the percentage below
      never divides by zero. */
  predicate IsOnSale(p: Product)
    ensures IsOnSale(p) ==> p.originalPrice.Some?
    ensures IsOnSale(p) && p.price >= 0.0 ==> p.originalPrice.value > 0.0
    ensures p.originalPrice.None? ==> !IsOnSale(p)
  {
    p.originalPrice.Some? && p.originalPrice.value > p.price
  }

  /** `getDiscountPercentage`: 0 when not on sale, otherwise the markdown
      relative to the original price, in whole percent (PHP `round`). */
  function DiscountPercentage(p: Product): (pct: int)
    requires p.price >= 0.0
    ensures !IsOnSale(p) ==> pct == 0
    ensures 0 <= pct <= 100
  {
    if !IsOnSale(p) then 0
    else
      var o := p.originalPrice.value;
      var ratio := (o - p.price) / o * 100.0;
      assert 0.0 < ratio <= 100.0 by {
        assert (o - p.price) / o <= 1.0;
      }
      Money.RoundHalfAway(ratio)
  }

  /** When on sale, the percentage is the markdown ratio rounded to the
      nearest whole percent. */
  lemma {:induction false} DiscountPercentageIsRoundedMarkdown(p: Product)
    requires p.price >= 0.0 && IsOnSale(p)
    ensures var ratio := (p.originalPrice.value - p.price) / p.originalPrice.value * 100.0;
      DiscountPercentage(p) as real - 0.5 <= ratio < DiscountPercentage(p) as real + 0.5
  {
  }

  /** A product sold at half its original price shows 50 %. */
  lemma HalfPriceExample()
    ensures DiscountPercentage(Product("x", 50.0, Some(100.0), 1, true)) == 50
  {
  }
}
