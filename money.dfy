/** Exact arithmetic for ringgit amounts. PHP works on floats here; the model
    uses `real`, and writes out the two roundings the core performs: the
    `(int)` cast (toward zero) and PHP `round` / the `decimal:2` cast (to the
    nearest, halves away from zero). */
module Money {

  /** `(int) $x` on a number: truncation toward zero. */
  function Trunc(x: real): (n: int)
    ensures x >= 0.0 ==> n as real <= x < n as real + 1.0
    ensures x < 0.0 ==> n as real - 1.0 < x <= n as real
  {
    if x >= 0.0 then x.Floor else -((-x).Floor)
  }

  /** `round($x)`: the nearest integer, halves rounded away from zero. */
  function RoundHalfAway(x: real): (n: int)
    ensures x >= 0.0 ==> n as real - 0.5 <= x < n as real + 0.5
    ensures x < 0.0 ==> n as real - 0.5 < x <= n as real + 0.5
  {
    if x >= 0.0 then (x + 0.5).Floor else -((-x + 0.5).Floor)
  }

  /** An amount read back through Eloquent's `decimal:2` cast: rounded to
      whole sen, halves away from zero. */
  function Decimal2(x: real): real
  {
    RoundHalfAway(x * 100.0) as real / 100.0
  }

  /** Both roundings leave whole numbers alone. */
  lemma WholeNumbersUnchanged(n: int)
    ensures Trunc(n as real) == n
    ensures RoundHalfAway(n as real) == n
  {
  }

  /** Reading an amount through the cast moves it by at most half a sen, and
      an amount already in whole sen is unchanged. */
  lemma Decimal2Close(x: real)
    ensures -0.005 <= Decimal2(x) - x <= 0.005
    ensures (x * 100.0).Floor as real == x * 100.0 ==> Decimal2(x) == x
  {
    var n := RoundHalfAway(x * 100.0);
    assert -0.5 <= n as real - x * 100.0 <= 0.5;
    if (x * 100.0).Floor as real == x * 100.0 {
      WholeNumbersUnchanged((x * 100.0).Floor);
    }
  }
}
