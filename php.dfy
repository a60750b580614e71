/** PHP values and string built-ins that the order/payment core relies on:
    null, truthiness and `empty`, the `(int)` and `(float)` casts of a
    string, decimal rendering and `str_pad`, `str_replace`, `explode`, ASCII
    case mapping and the byte-wise ordering the database uses for
    `ORDER BY order_number`. */
module Php {
  import Money

  /** A value that may be PHP `null`. */
  datatype Option<+T> = None | Some(value: T)

  /** A key of a validated request: left out of the request, sent as null,
      or sent with a value. Reading `$validated[k]` on an omitted key raises. */
  datatype Field<+T> = Omitted | Null | Given(value: T)

  /** `$validated[k] ?? null` */
  function OrNull<T>(f: Field<T>): (r: Option<T>)
    ensures r.Some? <==> f.Given?
  {
    if f.Given? then Some(f.value) else None
  }

  /** PHP truthiness of a string that may be null: null, "" and "0" are false. */
  predicate Truthy(s: Option<string>)
  {
    s.Some? && s.value != "" && s.value != "0"
  }

  /** `empty($s)` on a string column. */
  predicate IsEmpty(s: string)
  {
    s == "" || s == "0"
  }

  predicate StartsWith(s: string, prefix: string)
  {
    |prefix| <= |s| && s[..|prefix|] == prefix
  }

  // ---------------------------------------------------------------------
  // str_replace

  /** `str_replace($search, $replace, $subject)`: every non-overlapping
      occurrence of `search`, scanning left to right, is replaced. */
  function ReplaceAll(subject: string, search: string, replace: string): string
    requires search != []
    decreases |subject|
  {
    if |subject| < |search| then subject
    else if subject[..|search|] == search then replace + ReplaceAll(subject[|search|..], search, replace)
    else [subject[0]] + ReplaceAll(subject[1..], search, replace)
  }

  /** `pat` occurs in `s` starting at position `i`. */
  predicate OccursAt(s: string, pat: string, i: nat)
  {
    i + |pat| <= |s| && s[i..i + |pat|] == pat
  }

  /** `pat` does not start anywhere inside `a` when `a` is followed by `pat`. */
  ghost predicate NoEarlierOccurrence(a: string, pat: string)
  {
    forall i: nat :: i < |a| ==> !OccursAt(a + pat, pat, i)
  }

  /** Removing `pat` from `a + pat` gives back `a` when `pat` only occurs at the end. */
  lemma {:induction false} RemoveTrailing(a: string, pat: string)
    requires pat != []
    requires NoEarlierOccurrence(a, pat)
    ensures ReplaceAll(a + pat, pat, "") == a
  {
    var s := a + pat;
    if a == [] {
      assert s == pat;
      assert s[|pat|..] == [];
    } else {
      assert !OccursAt(s, pat, 0);
      assert s[1..] == a[1..] + pat;
      forall i: nat | i < |a[1..]|
        ensures !OccursAt(a[1..] + pat, pat, i)
      {
        assert !OccursAt(s, pat, i + 1);
        assert (a[1..] + pat)[i..i + |pat|] == s[i + 1..i + 1 + |pat|];
      }
      RemoveTrailing(a[1..], pat);
      assert s[0] == a[0];
      assert [a[0]] + a[1..] == a;
    }
  }

  // ---------------------------------------------------------------------
  // explode

  /** `explode($sep, $s)` for a one-character separator: never empty. */
  function Explode(s: string, sep: char): (parts: seq<string>)
    ensures |parts| >= 1
    ensures forall k, i :: 0 <= k < |parts| && 0 <= i < |parts[k]| ==> parts[k][i] != sep
  {
    if s == [] then [[]]
    else
      var rest := Explode(s[1..], sep);
      if s[0] == sep then [[]] + rest else [[s[0]] + rest[0]] + rest[1..]
  }

  /** `implode($sep, $parts)` */
  function Implode(parts: seq<string>, sep: char): string
  {
    if parts == [] then []
    else if |parts| == 1 then parts[0]
    else parts[0] + [sep] + Implode(parts[1..], sep)
  }

  /** Splitting and joining again on the same separator gives back the input. */
  lemma {:induction false} ExplodeImplode(s: string, sep: char)
    ensures Implode(Explode(s, sep), sep) == s
  {
    if s != [] {
      var rest := Explode(s[1..], sep);
      ExplodeImplode(s[1..], sep);
      if s[0] == sep {
        assert Explode(s, sep) == [[]] + rest;
        assert ([[]] + rest)[1..] == rest;
      } else {
        var parts := Explode(s, sep);
        assert parts == [[s[0]] + rest[0]] + rest[1..];
        if |rest| == 1 {
          assert Implode(rest, sep) == rest[0];
        } else {
          assert Implode(rest, sep) == rest[0] + [sep] + Implode(rest[1..], sep);
          assert parts[1..] == rest[1..];
        }
      }
    }
  }

  // ---------------------------------------------------------------------
  // ASCII case mapping (Str::upper, strtolower on ASCII text)

  function UpperChar(c: char): (u: char)
    ensures 'a' <= c <= 'z' ==> 'A' <= u <= 'Z' && u as int == c as int - 32
    ensures !('a' <= c <= 'z') ==> u == c
  {
    if 'a' <= c <= 'z' then (c as int - 32) as char else c
  }

  function LowerChar(c: char): (l: char)
    ensures 'A' <= c <= 'Z' ==> 'a' <= l <= 'z' && l as int == c as int + 32
    ensures !('A' <= c <= 'Z') ==> l == c
  {
    if 'A' <= c <= 'Z' then (c as int + 32) as char else c
  }

  function Upper(s: string): (u: string)
    ensures |u| == |s|
    ensures forall i :: 0 <= i < |s| ==> u[i] == UpperChar(s[i])
  {
    if s == [] then [] else [UpperChar(s[0])] + Upper(s[1..])
  }

  function Lower(s: string): (l: string)
    ensures |l| == |s|
    ensures forall i :: 0 <= i < |s| ==> l[i] == LowerChar(s[i])
  {
    if s == [] then [] else [LowerChar(s[0])] + Lower(s[1..])
  }

  // ---------------------------------------------------------------------
  // Decimal digits, the (int) cast, decimal rendering and str_pad

  predicate IsDigit(c: char)
  {
    '0' <= c <= '9'
  }

  predicate AllDigits(s: string)
  {
    forall i :: 0 <= i < |s| ==> IsDigit(s[i])
  }

  function DigitValue(c: char): (d: nat)
    requires IsDigit(c)
    ensures d < 10
  {
    c as int - '0' as int
  }

  function DigitChar(d: nat): (c: char)
    requires d < 10
    ensures IsDigit(c) && DigitValue(c) == d
  {
    ('0' as int + d) as char
  }

  /** The number written by a string of decimal digits. */
  function DigitsValue(s: string): nat
    requires AllDigits(s)
  {
    if s == [] then 0 else DigitsValue(s[..|s| - 1]) * 10 + DigitValue(s[|s| - 1])
  }

  /** Length of the longest run of digits at the start of `s`. */
  function DigitRun(s: string): (n: nat)
    ensures n <= |s| && AllDigits(s[..n])
    ensures n == |s| || !IsDigit(s[n])
  {
    if s != [] && IsDigit(s[0]) then
      var n := 1 + DigitRun(s[1..]);
      assert s[..n] == [s[0]] + s[1..][..n - 1];
      n
    else 0
  }

  /** The whitespace PHP skips before a number: space, \t, \n, \r, \v, \f. */
  predicate IsNumericSpace(c: char)
  {
    c == ' ' || c as int == 9 || c as int == 10 || c as int == 11 || c as int == 12 || c as int == 13
  }

  function SkipSpace(s: string): (t: string)
    ensures |t| <= |s| && t == s[|s| - |t|..]
    ensures t == [] || !IsNumericSpace(t[0])
  {
    if s != [] && IsNumericSpace(s[0]) then SkipSpace(s[1..]) else s
  }

  /** Decimal rendering of a natural number, without leading zeros. */
  function NatToDecimal(n: nat): (s: string)
    ensures s != [] && AllDigits(s)
    ensures (s[0] == '0') == (n == 0)
  {
    if n < 10 then [DigitChar(n)] else NatToDecimal(n / 10) + [DigitChar(n % 10)]
  }

  /** PHP's string conversion of an integer. */
  function IntToDecimal(n: int): (s: string)
    ensures s != []
  {
    if n < 0 then "-" + NatToDecimal(-n) else NatToDecimal(n)
  }

  lemma {:induction false} NatToDecimalValue(n: nat)
    ensures DigitsValue(NatToDecimal(n)) == n
  {
    if n >= 10 {
      NatToDecimalValue(n / 10);
      var s := NatToDecimal(n);
      assert s[..|s| - 1] == NatToDecimal(n / 10);
    }
  }


  /** Ten to the power `n`. */
  function Pow10(n: nat): (p: real)
    ensures p >= 1.0
  {
    if n == 0 then 1.0 else 10.0 * Pow10(n - 1)
  }

  /** The factor applied by an exponent part (`e` or `E`, an optional sign,
      at least one digit) at the start of `s`; 1 when there is none. */
  function ExponentScale(s: string): (f: real)
    ensures f > 0.0
  {
    if s == [] || (s[0] != 'e' && s[0] != 'E') then 1.0
    else
      var t := s[1..];
      var u := if t != [] && (t[0] == '-' || t[0] == '+') then t[1..] else t;
      var n := DigitRun(u);
      if n == 0 then 1.0
      else if t[0] == '-' then 1.0 / Pow10(DigitsValue(u[..n]))
      else Pow10(DigitsValue(u[..n]))
  }

  /** The number written `whole.frac`. */
  function Mantissa(whole: nat, frac: string): (m: real)
    requires AllDigits(frac)
    ensures m >= whole as real
    ensures frac == [] ==> m == whole as real
  {
    var f := DigitsValue(frac) as real / Pow10(|frac|);
    assert f >= 0.0;
    whole as real + f
  }

  /** `m` scaled by the exponent part at the start of `rest`. */
  function Scaled(m: real, rest: string): (x: real)
    requires m >= 0.0
    ensures x >= 0.0
    ensures rest == [] ==> x == m
  {
    var e := ExponentScale(rest);
    assert m * e >= 0.0;
    m * e
  }

  /** The unsigned decimal numeral at the start of `t`: digits, optionally a
      point and more digits, optionally an exponent; 0 when there is no
      digit before the exponent. */
  function UnsignedFloat(t: string): (x: real)
    ensures x >= 0.0
  {
    var i := DigitRun(t);
    if i < |t| && t[i] == '.' then
      var after := t[i + 1..];
      var f := DigitRun(after);
      if i + f == 0 then 0.0
      else Scaled(Mantissa(DigitsValue(t[..i]), after[..f]), after[f..])
    else if i == 0 then 0.0
    else Scaled(DigitsValue(t[..i]) as real, t[i..])
  }

  /** `(float) $s`: leading whitespace, an optional sign, then the longest
      decimal numeral; 0 when the string does not start with one. */
  function FloatCast(s: string): real
  {
    var t := SkipSpace(s);
    if t != [] && t[0] == '-' then -UnsignedFloat(t[1..])
    else if t != [] && t[0] == '+' then UnsignedFloat(t[1..])
    else UnsignedFloat(t)
  }

  /** `(int) $s`: since PHP 7.1 a leading numeric string is read as by the
      `(float)` cast, exponent included, and then truncated toward zero. */
  function IntCast(s: string): int
  {
    Money.Trunc(FloatCast(s))
  }

  /** A plain run of digits reads as its value. */
  lemma UnsignedFloatOfDigits(d: string)
    requires d != [] && AllDigits(d)
    ensures UnsignedFloat(d) == DigitsValue(d) as real
  {
    assert DigitRun(d) == |d| by {
      assert d[..|d|] == d;
    }
    assert d[..|d|] == d && d[|d|..] == [];
  }

  /** The `(float)` cast reads back every integer PHP prints, as the `(int)`
      cast does. */
  lemma FloatCastOfInteger(n: int)
    ensures FloatCast(IntToDecimal(n)) == n as real
    ensures FloatCast(IntToDecimal(n)) == IntCast(IntToDecimal(n)) as real
  {
    if n < 0 {
      FloatCastOfNegative(NatToDecimal(-n));
      NatToDecimalValue(-n);
    } else {
      FloatCastOfDigits(NatToDecimal(n));
      NatToDecimalValue(n);
    }
    Money.WholeNumbersUnchanged(n);
  }

  lemma FloatCastOfDigits(d: string)
    requires d != [] && AllDigits(d)
    ensures FloatCast(d) == DigitsValue(d) as real
  {
    UnsignedFloatOfDigits(d);
    assert IsDigit(d[0]);
  }

  lemma FloatCastOfNegative(d: string)
    requires d != [] && AllDigits(d)
    ensures FloatCast("-" + d) == -(DigitsValue(d) as real)
  {
    UnsignedFloatOfDigits(d);
    var s := "-" + d;
    assert s[0] == '-' && s[1..] == d;
    assert SkipSpace(s) == s;
  }

  /** The `(int)` cast reads back exactly the integer PHP printed. */
  lemma DecimalRoundTrip(n: int)
    ensures IntCast(IntToDecimal(n)) == n
  {
    FloatCastOfInteger(n);
  }

  /** A run of digits, such as a zero-padded sequence, casts to its value. */
  lemma IntCastOfDigits(d: string)
    requires d != [] && AllDigits(d)
    ensures IntCast(d) == DigitsValue(d)
  {
    FloatCastOfDigits(d);
    Money.WholeNumbersUnchanged(DigitsValue(d));
  }

  /** Unlike the `(int)` cast, the `(float)` cast keeps the fraction. */
  lemma FloatKeepsFraction()
    ensures FloatCast("12.5") == 12.5 && IntCast("12.5") == 12
  {
    assert DigitRun("12.5") == 2 && "12.5"[..2] == "12";
    assert "12.5"[3..] == "5" && DigitRun("5") == 1 && "5"[..1] == "5" && "5"[1..] == [];
    assert DigitsValue("12") == 12;
    assert SkipSpace("12.5") == "12.5";
  }

  /** Both casts apply an exponent: the `(int)` cast goes through the float
      reading, so "1e3" is 1000 and not 1. */
  lemma FloatAppliesExponent()
    ensures FloatCast("1e3") == 1000.0 && IntCast("1e3") == 1000
  {
    assert DigitRun("1e3") == 1 && "1e3"[..1] == "1" && "1e3"[1..] == "e3";
    assert "e3"[1..] == "3" && DigitRun("3") == 1 && "3"[..1] == "3";
    assert Pow10(3) == 1000.0;
    assert SkipSpace("1e3") == "1e3";
  }

  function Repeat(c: char, n: nat): (s: string)
    ensures |s| == n && forall i :: 0 <= i < n ==> s[i] == c
  {
    if n == 0 then [] else [c] + Repeat(c, n - 1)
  }

  /** `str_pad($s, $width, $c, STR_PAD_LEFT)` */
  function PadLeft(s: string, width: nat, c: char): (r: string)
    ensures |r| == if |s| < width then width else |s|
    ensures r[|r| - |s|..] == s
    ensures forall i :: 0 <= i < |r| - |s| ==> r[i] == c
  {
    if |s| >= width then s else Repeat(c, width - |s|) + s
  }

  // ---------------------------------------------------------------------
  // Ordering of strings by character code

  /** `a` sorts strictly before `b`: a proper prefix of it, or smaller at the
      first position where the two differ. */
  predicate Below(a: string, b: string)
  {
    if a == [] then b != []
    else if b == [] then false
    else if a[0] != b[0] then a[0] < b[0]
    else Below(a[1..], b[1..])
  }

  lemma {:induction false} BelowIrreflexive(a: string)
    ensures !Below(a, a)
  {
    if a != [] {
      BelowIrreflexive(a[1..]);
    }
  }

  lemma {:induction false} BelowTotal(a: string, b: string)
    ensures a == b || Below(a, b) || Below(b, a)
  {
    if a != [] && b != [] && a[0] == b[0] {
      BelowTotal(a[1..], b[1..]);
      if a[1..] == b[1..] {
        assert a == [a[0]] + a[1..] && b == [b[0]] + b[1..];
      }
    }
  }

  lemma {:induction false} BelowTransitive(a: string, b: string, c: string)
    requires Below(a, b) && Below(b, c)
    ensures Below(a, c)
  {
    if a != [] && a[0] == b[0] && b[0] == c[0] {
      BelowTransitive(a[1..], b[1..], c[1..]);
    }
  }

  lemma {:induction false} BelowAsymmetric(a: string, b: string)
    requires Below(a, b)
    ensures !Below(b, a)
  {
    if a != [] && a[0] == b[0] {
      BelowAsymmetric(a[1..], b[1..]);
    }
  }

  /** A common prefix does not change the order. */
  lemma {:induction false} BelowCommonPrefix(p: string, a: string, b: string)
    ensures Below(p + a, p + b) == Below(a, b)
  {
    if p != [] {
      assert (p + a)[0] == p[0] == (p + b)[0];
      assert Below(p + a, p + b) == Below((p + a)[1..], (p + b)[1..]);
      assert (p + a)[1..] == p[1..] + a;
      assert (p + b)[1..] == p[1..] + b;
      BelowCommonPrefix(p[1..], a, b);
    } else {
      assert p + a == a && p + b == b;
    }
  }

  /** The greatest string of a non-empty list (`ORDER BY … DESC` then `first()`). */
  function Greatest(xs: seq<string>): (g: string)
    requires xs != []
    ensures g in xs
    ensures forall y :: y in xs ==> y == g || Below(y, g)
  {
    if |xs| == 1 then xs[0]
    else
      var rest := Greatest(xs[1..]);
      BelowTotal(xs[0], rest);
      if Below(rest, xs[0]) then
        forall y | y in xs[1..] && y != rest ensures Below(y, xs[0]) {
          BelowTransitive(y, rest, xs[0]);
        }
        xs[0]
      else rest
  }
}
