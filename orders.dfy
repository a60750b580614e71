/** The order record, its two status domains, `calculateTotal`, and order
    number generation (`ORD-<date>-<nnn>`, the sequence restarting each day). */
module Orders {
  import opened Php
  import Billplz

  /** `orders.status`: the values `updateStatus` accepts. */
  datatype OrderStatus = Pending | Processing | Completed | Cancelled

  /** `orders.payment_status`: the column's enum ('pending', 'paid',
      'failed', 'refunded'; default 'pending'). */
  datatype PaymentStatus = PaymentPending | PaymentPaid | PaymentFailed | PaymentRefunded

  function StatusName(s: OrderStatus): string
  {
    match s
    case Pending => "pending"
    case Processing => "processing"
    case Completed => "completed"
    case Cancelled => "cancelled"
  }

  /** Membership of the four valid status names. */
  function ParseStatus(name: string): (s: Option<OrderStatus>)
    ensures s.Some? <==> name in {"pending", "processing", "completed", "cancelled"}
  {
    if name == "pending" then Some(Pending)
    else if name == "processing" then Some(Processing)
    else if name == "completed" then Some(Completed)
    else if name == "cancelled" then Some(Cancelled)
    else None
  }

  /** Parsing inverts naming in both directions. */
  lemma {:induction false} StatusNamesRoundTrip(s: OrderStatus, name: string)
    ensures ParseStatus(StatusName(s)) == Some(s)
    ensures ParseStatus(name).Some? ==> StatusName(ParseStatus(name).value) == name
  {
  }

  /** `paid_at`: the gateway's own timestamp text, or the server clock. */
  datatype Timestamp = Reported(text: string) | Clock(tick: int)

  /** A value in the `payment_metadata` JSON bag. */
  datatype Meta = Text(text: string) | Nothing | Parsed(callback: Billplz.Callback) | At(tick: int)

  function TextOrNull(s: Option<string>): Meta
  {
    if s.Some? then Text(s.value) else Nothing
  }

  /** An order row. A null `payment_metadata` is the empty bag. */
  datatype Order = Order(
    id: nat,
    orderNumber: string,
    customerName: string,
    customerPhone: string,
    customerEmail: string,
    deliveryMethod: string,
    paymentMethod: string,
    subtotal: real,
    deliveryDiscount: real,
    paymentDiscount: real,
    totalAmount: real,
    status: OrderStatus,
    notes: Option<string>,
    billId: Option<string>,
    collectionId: Option<string>,
    paymentStatus: PaymentStatus,
    paidAt: Option<Timestamp>,
    idempotencyKey: Option<string>,
    metadata: map<string, Meta>)

  /** `calculateTotal`: the subtotal less both discounts, from the amounts
      as read back through the `decimal:2` casts. */
  function CalculateTotal(o: Order): (t: real)
    ensures o.deliveryDiscount >= 0.0 && o.paymentDiscount >= 0.0 ==> t <= o.subtotal
    ensures o.deliveryDiscount <= 0.0 && o.paymentDiscount <= 0.0 ==> t >= o.subtotal
  {
    o.subtotal - o.deliveryDiscount - o.paymentDiscount
  }

  /** The stored total agrees with `calculateTotal`. */
  predicate TotalsAgree(o: Order)
  {
    o.totalAmount == CalculateTotal(o)
  }

  // ---------------------------------------------------------------------
  // Order numbers

  function Prefix(date: string): string
  {
    "ORD-" + date + "-"
  }

  /** The existing numbers that `LIKE 'ORD-<date>-%'` selects. */
  function SameDay(existing: seq<string>, prefix: string): (r: seq<string>)
    ensures forall x :: x in r <==> x in existing && StartsWith(x, prefix)
    ensures (forall x :: x in existing ==> !StartsWith(x, prefix)) ==> r == []
  {
    if existing == [] then []
    else (if StartsWith(existing[0], prefix) then [existing[0]] else []) + SameDay(existing[1..], prefix)
  }

  /** `substr($s, -3)` */
  function LastThree(s: string): string
  {
    if |s| >= 3 then s[|s| - 3..] else s
  }

  /** `str_pad($n, 3, '0', STR_PAD_LEFT)` */
  function Pad3(n: int): string
  {
    PadLeft(IntToDecimal(n), 3, '0')
  }

  /** `generateOrderNumber`, with the day (`date('Ymd')`) as a parameter:
      one more than the last three characters of the greatest same-day
      number, or 1 on a new day, padded to three digits. */
  function GenerateOrderNumber(existing: seq<string>, date: string): (n: string)
    ensures StartsWith(n, Prefix(date))
  {
    var prefix := Prefix(date);
    var same := SameDay(existing, prefix);
    var next := if same == [] then 1 else IntCast(LastThree(Greatest(same))) + 1;
    prefix + Pad3(next)
  }

  /** A number of the day with a three-digit sequence `s`. */
  predicate HasSequence(x: string, prefix: string)
  {
    |x| == |prefix| + 3 && StartsWith(x, prefix) && AllDigits(x[|prefix|..])
  }

  function Sequence(x: string, prefix: string): nat
    requires HasSequence(x, prefix)
  {
    DigitsValue(x[|prefix|..])
  }

  /** `str_pad` of a single digit: two zeros and that digit. */
  lemma PadDigit(d: nat)
    requires 1 <= d <= 9
    ensures Pad3(d) == ['0', '0', DigitChar(d)]
  {
    assert IntToDecimal(d) == [DigitChar(d)];
    var p := Pad3(d);
    assert |p| == 3 && p[2..] == [DigitChar(d)] && p[0] == '0' && p[1] == '0';
  }

  lemma PadTwo()
    ensures Pad3(2) == "002"
  {
    PadDigit(2);
    assert DigitChar(2) == '2';
  }

  /** The first order of a day gets sequence 001. */
  lemma {:induction false} FirstOfTheDay(existing: seq<string>, date: string)
    requires forall x :: x in existing ==> !StartsWith(x, Prefix(date))
    ensures GenerateOrderNumber(existing, date) == Prefix(date) + "001"
  {
    assert SameDay(existing, Prefix(date)) == [];
    PadDigit(1);
  }

  lemma ThreeDigitValue(s: string)
    requires |s| == 3 && AllDigits(s)
    ensures DigitsValue(s) == 100 * DigitValue(s[0]) + 10 * DigitValue(s[1]) + DigitValue(s[2])
    ensures DigitsValue(s) <= 999
  {
    var two, one := s[..2], s[..1];
    assert two[..1] == one && one[..0] == [];
    assert DigitsValue(one) == DigitValue(s[0]);
    assert DigitsValue(two) == DigitsValue(one) * 10 + DigitValue(s[1]);
    assert DigitsValue(s) == DigitsValue(two) * 10 + DigitValue(s[2]);
    assert DigitValue(s[0]) <= 9 && DigitValue(s[1]) <= 9 && DigitValue(s[2]) <= 9;
  }

  /** On three-digit strings the character order is the numeric order. */
  lemma {:induction false} ThreeDigitOrder(a: string, b: string)
    requires |a| == 3 && |b| == 3 && AllDigits(a) && AllDigits(b)
    ensures Below(a, b) <==> DigitsValue(a) < DigitsValue(b)
  {
    ThreeDigitValue(a);
    ThreeDigitValue(b);
    assert Below(a, b) == (if a[0] != b[0] then a[0] < b[0] else Below(a[1..], b[1..]));
    assert Below(a[1..], b[1..]) == (if a[1] != b[1] then a[1] < b[1] else Below(a[2..], b[2..]));
    assert Below(a[2..], b[2..]) == (if a[2] != b[2] then a[2] < b[2] else Below(a[3..], b[3..]));
    assert a[3..] == [] && b[3..] == [];
  }

  /** Among numbers of one day, the string order of `ORDER BY order_number`
      is the order of their sequences. */
  lemma {:induction false} SequenceOrder(x: string, y: string, prefix: string)
    requires HasSequence(x, prefix) && HasSequence(y, prefix)
    ensures Below(x, y) <==> Sequence(x, prefix) < Sequence(y, prefix)
    ensures Sequence(x, prefix) <= 999
  {
    assert x == prefix + x[|prefix|..] && y == prefix + y[|prefix|..];
    BelowCommonPrefix(prefix, x[|prefix|..], y[|prefix|..]);
    ThreeDigitOrder(x[|prefix|..], y[|prefix|..]);
    ThreeDigitValue(x[|prefix|..]);
  }

  lemma {:induction false} ZerosValue(zeros: string)
    requires forall i :: 0 <= i < |zeros| ==> zeros[i] == '0'
    ensures AllDigits(zeros) && DigitsValue(zeros) == 0
  {
    if zeros != [] {
      ZerosValue(zeros[..|zeros| - 1]);
    }
  }

  lemma {:induction false} LeadingZerosIgnored(zeros: string, d: string)
    requires forall i :: 0 <= i < |zeros| ==> zeros[i] == '0'
    requires AllDigits(d)
    ensures AllDigits(zeros + d) && DigitsValue(zeros + d) == DigitsValue(d)
  {
    if d == [] {
      assert zeros + d == zeros;
      ZerosValue(zeros);
    } else {
      var s := zeros + d;
      assert s[..|s| - 1] == zeros + d[..|d| - 1];
      assert s[|s| - 1] == d[|d| - 1];
      LeadingZerosIgnored(zeros, d[..|d| - 1]);
    }
  }

  lemma DecimalLength(n: nat)
    requires 1 <= n <= 999
    ensures 1 <= |IntToDecimal(n)| <= 3
  {
    if n >= 10 {
      assert NatToDecimal(n) == NatToDecimal(n / 10) + [DigitChar(n % 10)];
      if n >= 100 {
        assert NatToDecimal(n / 10) == NatToDecimal(n / 100) + [DigitChar(n / 10 % 10)];
      }
    }
  }

  /** `str_pad` of a value from 1 to 999 is three digits writing that value. */
  lemma {:induction false} Pad3Value(n: int)
    requires 1 <= n <= 999
    ensures |Pad3(n)| == 3 && AllDigits(Pad3(n)) && DigitsValue(Pad3(n)) == n
  {
    var d := IntToDecimal(n);
    NatToDecimalValue(n);
    DecimalLength(n);
    var zeros := Repeat('0', 3 - |d|);
    var p := Pad3(n);
    assert p == zeros + d;
    LeadingZerosIgnored(zeros, d);
  }

  lemma Extends(prefix: string, s: string)
    ensures StartsWith(prefix + s, prefix) && (prefix + s)[|prefix|..] == s
  {
    assert (prefix + s)[..|prefix|] == prefix;
  }

  /** A number of the day with a literal three-digit sequence. */
  lemma {:induction false} LiteralSequence(prefix: string, s: string)
    requires |s| == 3 && AllDigits(s)
    ensures HasSequence(prefix + s, prefix) && Sequence(prefix + s, prefix) == DigitsValue(s)
  {
    Extends(prefix, s);
  }

  /** A number of the day built from a sequence value carries that sequence. */
  lemma {:induction false} NumberWithSequence(prefix: string, m: int)
    requires 1 <= m <= 999
    ensures HasSequence(prefix + Pad3(m), prefix)
    ensures Sequence(prefix + Pad3(m), prefix) == m
  {
    Pad3Value(m);
    var n := prefix + Pad3(m);
    assert n[..|prefix|] == prefix;
    assert n[|prefix|..] == Pad3(m);
  }

  /** `(int) substr($last, -3)` reads back the sequence of a numbered order. */
  lemma {:induction false} SequenceCast(x: string, prefix: string)
    requires HasSequence(x, prefix)
    ensures IntCast(LastThree(x)) == Sequence(x, prefix)
  {
    var s := x[|prefix|..];
    assert LastThree(x) == s;
    IntCastOfDigits(s);
  }

  /** The greatest same-day number in string order, when that day has any. */
  lemma {:induction false} LastOfTheDay(existing: seq<string>, date: string) returns (g: string)
    requires SameDay(existing, Prefix(date)) != []
    ensures g in existing && StartsWith(g, Prefix(date))
    ensures forall x :: x in existing && StartsWith(x, Prefix(date)) ==> x == g || Below(x, g)
    ensures GenerateOrderNumber(existing, date) == Prefix(date) + Pad3(IntCast(LastThree(g)) + 1)
  {
    var same := SameDay(existing, Prefix(date));
    g := Greatest(same);
    assert GenerateOrderNumber(existing, date) == Prefix(date) + Pad3(IntCast(LastThree(g)) + 1);
    forall x | x in existing && StartsWith(x, Prefix(date))
      ensures x == g || Below(x, g)
    {
      assert x in same;
    }
  }

  /** The greatest number in string order carries the greatest sequence. */
  lemma {:induction false} GreatestSequence(g: string, last: string, prefix: string)
    requires HasSequence(g, prefix) && HasSequence(last, prefix)
    requires last == g || Below(last, g)
    requires Sequence(g, prefix) <= Sequence(last, prefix)
    ensures Sequence(g, prefix) == Sequence(last, prefix)
  {
    if Sequence(g, prefix) < Sequence(last, prefix) {
      SequenceOrder(g, last, prefix);
      BelowAsymmetric(g, last);
      assert false;
    }
  }

  /** Within one day, as long as every number carries a three-digit sequence,
      the next number carries the greatest sequence plus one. */
  lemma {:induction false} NextSequence(existing: seq<string>, date: string, last: string)
    requires last in existing && HasSequence(last, Prefix(date))
    requires forall x :: x in existing && StartsWith(x, Prefix(date)) ==>
      HasSequence(x, Prefix(date)) && Sequence(x, Prefix(date)) <= Sequence(last, Prefix(date))
    requires Sequence(last, Prefix(date)) <= 998
    ensures HasSequence(GenerateOrderNumber(existing, date), Prefix(date))
    ensures Sequence(GenerateOrderNumber(existing, date), Prefix(date)) == Sequence(last, Prefix(date)) + 1
  {
    var prefix := Prefix(date);
    assert last in SameDay(existing, prefix);
    var g := LastOfTheDay(existing, date);
    GreatestSequence(g, last, prefix);
    SequenceCast(g, prefix);
    var m := Sequence(last, prefix) + 1;
    assert IntCast(LastThree(g)) + 1 == m;
    NumberWithSequence(prefix, m);
    assert GenerateOrderNumber(existing, date) == prefix + Pad3(m);
  }

  /** Freshness: while every number of the day carries a three-digit sequence
      of at most 998, the generated number is new. */
  lemma {:induction false} GeneratedNumberIsFresh(existing: seq<string>, date: string)
    requires forall x :: x in existing && StartsWith(x, Prefix(date)) ==>
      HasSequence(x, Prefix(date)) && Sequence(x, Prefix(date)) <= 998
    ensures GenerateOrderNumber(existing, date) !in existing
  {
    var prefix := Prefix(date);
    if SameDay(existing, prefix) == [] {
      FirstOfTheDay(existing, date);
    } else {
      var g := LastOfTheDay(existing, date);
      forall x | x in existing && StartsWith(x, prefix)
        ensures Sequence(x, prefix) <= Sequence(g, prefix)
      {
        if x != g {
          SequenceOrder(x, g, prefix);
        }
      }
      NextSequence(existing, date, g);
    }
  }

  /** The second order of a day gets sequence 002. */
  lemma {:induction false} SecondOfTheDay(day: string)
    ensures GenerateOrderNumber([Prefix(day) + "001"], day) == Prefix(day) + "002"
  {
    var p := Prefix(day);
    var first := p + "001";
    LiteralSequence(p, "001");
    ThreeDigitValue("001");
    NextSequence([first], day, first);
    NumberWithSequence(p, 2);
    SameSequence(GenerateOrderNumber([first], day), p + Pad3(2), p);
    PadTwo();
  }

  /** Two numbers of one day with the same sequence are the same number. */
  lemma {:induction false} SameSequence(x: string, y: string, prefix: string)
    requires HasSequence(x, prefix) && HasSequence(y, prefix)
    requires Sequence(x, prefix) == Sequence(y, prefix)
    ensures x == y
  {
    SequenceOrder(x, y, prefix);
    SequenceOrder(y, x, prefix);
    BelowTotal(x, y);
  }

  /** A new day restarts at 001 whatever was numbered the day before. */
  lemma {:induction false} NewDayRestarts(day: string, nextDay: string, previous: seq<string>)
    requires |day| == |nextDay| && day != nextDay
    requires forall x :: x in previous ==> StartsWith(x, Prefix(day))
    ensures GenerateOrderNumber(previous, nextDay) == Prefix(nextDay) + "001"
  {
    var p, q := Prefix(day), Prefix(nextDay);
    forall x | x in previous ensures !StartsWith(x, q) {
      assert x[..|q|] == p;
      assert p[4..|p| - 1] == day && q[4..|q| - 1] == nextDay;
    }
    FirstOfTheDay(previous, nextDay);
  }

  /** `…-1000` sorts below `…-999`. */
  lemma ThousandSortsBelow(prefix: string)
    ensures !Below(prefix + "999", prefix + "1000")
  {
    BelowCommonPrefix(prefix, "999", "1000");
    var a, b := "999", "1000";
    assert a[0] == '9' && b[0] == '1';
  }

  lemma ThousandPadded()
    ensures Pad3(1000) == "1000"
  {
    var d := NatToDecimal(1000);
    assert d == NatToDecimal(100) + [DigitChar(0)];
    assert NatToDecimal(100) == NatToDecimal(10) + [DigitChar(0)];
    assert NatToDecimal(10) == NatToDecimal(1) + [DigitChar(0)];
    assert NatToDecimal(1) == [DigitChar(1)];
  }

  /** Past 999 the numbering repeats itself: `…-1000` sorts below `…-999`, so
      once `…-999` exists the generator keeps producing `…-1000`. */
  lemma {:induction false} GreatestIs999(existing: seq<string>, date: string)
    requires Prefix(date) + "999" in existing
    requires forall x :: x in existing && StartsWith(x, Prefix(date)) ==>
      x == Prefix(date) + "1000" || HasSequence(x, Prefix(date))
    ensures GenerateOrderNumber(existing, date) == Prefix(date) + "1000"
  {
    var prefix := Prefix(date);
    var top := prefix + "999";
    LiteralSequence(prefix, "999");
    ThreeDigitValue("999");
    Extends(prefix, "999");
    assert top in SameDay(existing, prefix);
    var g := LastOfTheDay(existing, date);
    if g != top {
      assert Below(top, g);
      if g == prefix + "1000" {
        ThousandSortsBelow(prefix);
        assert false;
      } else {
        NothingAbove999(top, g, prefix);
        assert false;
      }
    }
    SequenceCast(top, prefix);
    ThousandPadded();
  }

  lemma {:induction false} NothingAbove999(top: string, x: string, prefix: string)
    requires HasSequence(top, prefix) && HasSequence(x, prefix)
    requires Sequence(top, prefix) == 999
    ensures !Below(top, x)
  {
    SequenceOrder(x, top, prefix);
    SequenceOrder(top, x, prefix);
  }

  /** …and it keeps doing so after `…-1000` has been stored, so the second
      order past 999 on one day collides with the first. */
  lemma {:induction false} RepeatsAfter999(existing: seq<string>, date: string)
    requires Prefix(date) + "999" in existing
    requires forall x :: x in existing && StartsWith(x, Prefix(date)) ==>
      x == Prefix(date) + "1000" || HasSequence(x, Prefix(date))
    ensures GenerateOrderNumber(existing, date) == Prefix(date) + "1000"
    ensures GenerateOrderNumber(existing + [Prefix(date) + "1000"], date) == Prefix(date) + "1000"
  {
    GreatestIs999(existing, date);
    GreatestIs999(existing + [Prefix(date) + "1000"], date);
  }
}
