/** The pure parts of the Billplz gateway adapter: the bill request built for
    an order, the reading of the bill API's reply, the normalisation of a
    callback payload, the string fed to the X-Signature HMAC, ringgit/sen
    conversion and Malaysian mobile-number formatting. The HTTP transport and
    HMAC-SHA256 itself are outside the model; the HMAC is a parameter. */
module Billplz {
  import opened Php
  import Money

  /** A form-encoded payload (`$request->all()`): every present key holds a string. */
  type Payload = map<string, string>

  function Get(p: Payload, k: string): (v: Option<string>)
    ensures v.Some? <==> k in p
  {
    if k in p then Some(p[k]) else None
  }

  // ---------------------------------------------------------------------
  // Amounts

  /** `(int) ($order->total_amount * 100)`, where `total_amount` is read
      through the order's `decimal:2` cast. */
  function AmountInSen(total: real): int
  {
    Money.Trunc(Money.Decimal2(total) * 100.0)
  }

  /** Sen back to ringgit, as the callback parser does. */
  function SenToRinggit(sen: int): real
  {
    sen as real / 100.0
  }

  /** The amount sent is the total in sen rounded half away from zero, so it
      is off by at most half a sen. */
  lemma {:induction false} AmountInSenRounds(total: real)
    ensures AmountInSen(total) == Money.RoundHalfAway(total * 100.0)
    ensures -0.005 <= SenToRinggit(AmountInSen(total)) - total <= 0.005
  {
    var n := Money.RoundHalfAway(total * 100.0);
    assert Money.Decimal2(total) * 100.0 == n as real;
    Money.WholeNumbersUnchanged(n);
  }

  /** A total with at most two decimals (`sen / 100`) survives the trip to
      sen and back. */
  lemma {:induction false} AmountRoundTrip(sen: int)
    ensures AmountInSen(SenToRinggit(sen)) == sen
    ensures SenToRinggit(AmountInSen(SenToRinggit(sen))) == SenToRinggit(sen)
  {
    AmountInSenRounds(SenToRinggit(sen));
    assert SenToRinggit(sen) * 100.0 == sen as real;
    Money.WholeNumbersUnchanged(sen);
  }

  // ---------------------------------------------------------------------
  // Mobile numbers

  /** The characters `preg_replace('/[\s\-\+]/', '', …)` removes:
      space, \t, \n, \v, \f, \r, `-` and `+`. */
  predicate IsSeparator(c: char)
  {
    c == ' ' || c == '-' || c == '+' || 9 <= c as int <= 13
  }

  function StripSeparators(s: string): (r: string)
    ensures |r| <= |s|
    ensures forall i :: 0 <= i < |r| ==> !IsSeparator(r[i])
    ensures (forall i :: 0 <= i < |s| ==> !IsSeparator(s[i])) ==> r == s
  {
    if s == [] then []
    else if IsSeparator(s[0]) then StripSeparators(s[1..])
    else [s[0]] + StripSeparators(s[1..])
  }

  /** Stripping works character by character: the kept characters stay,
      in order. */
  lemma {:induction false} StripSeparatorsAppend(a: string, b: string)
    ensures StripSeparators(a + b) == StripSeparators(a) + StripSeparators(b)
  {
    if a == [] {
      assert a + b == b;
    } else {
      assert (a + b)[0] == a[0] && (a + b)[1..] == a[1..] + b;
      StripSeparatorsAppend(a[1..], b);
    }
  }

  /** A single character is dropped iff it is a separator. */
  lemma StripSeparatorsChar(c: char)
    ensures StripSeparators([c]) == if IsSeparator(c) then [] else [c]
  {
    assert [c][1..] == [];
  }

  /** `formatMobileNumber`: drop separators, turn a leading `60` into `0`,
      and prefix `0` when the number does not start with one. */
  function FormatMobileNumber(phone: string): (r: string)
    ensures r != [] && r[0] == '0'
    ensures forall i :: 0 <= i < |r| ==> !IsSeparator(r[i])
  {
    var digits := StripSeparators(phone);
    var local := if StartsWith(digits, "60") then "0" + digits[2..] else digits;
    if StartsWith(local, "0") then local else "0" + local
  }

  /** The country code is replaced, not kept: `+60 12-345 6789` becomes `0123456789`. */
  lemma {:induction false} CountryCodeBecomesZero(phone: string)
    requires StartsWith(StripSeparators(phone), "60")
    ensures FormatMobileNumber(phone) == "0" + StripSeparators(phone)[2..]
  {
  }

  /** A number written `+60 a-b c` with separator-free groups (`+60 12-345
      6789`, say) becomes `0abc` (`0123456789`): the separators go, the
      groups stay in order and the country code becomes `0`. */
  lemma {:induction false} FormatSeparatedNumber(a: string, b: string, c: string)
    requires forall i :: 0 <= i < |a| ==> !IsSeparator(a[i])
    requires forall i :: 0 <= i < |b| ==> !IsSeparator(b[i])
    requires forall i :: 0 <= i < |c| ==> !IsSeparator(c[i])
    ensures FormatMobileNumber("+60 " + (a + ("-" + (b + (" " + c))))) == "0" + (a + (b + c))
  {
    var head := "+60 ";
    assert StripSeparators(head) == "60" by {
      StripSeparatorsChar('+');
      StripSeparatorsChar(' ');
      StripSeparatorsAppend("+", "60 ");
      StripSeparatorsAppend("60", " ");
      assert StripSeparators("60") == "60";
      assert head == "+" + "60 " && "60 " == "60" + " ";
    }
    var t1 := " " + c;
    assert StripSeparators(t1) == c by {
      StripSeparatorsAppend(" ", c);
      StripSeparatorsChar(' ');
    }
    var t2 := b + t1;
    assert StripSeparators(t2) == b + c by {
      StripSeparatorsAppend(b, t1);
    }
    var t3 := "-" + t2;
    assert StripSeparators(t3) == b + c by {
      StripSeparatorsAppend("-", t2);
      StripSeparatorsChar('-');
    }
    var t4 := a + t3;
    var digits := a + (b + c);
    assert StripSeparators(t4) == digits by {
      StripSeparatorsAppend(a, t3);
    }
    var whole := head + t4;
    assert StripSeparators(whole) == "60" + digits by {
      StripSeparatorsAppend(head, t4);
    }
    assert ("60" + digits)[..2] == "60" && ("60" + digits)[2..] == digits;
    CountryCodeBecomesZero(whole);
  }

  /** The instance `+60 12-345 6789`. */
  lemma FormatMobileExample()
    ensures FormatMobileNumber("+60 " + ("12" + ("-" + ("345" + (" " + "6789"))))) == "0" + ("12" + ("345" + "6789"))
  {
    FormatSeparatedNumber("12", "345", "6789");
  }

  /** Formatting an already formatted number changes nothing. */
  lemma {:induction false} FormatMobileIdempotent(phone: string)
    ensures FormatMobileNumber(FormatMobileNumber(phone)) == FormatMobileNumber(phone)
  {
    var r := FormatMobileNumber(phone);
    assert StripSeparators(r) == r;
    assert !StartsWith(r, "60");
    assert StartsWith(r, "0");
  }

  // ---------------------------------------------------------------------
  // Bill creation

  /** Configuration read by the adapter. */
  datatype GatewayConfig = GatewayConfig(collectionId: string, callbackUrl: string, redirectUrl: string)

  /** The fields posted to `/v3/bills`. */
  datatype BillRequest = BillRequest(
    collectionId: string,
    email: string,
    mobile: string,
    name: string,
    amount: int,
    description: string,
    callbackUrl: string,
    redirectUrl: string,
    reference1Label: string,
    reference1: string,
    reference2Label: string,
    reference2: string)

  /** The default channel when no bank code is chosen (Visa/Mastercard). */
  const DefaultBankCode: string := "BP-BILLPLZ1"

  /** The request `createDirectPaymentBill` sends for an order. */
  function BillRequestFor(cfg: GatewayConfig, orderId: nat, orderNumber: string, name: string,
                          phone: string, email: string, total: real, bankCode: Option<string>): (r: BillRequest)
    ensures r.reference2 == orderNumber && r.collectionId == cfg.collectionId
    ensures r.mobile != [] && r.mobile[0] == '0'
    ensures bankCode.None? ==> r.reference1 == DefaultBankCode
    ensures bankCode.Some? ==> r.reference1 == bankCode.value
  {
    BillRequest(
      cfg.collectionId, email, FormatMobileNumber(phone), name, AmountInSen(total),
      "Order #" + orderNumber, cfg.callbackUrl, cfg.redirectUrl + "?order_id=" + IntToDecimal(orderId),
      "Bank Code", if bankCode.Some? then bankCode.value else DefaultBankCode,
      "Order ID", orderNumber)
  }

  /** The request correlates the bill with the order: reference_2 carries the
      order number, reference_1 the chosen bank code or the card default, the
      amount is the total in whole sen and the redirect names the order id. */
  lemma {:induction false} BillRequestCorrelates(cfg: GatewayConfig, orderId: nat, orderNumber: string, name: string,
                                                 phone: string, email: string, total: real, bankCode: Option<string>)
    ensures var req := BillRequestFor(cfg, orderId, orderNumber, name, phone, email, total, bankCode);
      && req.reference2 == orderNumber
      && (bankCode.None? ==> req.reference1 == DefaultBankCode)
      && (bankCode.Some? ==> req.reference1 == bankCode.value)
      && req.amount == Money.RoundHalfAway(total * 100.0)
      && req.mobile[0] == '0'
      && StartsWith(req.redirectUrl, cfg.redirectUrl + "?order_id=")
      && IntCast(req.redirectUrl[|cfg.redirectUrl + "?order_id="|..]) == orderId
  {
    var req := BillRequestFor(cfg, orderId, orderNumber, name, phone, email, total, bankCode);
    AmountInSenRounds(total);
    DecimalRoundTrip(orderId);
    var head := cfg.redirectUrl + "?order_id=";
    assert req.redirectUrl == head + IntToDecimal(orderId);
    assert req.redirectUrl[|head|..] == IntToDecimal(orderId);
  }

  /** What checkout keeps of a created bill. */
  datatype Bill = Bill(billUrl: string, billId: string, collectionId: string, fullResponse: map<string, string>)

  /** Reading the bill API's reply: `None` when the HTTP call failed. A reply
      without `id` or `url` raises; so does one without `collection_id`, whose
      read is an undefined-key warning that the framework raises. */
  function BillFromReply(reply: Option<map<string, string>>): (b: Option<Bill>)
    ensures b.Some? <==> reply.Some? && "id" in reply.value && "url" in reply.value && "collection_id" in reply.value
    ensures b.Some? ==> b.value.fullResponse == reply.value && b.value.billId == reply.value["id"]
  {
    match reply
    case None => None
    case Some(r) =>
      if "id" !in r || "url" !in r || "collection_id" !in r then None
      else Some(Bill(r["url"] + "?auto_submit=true", r["id"], r["collection_id"], r))
  }

  /** The customer is sent to the reply's url with auto-submit switched on. */
  lemma {:induction false} BillUrlAutoSubmits(reply: Option<map<string, string>>)
    requires BillFromReply(reply).Some?
    ensures var b := BillFromReply(reply).value;
      StartsWith(b.billUrl, reply.value["url"]) && b.billUrl[|reply.value["url"]|..] == "?auto_submit=true"
  {
  }

  // ---------------------------------------------------------------------
  // Callback normalisation

  /** The canonical callback (`parseWebhookData`). */
  datatype Callback = Callback(
    billId: Option<string>,
    collectionId: Option<string>,
    paid: bool,
    state: string,
    amount: real,
    paidAmount: real,
    paidAt: Option<string>,
    transactionId: Option<string>,
    transactionStatus: Option<string>,
    orderNumber: Option<string>)

  /** `filter_var($v, FILTER_VALIDATE_BOOLEAN)`: "1", "true", "on", "yes" in any case. */
  predicate BooleanTrue(v: string)
  {
    Lower(v) in {"1", "true", "on", "yes"}
  }

  /** `(float) $data[k] / 100`, or 0 when the key is absent. */
  function SenField(p: Payload, k: string): (x: real)
    ensures k in p ==> x == FloatCast(p[k]) / 100.0
    ensures k !in p ==> x == 0.0
  {
    if k in p then FloatCast(p[k]) / 100.0 else 0.0
  }

  /** `parseWebhookData`: never fails; absent keys take their defaults. */
  function ParseWebhookData(p: Payload): (d: Callback)
    ensures d.billId == Get(p, "id") && d.orderNumber == Get(p, "reference_2")
    ensures d.paid ==> "paid" in p
    ensures "paid" in p ==> (d.paid <==> BooleanTrue(p["paid"]))
    ensures d.state == "due" <==> "state" !in p || p["state"] == "due"
    ensures d.collectionId == Get(p, "collection_id") && d.paidAt == Get(p, "paid_at")
    ensures d.transactionId == Get(p, "transaction_id") && d.transactionStatus == Get(p, "transaction_status")
    ensures d.amount == SenField(p, "amount") && d.paidAmount == SenField(p, "paid_amount")
  {
    Callback(
      Get(p, "id"),
      Get(p, "collection_id"),
      "paid" in p && BooleanTrue(p["paid"]),
      if "state" in p then p["state"] else "due",
      SenField(p, "amount"),
      SenField(p, "paid_amount"),
      Get(p, "paid_at"),
      Get(p, "transaction_id"),
      Get(p, "transaction_status"),
      Get(p, "reference_2"))
  }

  /** An empty payload parses to the defaults: no bill id, unpaid, state
      `due`, amount 0, no paid_at, transaction id or order number. */
  lemma ParseDefaults()
    ensures ParseWebhookData(map[]) == Callback(None, None, false, "due", 0.0, 0.0, None, None, None, None)
  {
  }

  /** The order number comes from reference_2, the bill id from id, and an
      amount the adapter sent in sen is read back as the same ringgit total
      (for totals in whole sen). */
  lemma {:induction false} ParseRecoversBill(p: Payload, sen: int)
    requires "amount" in p && p["amount"] == IntToDecimal(AmountInSen(SenToRinggit(sen)))
    ensures ParseWebhookData(p).orderNumber == Get(p, "reference_2")
    ensures ParseWebhookData(p).billId == Get(p, "id")
    ensures ParseWebhookData(p).amount == SenToRinggit(sen)
  {
    AmountRoundTrip(sen);
    FloatCastOfInteger(sen);
  }

  /** Spellings of the paid flag: "true", "TRUE", "1" count as paid; "false",
      "0" and an absent flag do not. */
  lemma PaidFlagSpellings()
    ensures ParseWebhookData(map["paid" := "TRUE"]).paid
    ensures ParseWebhookData(map["paid" := "1"]).paid
    ensures !ParseWebhookData(map["paid" := "false"]).paid
    ensures !ParseWebhookData(map["paid" := "0"]).paid
    ensures !ParseWebhookData(map[]).paid
  {
    assert Lower("TRUE") == "true";
    assert Lower("1") == "1";
    assert Lower("false") == "false";
    assert Lower("0") == "0";
  }

  // ---------------------------------------------------------------------
  // X-Signature

  /** The keys scanned, in order, by `verifyWebhookSignature`. */
  const ScannedKeys: seq<string> := ["amount", "collection_id", "id", "paid", "paid_at", "state", "x_signature"]

  /** The six signed fields (the scan without `x_signature`). */
  const SignedFields: seq<string> := ["amount", "collection_id", "id", "paid", "paid_at", "state"]

  /** `key . value` for each present key of `keys`, in order. */
  function Concatenated(p: Payload, keys: seq<string>): string
  {
    if keys == [] then ""
    else
      var k := keys[|keys| - 1];
      Concatenated(p, keys[..|keys| - 1]) + (if k in p then k + p[k] else "")
  }

  /** The string given to the HMAC. `None` when the payload has no
      `x_signature` field: reading it is an undefined-key warning that the
      framework raises. */
  function SignedString(p: Payload): (s: Option<string>)
    ensures s.Some? <==> "x_signature" in p
  {
    if "x_signature" !in p then None
    else Some(ReplaceAll(Concatenated(p, ScannedKeys), "x_signature" + p["x_signature"], ""))
  }

  /** `verifyWebhookSignature`: `hash_equals(hmac(key, signed), signature)`.
      `None` is the raised exception of `SignedString`. */
  function VerifyWebhookSignature(p: Payload, signature: string, key: string,
                                  hmac: (string, string) -> string): (ok: Option<bool>)
    ensures ok.Some? <==> "x_signature" in p
    ensures ok.Some? ==> (ok.value <==> hmac(key, SignedString(p).value) == signature)
  {
    match SignedString(p)
    case None => None
    case Some(s) => Some(hmac(key, s) == signature)
  }

  lemma {:induction false} ConcatenatedDependsOnKeys(p: Payload, q: Payload, keys: seq<string>)
    requires forall i :: 0 <= i < |keys| ==> Get(p, keys[i]) == Get(q, keys[i])
    ensures Concatenated(p, keys) == Concatenated(q, keys)
  {
    if keys != [] {
      ConcatenatedDependsOnKeys(p, q, keys[..|keys| - 1]);
      var k := keys[|keys| - 1];
      assert Get(p, k) == Get(q, k);
    }
  }

  /** Only the seven scanned keys matter: payloads that agree on them (any
      difference in reference_2 or any other key aside) verify alike. */
  lemma {:induction false} SignatureIgnoresOtherKeys(p: Payload, q: Payload, signature: string, key: string,
                                                     hmac: (string, string) -> string)
    requires forall k :: k in ScannedKeys ==> Get(p, k) == Get(q, k)
    ensures SignedString(p) == SignedString(q)
    ensures VerifyWebhookSignature(p, signature, key, hmac) == VerifyWebhookSignature(q, signature, key, hmac)
  {
    forall i | 0 <= i < |ScannedKeys| ensures Get(p, ScannedKeys[i]) == Get(q, ScannedKeys[i]) {
      assert ScannedKeys[i] in ScannedKeys;
    }
    ConcatenatedDependsOnKeys(p, q, ScannedKeys);
    assert "x_signature" in ScannedKeys;
    assert Get(p, "x_signature") == Get(q, "x_signature");
  }

  /** When the x_signature segment is the only place its text occurs, the
      signed string is exactly `key . value` over the six signed fields. */
  lemma {:induction false} SignedStringIsSixFields(p: Payload)
    requires "x_signature" in p
    requires NoEarlierOccurrence(Concatenated(p, SignedFields), "x_signature" + p["x_signature"])
    ensures SignedString(p) == Some(Concatenated(p, SignedFields))
  {
    assert ScannedKeys[..|ScannedKeys| - 1] == SignedFields;
    var seg := "x_signature" + p["x_signature"];
    assert Concatenated(p, ScannedKeys) == Concatenated(p, SignedFields) + seg;
    RemoveTrailing(Concatenated(p, SignedFields), seg);
  }
}
