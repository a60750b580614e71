# Order and payment core of the WhatsApp AI shop, in Dafny

This project models the order and payment lifecycle of a Laravel shop that
takes payments through the Billplz gateway. The model works on an in-memory
product table, the orders and their line items. It covers:

- **Checkout.** `createDirectPayment` checks stock and prices the order with
  two fixed discount tables. It inserts a pending order with one line item
  that snapshots the product, obtains a bill, stores the bill on the order
  and decrements stock. The gateway-less `apiStore`/`store` do the same
  without a bill. Any failure rolls the transaction back, so the tables are
  left exactly as they were.
- **Payment reconciliation.** `handleBillplzCallback` is a small state machine
  on `payment_status`/`status`:
  - a paid callback for a paid order is a no-op;
  - any other paid callback marks the order paid and processing, unless
    the `datetime` cast cannot read its `paid_at`: then filling the update
    raises, nothing is written and the answer is 500;
  - an unpaid callback marks the order failed and cancelled, whatever its
    state, and puts every item's quantity back on its product.

  `handleBillplzRedirect` is the weaker variant. It only ever moves a pending
  order to paid, and it answers with the page to redirect to.
- **The Billplz adapter's pure parts:**
  - the bill request built for an order;
  - reading the bill reply;
  - callback normalisation with its defaults;
  - ringgit/sen conversion;
  - Malaysian mobile-number formatting;
  - the string fed to the X-Signature HMAC. HMAC-SHA256 itself is a function
    parameter.
- **Order numbers.** `ORD-<date>-<nnn>` is built from the existing numbers,
  with the day as a parameter. The model proves:
  - freshness while the day stays under 999 orders;
  - the repetition past 999, where `…-1000` sorts below `…-999`, so the
    generator keeps producing `…-1000`.
- **Helpers:**
  - product stock and sale predicates and the discount percentage;
  - the line subtotal;
  - the single `chatbot` on/off record (find-or-create and toggle);
  - chat avatar initials;
  - message routing to the customer or AI column;
  - the conversation preview.

State-changing code is modelled as classes:
- `Store.Shop` holds `products`, `orders` and `items`.
- `Activation.ActivationTable` holds the `ai_activations` rows.
- `Chat.MessageLogTable` holds the `message_logs` rows.

Each method is proved against a function of the old state. The class
invariant (`Valid`) keeps these facts:
- stock is never negative;
- ids follow insertion order;
- every item belongs to an existing order and carries its snapshot subtotal;
- order numbers and idempotency keys are unique;
- there is never a second `chatbot` row.

Money is exact (`real`). The model writes out the roundings and casts the
code performs:
- the `(int)` cast truncates toward zero;
- PHP `round` and the `decimal:2` cast round to the nearest value, halves
  away from zero;
- the `(float)` cast of a callback amount reads a leading decimal numeral,
  fraction and exponent included.

An order's four amounts are kept as the `decimal:2` casts read them back,
each rounded to whole sen on its own. So `calculateTotal` on a stored order
can differ from its stored `total_amount`. It stays within two sen
(`Store.StoredTotalWithinTwoSen`). At 19.90 with postage and full payment it
gives 17.90 against a stored 17.91 (`Store.RoundedDiscountsShiftTotal`).

Where the written description of the system and the code disagree, the
model follows the code:
- **Failure callbacks are unguarded.** A failure callback moves an order to
  failed/cancelled from any state, including paid. It restores stock every
  time it is delivered, so a repeated one restores stock twice
  (`Store.Shop.RepeatedFailedCallback`, `Reconcile.RestoringTwiceAddsTwice`).
- **Metadata keys are overwritten.** Merging `payment_metadata` replaces the
  keys it writes (`webhook_data`, `paid_at`, `transaction_id`, `failed_at`,
  `redirect_data`). It does not append to them.
- **Callback parsing never fails.** A missing `id` gives a null bill id. A
  null bill id matches the first order that has no bill yet
  (`where(col, null)` is `IS NULL`).
- **The signature check can raise.** The scan includes `x_signature`, and
  the segment is then cut out with `str_replace`. A payload without an
  `x_signature` field raises an undefined-key error, which the handler turns
  into a 500. The preceding `ksort` has no effect, because the scan order is
  fixed.
- **A soft-deleted product is a 500, not a 404.** A product id with no row
  fails the `exists:products,id` rule and is answered 422 before the
  transaction starts. A soft-deleted product passes that rule. `findOrFail`
  then raises inside the `try`, and the caught exception is answered 500.
  The model has neither kind of product in its product map, so
  `CheckoutFailed`/`PlaceFailed` stand for both answers.

## Model

| member | source | states |
|---|---|---|
| Pricing.PriceOrder | app/Http/Controllers/CheckoutController.php:58-63 | subtotal is unit price × quantity and total is subtotal minus both discounts |
| Pricing.UnknownMethodsEarnNothing | app/Http/Controllers/CheckoutController.php:159-184 | a delivery or payment key outside the tables earns a zero discount, without an error |
| Pricing.TotalWithinDiscountBand | app/Http/Controllers/CheckoutController.php:159-184 | for a non-negative subtotal both discounts are non-negative, the delivery one at most 10 % and the payment one at most 5 %, so 0.85·subtotal ≤ total ≤ subtotal |
| Pricing.PostageFullExample | app/Http/Controllers/CheckoutController.php:159-184 | 200 with postage and full payment gives discounts 10 and 10 and total 180 |
| Products.IsInStock | app/Models/Product.php:101-104 | in stock iff one unit passes the stock check; for non-negative stock, iff the stock is not zero |
| Products.IsOnSale | app/Models/Product.php:109-112 | on sale only with an original price set, and then, for a non-negative price, that original price is positive |
| Products.DiscountPercentage | app/Models/Product.php:117-124 | 0 whenever the product is not on sale, and always within 0..100 |
| Products.DiscountPercentageIsRoundedMarkdown | app/Models/Product.php:123 | on sale, the percentage is the markdown ratio rounded to the nearest whole percent |
| Products.HalfPriceExample | app/Models/Product.php:109-124 | a product at half its original price shows 50 % |
| OrderItems.CalculateSubtotal | app/Models/OrderItem.php:44-47 | the line subtotal is non-negative for a non-negative price, equals the price for one unit and is 0 for none |
| OrderItems.SubtotalCoversOneUnit | app/Models/OrderItem.php:44-47 | the snapshot subtotal is at least the snapshot price and grows strictly with more than one unit at a positive price |
| Money.Trunc | app/Services/BillplzService.php:38 | the `(int)` cast truncates toward zero on both signs |
| Money.RoundHalfAway | app/Models/Product.php:123 | `round` gives the nearest integer, halves away from zero |
| Money.Decimal2Close | app/Models/Order.php:37-44 | a value read through `decimal:2` moves by at most half a sen, and a whole-sen value is unchanged |
| Billplz.AmountInSenRounds | app/Services/BillplzService.php:38 | the amount sent is the total in sen rounded half away from zero, within half a sen of the total |
| Billplz.AmountRoundTrip | app/Services/BillplzService.php:38 | a total in whole sen converted to sen and back is unchanged |
| Billplz.StripSeparators | app/Services/BillplzService.php:190 | the result holds no whitespace, `-` or `+`, and a string without them is unchanged |
| Billplz.StripSeparatorsAppend | app/Services/BillplzService.php:190 | stripping a concatenation is the concatenation of the stripped parts, so kept characters stay in order |
| Billplz.StripSeparatorsChar | app/Services/BillplzService.php:190 | a single character is dropped iff it is whitespace, `-` or `+` |
| Billplz.FormatSeparatedNumber | app/Services/BillplzService.php:187-203 | `+60 a-b c` with separator-free groups formats to `0abc` |
| Billplz.FormatMobileExample | app/Services/BillplzService.php:187-203 | `+60 12-345 6789` formats to `0123456789` |
| Billplz.FormatMobileNumber | app/Services/BillplzService.php:187-203 | the formatted number is non-empty, starts with `0` and holds no separator |
| Billplz.CountryCodeBecomesZero | app/Services/BillplzService.php:192-195 | a leading `60` is replaced by `0` |
| Billplz.FormatMobileIdempotent | app/Services/BillplzService.php:187-203 | formatting a formatted number changes nothing |
| Billplz.BillRequestCorrelates | app/Services/BillplzService.php:34-57 | the request carries the order number as reference_2, the bank code or `BP-BILLPLZ1` as reference_1, the total in rounded sen, a mobile starting with `0`, and a redirect whose `order_id` reads back as the order id |
| Billplz.BillFromReply | app/Services/BillplzService.php:59-73 | a bill exists iff the call succeeded and the reply has `id`, `url` and `collection_id`; it keeps the whole reply and the reply's id |
| Billplz.BillUrlAutoSubmits | app/Services/BillplzService.php:65-66 | the bill URL is the reply's url followed by `?auto_submit=true` |
| Billplz.ParseDefaults | app/Services/BillplzService.php:136-150 | an empty payload parses to no bill id, unpaid, state `due`, amount 0 and no paid_at, transaction id or order number |
| Billplz.BillRequestFor | app/Services/BillplzService.php:40-57 | the request names the configured collection, carries the order number as reference_2 and the bank code or `BP-BILLPLZ1` as reference_1, and a mobile number starting with `0` |
| Billplz.SenField | app/Services/BillplzService.php:143-144 | a present amount is its `(float)` reading divided by 100; an absent one is 0 |
| Billplz.ParseWebhookData | app/Services/BillplzService.php:136-150 | the bill id comes from `id` and the order number from `reference_2`; paid only when a `paid` field is present, and then exactly when it is a true spelling; state `due` exactly when absent or given as `due`; collection id, paid_at, transaction id and status are the fields or null, and the two amounts are the sen fields in ringgit or 0 |
| Php.FloatCastOfInteger | app/Services/BillplzService.php:143-144 | the `(float)` cast reads back every printed integer, agreeing with the `(int)` cast |
| Php.FloatKeepsFraction | app/Services/BillplzService.php:143-144 | `"12.5"` reads as 12.5 under `(float)` where `(int)` gives 12 |
| Php.FloatAppliesExponent | app/Services/BillplzService.php:143-144 | `"1e3"` reads as 1000 under both `(float)` and `(int)`, since `(int)` goes through the float reading |
| Billplz.ParseRecoversBill | app/Services/BillplzService.php:139-148 | the order number comes from reference_2, the bill id from id, and an amount the adapter sent reads back as the same total |
| Billplz.PaidFlagSpellings | app/Services/BillplzService.php:141 | `TRUE` and `1` mean paid; `false`, `0` and an absent flag do not |
| Billplz.SignedString | app/Services/BillplzService.php:112-122 | the signed string exists iff the payload has `x_signature`; otherwise reading it raises |
| Billplz.VerifyWebhookSignature | app/Services/BillplzService.php:108-128 | the check raises iff `x_signature` is absent, and otherwise holds iff the HMAC of the signed string equals the signature |
| Billplz.SignatureIgnoresOtherKeys | app/Services/BillplzService.php:112-122 | payloads that agree on the seven scanned keys verify alike, whatever else (reference_2 included) differs |
| Billplz.SignedStringIsSixFields | app/Services/BillplzService.php:114-122 | when the x_signature segment occurs only at the end, the signed string is key‖value over amount, collection_id, id, paid, paid_at, state |
| Php.Greatest | app/Models/Order.php:84-86 | `orderBy desc` then `first` picks a member that every other member sorts below |
| Php.IntCastOfDigits | app/Models/Order.php:89 | `(int)` of a run of digits, such as a zero-padded sequence, is the number they write |
| Php.DecimalRoundTrip | app/Models/Order.php:89-95 | the `(int)` cast reads back a rendered integer |
| Php.ExplodeImplode | app/Http/Controllers/ChatController.php:179 | splitting on a separator and joining again gives back the input |
| Orders.CalculateTotal | app/Models/Order.php:101-104 | with non-negative discounts the total is at most the subtotal, with non-positive ones at least the subtotal |
| Orders.ParseStatus | app/Models/Order.php:109-115 | a status name is accepted iff it is one of pending, processing, completed, cancelled |
| Orders.StatusNamesRoundTrip | app/Models/Order.php:111 | parsing and naming statuses are inverse in both directions |
| Orders.SameDay | app/Models/Order.php:84 | `LIKE 'ORD-<date>-%'` selects exactly the existing numbers with that prefix |
| Orders.GenerateOrderNumber | app/Models/Order.php:81-96 | the number starts with `ORD-` + date + `-` |
| Orders.FirstOfTheDay | app/Models/Order.php:88-95 | with no number of that day the suffix is `001` |
| Orders.LastOfTheDay | app/Models/Order.php:84-90 | otherwise the suffix is one more than the last three characters of the greatest same-day number |
| Orders.NextSequence | app/Models/Order.php:84-95 | while every same-day number has a three-digit sequence of at most 998, the new number's sequence is the greatest plus one |
| Orders.GeneratedNumberIsFresh | app/Models/Order.php:81-96 | under the same bound the generated number differs from every existing one |
| Orders.SecondOfTheDay | app/Models/Order.php:88-95 | after `…-001` the next number of the day is `…-002` |
| Orders.NewDayRestarts | app/Models/Order.php:83-95 | numbers of another day do not count: a new day starts again at `001` |
| Orders.SequenceOrder | app/Models/Order.php:85 | among three-digit numbers of one day, string order is sequence order |
| Orders.GreatestIs999 | app/Models/Order.php:84-95 | once `…-999` exists, `…-1000` sorts below it and the generator returns `…-1000` |
| Orders.RepeatsAfter999 | app/Models/Order.php:84-95 | storing `…-1000` does not help: the next call returns `…-1000` again |
| Reconcile.FindOrder | app/Http/Controllers/WebhookController.php:50-52 | the lookup returns the first order matching the callback's order number or bill id, and none only when no order matches |
| Reconcile.FindById | app/Http/Controllers/WebhookController.php:180-181 | `Order::find` returns the order with that id, and none only when no order has it |
| Reconcile.FindOrderStable | app/Http/Controllers/WebhookController.php:50-52 | replacing an order by one the callback matches equally keeps the lookup result |
| Reconcile.MissingBillIdMatchesUnbilledOrder | app/Http/Controllers/WebhookController.php:50-52 | a callback without `id` finds an order no later than any order that has no bill |
| Reconcile.MarkPaid | app/Http/Controllers/WebhookController.php:80-94 | paid and processing; paid_at is the gateway's or the clock's; the three keys are merged over the old metadata; nothing else changes |
| Reconcile.MarkFailed | app/Http/Controllers/WebhookController.php:105-117 | failed and cancelled; paid_at kept; webhook_data and failed_at merged over the old metadata; nothing else changes |
| Reconcile.TransitionsKeepMatching | app/Http/Controllers/WebhookController.php:50-52 | neither transition changes which callbacks match the order |
| Reconcile.RestoreStockAddsQuantities | app/Http/Controllers/WebhookController.php:120-126 | every product still present gains exactly the quantity the order holds of it, and no product appears or disappears |
| Reconcile.RestoreStockNeverLowers | app/Http/Controllers/WebhookController.php:120-126 | restoring never lowers any stock level |
| Reconcile.RestoringTwiceAddsTwice | app/Http/Controllers/WebhookController.php:105-126 | restoring twice adds twice the order's quantity |
| Reconcile.FailedCheckoutRestoresStock | app/Http/Controllers/WebhookController.php:120-126 | a checkout's decrement followed by restoring the new order gives back the original products |
| Store.ApiStatus | app/Http/Controllers/OrderController.php:39-122 | `apiStore` answers 201 iff placed, 400 iff short of stock, 500 iff failed |
| Store.StoreOutcome | app/Http/Controllers/OrderController.php:148-202 | `store` redirects to the order's success page iff placed, else back with a `quantity` or `error` message |
| Store.CallbackStatus | app/Http/Controllers/WebhookController.php:40-152 | the callback answers 200 iff processed or already processed, 400 iff the signature is invalid, 404 iff no order is found, 500 iff it failed |
| Store.PendingOrder | app/Http/Controllers/CheckoutController.php:66-80 | a new order is pending and payment-pending, has no bill, key, paid_at, notes or metadata, takes the customer and methods from the request, and its subtotal and total are within half a sen of the quote's |
| Store.StoredTotalWithinTwoSen | app/Models/Order.php:37-44 | `calculateTotal` on the stored row is within two sen of the stored total |
| Store.RoundedDiscountsShiftTotal | app/Models/Order.php:101-104 | at 19.90 with postage and full payment, the stored total is 17.91 while `calculateTotal` gives 17.90 |
| Store.SnapshotItem | app/Http/Controllers/CheckoutController.php:83-91 | the item snapshots the product's name and price, holds the ordered quantity and its subtotal is price × quantity |
| Store.ReplyMetadata | app/Http/Controllers/CheckoutController.php:97-101 | the stored metadata holds exactly the bill reply's keys and values |
| Store.SignatureCheck | app/Http/Controllers/WebhookController.php:31-44 | the signature is checked only when the header and the configured key are both truthy |
| Store.RedirectOrder | app/Http/Controllers/WebhookController.php:175-186 | the redirect takes the callback's match; when there is none it takes the order whose id is the `order_id` parameter, and none without the parameter |
| Store.QuoteFor | app/Http/Controllers/CheckoutController.php:58-63 | the quote prices the product at its current price |
| Store.CheckoutKeepsConsistent | app/Http/Controllers/CheckoutController.php:66-104 | a new order with a fresh number and key, its item and a covered decrement keep the tables consistent |
| Store.ReplaceKeepsConsistent | app/Http/Controllers/WebhookController.php:82-117 | changing an order's status or payment bookkeeping keeps the tables consistent |
| Store.RestockKeepsConsistent | app/Http/Controllers/WebhookController.php:120-126 | raising stock levels keeps the tables consistent |
| Store.Shop.constructor | app/Http/Controllers/ProductController.php:102 | an empty order book over a catalogue whose stock is never negative (the `min:0` stock rule) is consistent |
| Store.Shop.CreateDirectPayment | app/Http/Controllers/CheckoutController.php:26-130 | short stock answers 400 with the stock on hand; the call fails exactly when the product is missing or, stock sufficing, the number or key is taken, `color` is absent or the gateway gives no usable bill, so success is guaranteed otherwise; every failure leaves all tables unchanged; success appends one pending order carrying the bill's id, collection and reply and a fresh key, appends one snapshot item and takes exactly the quantity off the product |
| Store.Shop.Commit | app/Http/Controllers/CheckoutController.php:66-106 | the committed writes append the order and its item and take the quantity off the stock, keeping the tables consistent |
| Store.Shop.PlaceOrder | app/Http/Controllers/OrderController.php:33-122 | as checkout, without a bill: it fails exactly when the product is missing or, stock sufficing, the number is taken or `color` is absent; no payment fields or key are set, and failures leave the tables unchanged |
| Store.Shop.HandleBillplzCallback | app/Http/Controllers/WebhookController.php:24-154 | a failed signature check, or no matching order, changes nothing; paid + paid is a no-op; another paid callback answers 500 and changes nothing iff the `datetime` cast cannot read its `paid_at`, and otherwise marks the order paid; an unpaid one fails it from any state and restores its stock |
| Store.Shop.RestoreOrderStock | app/Http/Controllers/WebhookController.php:120-126 | the loop's stock table equals `RestoreStock` over all items |
| Store.Shop.HandleBillplzRedirect | app/Http/Controllers/WebhookController.php:160-232 | never touches stock or items; only a pending order with a paid redirect changes (to paid); the target is `/<order_number>?payment=success\|failed`, or the error page when no order is found |
| Store.Shop.UpdateStatus | app/Http/Controllers/OrderController.php:507-522 | a missing order is not found before validation; a status outside the four is refused; otherwise the status is set and the notes kept unless new ones are given |
| Store.Shop.SetOrderStatus | app/Models/Order.php:109-119 | the status changes iff it is one of the four, and then reads back as the given name |
| Store.Shop.RepeatedPaidCallback | app/Http/Controllers/WebhookController.php:67-94 | the second delivery of a paid callback answers already-processed and changes nothing |
| Store.Shop.RepeatedFailedCallback | app/Http/Controllers/WebhookController.php:105-126 | the second delivery of an unpaid callback is processed again and restores the stock a second time |
| Activation.FindChatbot | app/Models/AIActivation.php:42 | the lookup finds the first row named `chatbot`, and none only when there is no such row |
| Activation.SingleChatbotRecord | app/Models/AIActivation.php:62-85 | with at most one chatbot row before, a lookup or a toggle leaves exactly one |
| Activation.ChatbotFoundAfter | app/Models/AIActivation.php:42-85 | after a lookup or a toggle the chatbot row exists, where it was or appended at the end |
| Activation.StatusAfterToggle | app/Models/AIActivation.php:40-85 | a status read after `toggleChatbotStatus(s)` answers `s` and creates nothing |
| Activation.ToggleTwice | app/Models/AIActivation.php:78-81 | toggling to the same value twice keeps the flag, and the second toggle changes only `last_updated_at` |
| Activation.ActivationTable.GetChatbotStatus | app/Models/AIActivation.php:40-56 | an existing row's flag is answered and nothing changes; otherwise an active row is created and true answered |
| Activation.ActivationTable.ToggleChatbotStatus | app/Models/AIActivation.php:62-85 | the chatbot row's flag and stamp are set, the row is created only when missing, and the answered row is the stored one |
| Chat.FirstLettersPrefix | app/Http/Controllers/ChatController.php:182-185 | the initials of the first words are a prefix of the initials of all words |
| Chat.AvatarUpperCase | app/Http/Controllers/ChatController.php:183-187 | the avatar holds no lower-case letter |
| Chat.Avatar | app/Http/Controllers/ChatController.php:177-188 | the avatar is at most two characters |
| Chat.AvatarEmpty | app/Http/Controllers/ChatController.php:187 | only an empty name has an empty avatar, thanks to the fallback |
| Chat.TwoWordAvatar | app/Http/Controllers/ChatController.php:179-185 | two words give the upper-cased first letter of each |
| Chat.OneWordAvatar | app/Http/Controllers/ChatController.php:179-187 | one word gives its upper-cased first letter, unless that letter is `0` |
| Chat.CollectInitials | app/Http/Controllers/ChatController.php:179-185 | the loop with its early break collects the first two of the words' initials |
| Chat.GenerateAvatar | app/Http/Controllers/ChatController.php:177-188 | the method computes `Avatar`: the initials, or the name's first two characters upper-cased when the initials are falsy |
| Chat.Routed | app/Http/Controllers/ChatController.php:124-128 | the message goes to the sender's column and the other column is empty |
| Chat.ExactlyOneColumn | app/Http/Controllers/ChatController.php:124-128 | a required message lands in exactly one of the two columns |
| Chat.Latest | app/Http/Controllers/ChatController.php:22-24 | the customer's row with no later row of theirs, and none only when the customer has no rows |
| Chat.Preview | app/Http/Controllers/ChatController.php:29-39 | the AI text when non-empty, else the customer text when non-empty, else `No messages yet` |
| Chat.MessageLogTable.SendMessage | app/Http/Controllers/ChatController.php:111-146 | one row is appended in the sender's column; the message is forwarded iff it is an AI message other than `0`; the conversation then previews it |

## Left out

- HTTP transport, the bill and payment-gateway GET calls, the automation `Http::post` and all logging. The bill call is a function parameter from the request to an optional reply; the forward is a returned flag.
- HMAC-SHA256 and `hash_equals`: the keyed hash is a function parameter, and equality of strings stands for the constant-time compare.
- Transactions, row locking and concurrent deliveries: the model is sequential, and a rolled-back transaction leaves the tables exactly as they were. The database does not give back an auto-increment id used by a rolled-back insert, so after a failed checkout the next order's id (in the 201 response and in the bill's `redirect_url`) is larger than the model's `|orders| + 1`.
- Request validation becomes preconditions or types: enum membership, quantity ≥ 1, the sender, and a message that is non-empty and at most 1000 characters. The existence of the customer is not modelled. Nor is the framework's trimming and empty-to-null conversion of input strings.
- The configured X-Signature key is a plain string: the typed property means a missing key is a configuration error outside the model.
- Date parsing: whether the `datetime` cast can read a callback's `paid_at` is a function parameter of the callback handler.
- Clocks, `date('Ymd')`, `Str::uuid()` and `now()` are parameters. `created_at`/`updated_at`, the customer's `touch()` and date formatting are left out.
- Chat.Latest: rows are ordered by creation; ties in `created_at` within one second are not modelled.
- Binary floating point: money is exact; only the `(int)`/`(float)` casts and the `round`/`decimal:2` roundings are written out. Representation error and an exponent overflowing to `INF` are not modelled. Its visible effect: `(int)($order->total_amount * 100)` multiplies a binary double, so a total of 19.99 becomes 1998.9999999999998 and 1998 sen is sent, and 0.29 sends 28. By IEEE-754 double arithmetic this hits 573 of the 10 000 totals from 0.00 to 99.99; `Billplz.AmountInSenRounds` and `Billplz.AmountRoundTrip` hold only of the exact model.
- `->first()` without `orderBy` is taken to return the row with the lowest id (the callback lookup and the chatbot row). The database may return another match when several rows match.
- Database collation: string equality and `ORDER BY` are exact character comparison, with no case-insensitive collation.
- The `order_number` unique index is assumed (the create-orders migration is not part of this model); `idempotency_key` is unique by its migration.
- A non-numeric `order_id` query parameter and the redirect's `system_error` path (among its causes a `paid_at` the `datetime` cast cannot read) are not modelled. The redirect route is also commented out in `routes/web.php:33`, so it is unreachable as deployed.
- Soft-deleted products are absent from the product map.
- Inertia page rendering, response arrays, signed tracking URLs, image URLs and the other CRUD controllers.
- Unicode case mapping: upper-casing is ASCII only.
