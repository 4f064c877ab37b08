# Donation backend: verified model of the request decisions

The backend takes donations through the Razorpay payment gateway and records
them in a MongoDB collection. This project models the deterministic logic
under its three POST handlers:

- `/create-order` (module `Orders`) validates a one-time donation amount and
  builds the gateway's order options: `amount * 10` in `"INR"`, with a
  time-stamped receipt.
- `/create-subscription` (module `Subscriptions`) needs a configured plan id.
  It resolves the number of billing cycles by JavaScript `||` precedence:
  the request's `total_count`, then `RAZORPAY_SUBSCRIPTION_CYCLES`, then 12.
- `/save-payment` (modules `Payments` and `Store`) verifies a completed
  payment and records it. The checks run in a fixed order, each returning
  early:
  1. payment id and signature present (400);
  2. the id the payment kind needs (400);
  3. the HMAC-SHA256 of the gateway's canonical message equals the signature
     (400 on mismatch; 500 when the key is unset);
  4. the database connection is open (503);
  5. the record is built and saved (500 when the schema refuses the amount).

  The canonical message is `paymentId|subscriptionId` for a subscription
  payment and `orderId|paymentId` for a one-time payment.

The HMAC is a parameter of the model, `mac: (string, string) -> string`.
Nothing about it is assumed, so every property holds for every keyed hash.
The gateway calls are parameters too: functions from the options to a
`GatewayReply` (an object, `null` or `undefined`, or a thrown error). "The handler
never reaches the gateway" is stated as "the answer is the same for any two
gateways". The database is the class `Store.DonationStore`. Its `records`
field is a `seq<Donation>` and its `ready` flag stands for
`readyState === 1`. `SavePayment` is written imperatively with the handler's
early returns and is proved against the pure `Payments.SaveDecision`:
- every rejection leaves `records` unchanged;
- success appends exactly the record `SaveDecision` builds;
- nothing is appended unless the signature matched.

JavaScript truthiness is explicit. An optional string is falsy when absent or
`""` (`Common.Present`). An optional number is falsy when absent or `0`
(`Common.Truthy`). `String(x || '')` is `Common.TextOr`.

Some behaviour of the code worth knowing, kept as written:
- The order amount is multiplied by 10, as written. INR's minor unit (the
  paisa) is a hundredth of a rupee, so a gateway reading the amount in paise
  charges a tenth of the donor's amount. `Orders.MinorUnitFactor` keeps the 10.
- `/save-payment` does not check that the amount is positive. It only needs
  a number, because the schema's `required` number cast fails on an absent or
  non-numeric value. Zero and negative amounts are stored.
- Signatures are compared with `!==`, not in constant time. Timing is not
  modelled.
- `/create-subscription` reads `name`, `email` and `contact` from the body
  but never uses them.
- A body `total_count` of 0 is falsy and falls through. A negative count is
  truthy and is sent to the gateway as it is.

Some results go beyond the handlers. `Payments.SplitJoin` shows that the
canonical message can be read back into its two ids when the left-hand id
has no bar. From it, `Payments.MessageBindsIds` shows that the canonical
message determines both ids when the left-hand id is bar-free. Hence, for a
MAC without collisions, one signature cannot verify two different pairs of
ids; the model assumes nothing about the MAC, so that last step is not
proved. `Payments.BarInIdsCollides` shows that two pairs share a message when
the left-hand id does contain a bar.
`Store.DuplicateSubmission` shows that the same verified form submitted twice
is stored twice: nothing makes `paymentId` unique.

## Model

| member | source | states |
|---|---|---|
| `Common.TextOr` | backend/createSubscription.js:343-347 | `String(x or '')` in JavaScript's sense: the field's text when it is truthy, otherwise `""`; the result is empty exactly when the field is falsy |
| `Common.Or` | backend/createSubscription.js:253 | JavaScript's logical or on numbers: `a` when truthy, else `b`; the result is truthy iff either operand is |
| `Orders.OrderRequest` | backend/createSubscription.js:194-209 | refuses the amount with 400 "Invalid amount" iff it is absent or `<= 0`; otherwise the options carry a positive multiple of 10 that divides back to exactly the donor's amount, currency INR, and receipt `receipt_donation_` followed by the clock reading |
| `Orders.OrderResponse` | backend/createSubscription.js:212-230 | 200 with the gateway's order verbatim iff the gateway created one; 500 "Razorpay order creation failed" on a `null` or `undefined` result; 500 with the thrown message on an error |
| `Orders.CreateOrder` | backend/createSubscription.js:192-231 | a refused amount gives 400; any success is the order the gateway created for exactly the options `OrderRequest` built |
| `Orders.RejectedAmountSkipsGateway` | backend/createSubscription.js:197-200 | for a refused amount, the answer is 400 and is the same whatever the gateway would do, so the gateway is never consulted |
| `Orders.AcceptedAmountCallsGateway` | backend/createSubscription.js:202-212 | an accepted amount reaches the gateway as exactly `amount * 10`, `"INR"`, `receipt_donation_<clock>`, and the answer is what that reply makes of it |
| `Orders.FiveHundredRupees` | backend/createSubscription.js:202-209 | example: 500 is requested as 5000 INR units |
| `Subscriptions.TotalCount` | backend/createSubscription.js:251-254 | the body's count when truthy, else the server's when truthy, else 12; never 0 |
| `Subscriptions.SubscriptionRequest` | backend/createSubscription.js:239-254 | 500 "Plan ID not configured on server" iff the plan id is absent or empty; otherwise the options name that plan, set `customer_notify` to 1 and carry the resolved count |
| `Subscriptions.SubscriptionResponse` | backend/createSubscription.js:259-266 | success iff the gateway created a subscription, answering with its id and the subscription itself; every other outcome is 500, with the thrown message when it threw |
| `Subscriptions.CreateSubscription` | backend/createSubscription.js:235-267 | without a plan the answer is the 500 misconfiguration error; any success carries the subscription the gateway created for exactly the plan, `customer_notify` 1 and the resolved count |
| `Subscriptions.PlanCallsGateway` | backend/createSubscription.js:244-262 | with a plan configured, the gateway is asked for a subscription on exactly that plan with `customer_notify` 1 and the resolved count, and the answer is what that reply makes of it: the subscription and its id when created, 500 otherwise |
| `Subscriptions.MissingPlanSkipsGateway` | backend/createSubscription.js:239-242 | without a plan the answer is 500 and is the same for any gateway |
| `Subscriptions.TotalCountSource` | backend/createSubscription.js:251-253 | the count is always the body's value, the server's value or 12, and a body value of 0 behaves exactly like an absent one |
| `Subscriptions.ZeroCyclesFallThrough` | backend/createSubscription.js:251-253 | examples: (0, 24) gives 24; (0, none) gives 12; (6, 24) gives 6; (none, 0) gives 12 |
| `Payments.Join` | backend/createSubscription.js:303 | two ids joined around a bar, as the handler concatenates them: its length is both ids' lengths plus one, with the bar right after the left id |
| `Payments.CanonicalMessage` | backend/createSubscription.js:294-313 | the signed message is paymentId, a bar, subscriptionId for a subscription payment and orderId, a bar, paymentId for a one-time payment |
| `Payments.CheckFields` | backend/createSubscription.js:289-313 | succeeds iff payment id, signature and the kind's own id are present, with the canonical message; missing payment id or signature gives the 400 "Missing required fields" error whatever else is missing; then the kind's own missing id gives its own 400 |
| `Payments.Verify` | backend/createSubscription.js:289-327 | succeeds iff the fields are present, the key is configured and the MAC of the canonical message equals the signature; a mismatch gives 400 "Invalid payment signature"; an unset key gives 500; field errors come first |
| `Payments.BuildRecord` | backend/createSubscription.js:342-358 | a record is built iff the amount is a number (else 500, the schema's cast failure), and every built record is completed, carries a payment id and exactly the one gateway id its kind calls for |
| `Payments.SaveDecision` | backend/createSubscription.js:288-358 | a record is produced iff the form has its ids, the key is configured, the MAC of the canonical message equals the signature, the store is connected and the amount is a number; that record is well formed with the form's payment id; errors are 400, 500 or 503; a 503 only ever follows a matching signature |
| `Payments.MissingCredentialsFirst` | backend/createSubscription.js:289-292 | a missing payment id or signature gives 400 before anything else: the payment kind, the other ids, the key, the MAC and the store make no difference |
| `Payments.OwnIdChecked` | backend/createSubscription.js:296-312 | a subscription payment is refused for a missing subscription id iff that id is missing, and a one-time payment for a missing order id iff that id is missing |
| `Payments.VerificationIff` | backend/createSubscription.js:316-339 | with the fields present and a key, the answer is the signature error iff the MAC differs from the signature; a matching signature with a disconnected store gives 503 |
| `Payments.RecordContents` | backend/createSubscription.js:342-355 | the saved record is completed, of the form's kind, carries the form's subscription id and no order id when recurring, the form's order id and no subscription id otherwise, the form's payment id and amount, and `""` for every absent text field |
| `Payments.BarIndex` | backend/createSubscription.js:303 | the first bar of a message: everything before it is bar-free |
| `Payments.Split` | backend/createSubscription.js:303 | reading a message back at its first bar: no result iff the message has no bar; otherwise a bar-free left id and a right id that join back to the message |
| `Payments.SplitJoin` | backend/createSubscription.js:303 | splitting a canonical message at its first bar gives back both ids when the left-hand id has no bar |
| `Payments.JoinInjective` | backend/createSubscription.js:312 | two canonical messages with bar-free left-hand ids are equal only if both ids are equal |
| `Payments.MessageBindsIds` | backend/createSubscription.js:303-322 | two forms of one kind with the same canonical message, with bar-free left-hand ids, carry the same payment id and the same order or subscription id |
| `Payments.BarInIdsCollides` | backend/createSubscription.js:312-322 | the one-time forms with order id "a, bar, b" and payment id "c", and with order id "a" and payment id "b, bar, c", share one message, so one signature verifies both |
| `Payments.OneTimeExample` | backend/createSubscription.js:312-327 | order `order_1`, payment `pay_1` and key `s` are saved iff the signature is the MAC of order_1, a bar, pay_1; any other signature gives 400 |
| `Store.DonationStore.constructor` | backend/createSubscription.js:99-115 | a new collection is empty, valid, and has the given connection state |
| `Store.DonationStore.SetConnected` | backend/createSubscription.js:332 | the connection state changes and the records stay as they were |
| `Store.DonationStore.SavePayment` | backend/createSubscription.js:273-377 | every rejection returns `SaveDecision`'s error and leaves the records unchanged; success appends exactly `SaveDecision`'s record and answers with its position and the payment id; the store changes only after a matching signature; every stored record stays well formed |
| `Store.DuplicateSubmission` | backend/createSubscription.js:358-366 | the same verified form saved twice succeeds twice, under two identifiers, as two equal records |
| `Store.DisconnectedStoresNothing` | backend/createSubscription.js:332-339 | a disconnected store refuses every form and stores nothing; the refusal is 503 iff the signature matched |

## Left out

- Express setup, the CORS allow-list, body parsing and the JSON-parse error middleware: HTTP plumbing.
- Environment logging and the MongoDB connect-and-retry loop with `setTimeout`: I/O and timing. Connection changes appear only as `Store.DonationStore.SetConnected`.
- The Razorpay calls `orders.create`, `subscriptions.create` and `payments.all` are foreign network calls. The first two are function parameters returning a `GatewayReply`. `payments.all` belongs to the diagnostic endpoint and is not modelled.
- HMAC-SHA256 (RFC 2104 over SHA-256 as in FIPS 180-4) and its hex encoding are not computed. They are the parameter `mac`.
- The MongoDB driver: `save()` is modelled as appending to `records`. Its only failure in the model is the schema's cast of a non-numeric amount. Other driver and network write failures (500) are not modelled.
- `GET /donations` (503 when disconnected, then every record sorted by `createdAt`, newest first): the database does the sort and `createdAt` is a clock value.
- The health check, `/test-razorpay` and `/test-db`: diagnostics over external services.
- `Date.now()` in the receipt is a parameter (`clock`, already rendered as text). `createdAt` is not modelled. The database's `_id` is modelled as the record's position.
- JavaScript number coercion is not covered. Amounts and counts are `int`, so `NaN`, floats and numeric strings are out. `isRecurring` is a `bool`, so non-boolean truthy values are out. Ids and text fields are strings, so the `String(...)` of non-string values is out.
- Response bodies keep only the status and the `error` text. The `success` flag and the 503 `message` are not modelled. The error texts of runtime exceptions are abbreviated: a missing HMAC key (`Payments.SecretMissing`), `.id` of a `null` or `undefined` subscription (`Subscriptions.NoSubscriptionRead`), and the schema cast failure (`Payments.AmountInvalid`).
- The `Donation` schema's defaults (`status: 'pending'`, `isRecurring: false`, empty texts) apply only to records built elsewhere. The one such record, in `/test-db`, is not modelled.
- A gateway result that is falsy but not `null` or `undefined` (`false`, `0`, `""`) is not modelled. `/create-order` would answer 500 for it, as for `null`; `/create-subscription` would answer 200 with an undefined `subscriptionId`.
