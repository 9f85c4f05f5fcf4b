# RoomAI credits ledger and payment-to-credits path, in Dafny

RoomAI sells credits, and each AI room redesign spends them. This project models the part of
the application that keeps and grants those credits:

- **The credits ledger** (`lib/credits.ts`). This is the `user_credits` table: one integer
  balance per user id, read with a select and rewritten whole with an upsert. `credits.dfy` models
  it as the class `Credits.Ledger`, which holds a `map<string, int>`. Its methods `GetUserCredits`,
  `UpdateUserCredits`, `DeductCredits` and `AddCredits` follow the source step by step. Each one
  is proved against a specification function (`Upsert`, `Deduct`, `Add`), and the properties are
  proved about those functions. Whether the store answers the read and accepts the write is
  outside the code, so each call takes it as a parameter (`readOk`, `writeOk`). The failure
  paths are therefore stated too. A failed read counts as 0, so an add after a failed read
  overwrites the balance instead of increasing it.
- **The payment-session route** (`app/api/payment/route.ts`). `payment.dfy` models it as the
  pure function `Payment.HandlePayment`. The route checks authentication, looks the amount up in
  the fixed price table (10→10, 25→30, 50→70, anything else 0), and builds either a Stripe
  checkout session in US cents or a Razorpay order in paise. Both carry `{userId, credits}`.
  The SDK calls are function parameters that map the request built to the provider's answer.
  The model therefore states both what request is built and what response comes back.
- **The Razorpay webhook** (`app/api/payment/razorpay-webhook/route.ts`). `razorpay_webhook.dfy`
  models its verify, parse and dispatch steps as the function `RazorpayWebhook.Decide`. The
  grant step is `RazorpayWebhook.HandleWebhook`, which calls `Ledger.AddCredits`. HMAC-SHA256
  (RFC 2104 HMAC over FIPS 180-4 SHA-256, hex-encoded) is a function parameter
  `hmac(secret, body)`. `JSON.parse` is a parameter holding its outcome.
- **Decimal text** (`decimal.dfy`). Credit counts travel through Razorpay's order notes as
  strings. `Decimal.ParseInt` models `parseInt` on digit strings, and `Decimal.Show` renders a
  number. `ParseInt` undoes `Show`; `Show` undoes `ParseInt` on digit strings without a leading
  zero (`parseInt` also accepts `"007"`, which reads as 7 and renders as `"7"`).

The lemma `RazorpayWebhook.OrderNotesGrantTheirCredits` ties the two routes together. When the
order built by the payment route comes back as a signed `payment.captured` event with the same
notes, the webhook adds exactly the credits the amount bought, to exactly that user. That
Razorpay copies the order's notes into the captured payment's notes is an assumption about the
vendor, not something the application code guarantees.

## Model

| member | source | states |
|---|---|---|
| `Credits.Ledger.GetUserCredits` | lib/credits.ts:3-16 | never an error: a missing row or a failed read gives 0; a successful read of a stored row gives exactly the stored balance; changes nothing |
| `Credits.Upsert` | lib/credits.ts:18-32 | a write that succeeds returns true, gives the user exactly the written balance and creates the row if absent; a failed write returns false and leaves the table unchanged; no other user's row changes |
| `Credits.Ledger.UpdateUserCredits` | lib/credits.ts:18-32 | the table afterwards and the result are those of `Upsert`: `rows[userId := credits]` and true, or the old table and false |
| `Credits.Deduct` | lib/credits.ts:34-42 | succeeds if and only if the balance read is at least `amount` and the write succeeds; when refused, nothing is written; on success the balance becomes the balance read minus `amount`; a balance a deduction writes is never negative, so a table with no negative balance keeps none; other users unchanged |
| `Credits.Ledger.DeductCredits` | lib/credits.ts:34-42 | runs `getUserCredits`, the guard and `updateUserCredits` on the ledger, and ends in the table and result `Deduct` specifies; the amount defaults to 1 |
| `Credits.Add` | lib/credits.ts:44-47 | result is the write's outcome; on success the balance is the balance read plus `amount`, so the old balance plus `amount` when the read succeeded; failure leaves the table unchanged; other users unchanged; a non-negative amount keeps the table non-negative |
| `Credits.Ledger.AddCredits` | lib/credits.ts:44-47 | runs `getUserCredits` then `updateUserCredits` of the sum on the ledger, and ends in the table and result `Add` specifies |
| `Credits.DeductDefaultChargesOne` | lib/credits.ts:34-41 | called without an amount, a deduction from a balance of at least 1 succeeds and lowers it by exactly 1 |
| `Credits.AddThenDeductRestores` | lib/credits.ts:34-47 | add(a) then deduct(a), with reads and writes succeeding, from a non-negative balance: the deduction succeeds and every user's balance is back to what it was |
| `Credits.AddThenDeductRefusedBelowZero` | lib/credits.ts:37-39 | from a negative balance, the same add-then-deduct is refused at the deduction's guard |
| `Credits.AddAfterFailedReadOverwrites` | lib/credits.ts:44-46 | after a failed read, a successful add leaves the balance equal to `amount`; the previous balance is lost |
| `Credits.DeductAfterFailedReadRefuses` | lib/credits.ts:35-39 | after a failed read, a deduction of any positive amount is refused and writes nothing |
| `Decimal.ParseInt` | app/api/payment/razorpay-webhook/route.ts:26 | `parseInt` gives a number exactly when the string is a non-empty string of decimal digits |
| `Decimal.Show` | app/api/payment/route.ts:45 | the decimal rendering of a count is a non-empty digit string without a leading zero |
| `Decimal.ParseShow` | app/api/payment/razorpay-webhook/route.ts:24-26 | parsing the rendering of a count gives back the count, so the credits note read back is the credits stamped |
| `Decimal.ShowParse` | app/api/payment/razorpay-webhook/route.ts:26 | every canonical digit string parses, and rendering its value gives back the string |
| `Decimal.ShowInjective` | app/api/payment/route.ts:63-66 | two counts with the same rendering are equal |
| `Payment.CreditsFor` | app/api/payment/route.ts:17-31 | credits are exactly 10 for 10, 30 for 25 and 70 for 50, and 0 for any other amount; a priced amount never buys fewer credits than the amount |
| `Payment.HandlePayment` | app/api/payment/route.ts:23-82 | no authenticated user id (absent or empty): 401 and no provider call; unreadable body: 500; unknown provider: 400 and no call; any call made charges `amount * 100` minor units and carries `{userId, credits}` for that user and `CreditsFor(amount)`; "stripe": one line item, quantity 1, in usd, payment methods `["card"]` and mode "payment", answered with the session url or 500; "razorpay": one order in INR, answered with the order's id, amount and currency and the credits stamped in its notes, or 500; every status is 200, 400, 401 or 500, and 200 only after a provider call |
| `Payment.UnpricedAmountBuysNothing` | app/api/payment/route.ts:31-66 | an amount outside the table still creates a payment for `amount * 100`, stamped with 0 credits |
| `RazorpayWebhook.Decide` | app/api/payment/razorpay-webhook/route.ts:6-27 | the delivery is rejected if and only if the signature header is missing or differs from `hmac(secret, body)`; a body that does not parse, or a captured event without notes, fails; another event type is acknowledged; a grant happens only for a verified `payment.captured`, to the notes' user, of the number the credits note parses to |
| `RazorpayWebhook.ResponseFor` | app/api/payment/razorpay-webhook/route.ts:17-33 | status 200, and then always the body `{received: true}`, exactly for acknowledged events and grants, whatever the write did; otherwise 400, "Invalid signature" for a signature mismatch and "Webhook error" for an exception |
| `RazorpayWebhook.Effect` | app/api/payment/razorpay-webhook/route.ts:23-27 | only a grant writes; a grant changes only its user's row, and with read and write succeeding adds exactly its credits; a failed write changes nothing |
| `RazorpayWebhook.HandleWebhook` | app/api/payment/razorpay-webhook/route.ts:6-34 | checks the signature, then the parse, then the event type, and calls `Ledger.AddCredits` at most once; its response and the ledger afterwards are those `ResponseFor` and `Effect` give for `Decide`'s action |
| `RazorpayWebhook.WrongSignatureChangesNothing` | app/api/payment/razorpay-webhook/route.ts:12-19 | a wrong or missing signature gives 400 "Invalid signature" and leaves the ledger unchanged |
| `RazorpayWebhook.VerifiedBeforeParsed` | app/api/payment/razorpay-webhook/route.ts:8-21 | the signature is checked before the parse: a rejected delivery's decision is the same whatever the body parses to; apart from its parse (a separate parameter), the raw body enters the decision only through its HMAC |
| `RazorpayWebhook.CapturedGrantsExactly` | app/api/payment/razorpay-webhook/route.ts:23-29 | a verified `payment.captured` event grants the notes' user exactly the parsed credits, changes no other user and is answered 200 |
| `RazorpayWebhook.OtherEventsChangeNothing` | app/api/payment/razorpay-webhook/route.ts:23-29 | a verified event of any other type is answered 200 and leaves the ledger unchanged |
| `RazorpayWebhook.AcknowledgedWhenWriteFails` | app/api/payment/razorpay-webhook/route.ts:26-29 | a grant whose write fails is still answered 200 `{received: true}`, and the ledger is unchanged |
| `RazorpayWebhook.RedeliveryGrantsTwice` | app/api/payment/razorpay-webhook/route.ts:23-26 | deliveries are not deduplicated: the same captured event delivered twice adds its credits twice |
| `RazorpayWebhook.OrderNotesGrantTheirCredits` | app/api/payment/route.ts:58-66 | assuming Razorpay echoes the order's notes into the captured payment: an order the route creates, delivered back captured and signed with its notes rendered as strings, adds exactly `CreditsFor(amount)` to that user and changes no one else |

## Left out

- Storage I/O: the Supabase select and upsert are represented only by their outcome (`readOk`,
  `writeOk`). Error logging (`console.error`) is not modelled.
- Concurrency: the model is sequential, one request at a time. The lost update between two
  concurrent read-then-write calls for the same user is not modelled.
- Non-integer amounts and credits: JavaScript numbers are modelled as unbounded integers, so
  fractional amounts, `NaN` stored in a row, and rows whose `credits` is null are not represented.
- `Decimal.ParseInt`: models `parseInt` only on strings of digits. JavaScript also skips leading
  whitespace, accepts a sign, and stops at the first non-digit (`"30abc"` gives 30). Here any
  such string reads as NaN.
- `RazorpayWebhook.Effect`: when `parseInt` gives NaN, the source calls `addCredits` with NaN,
  and what the store does with that write depends on the table's schema. The model takes the
  write to be refused, so the ledger is unchanged. The response is still 200, as in the source.
- A notes object without a `userId` field: the source passes `undefined` on to `addCredits`;
  the model's notes always carry a user id.
- HMAC-SHA256 and hex encoding: represented by the parameter `hmac`; SHA-256 is not reimplemented.
  A missing webhook secret, which makes `createHmac` throw, is not modelled.
- JSON parsing: `req.json()` and `JSON.parse` are represented by their outcome (a parsed
  body or event, or a throw). Only the fields the routes read are modelled.
- Provider SDKs and ambient context: `getServerSession`, the Stripe and Razorpay clients,
  `process.env` and `Date.now()` are parameters. A Stripe session whose `url` is null is not
  represented. Exceptions thrown by `getServerSession` are not modelled.
- The Stripe webhook (app/api/payment/webhook/route.ts) is not part of this model. It hands
  verification to the Stripe SDK, and its `checkout.session.completed` branch grants nothing.
- The user interface (pricing page, redesign page, navbar) is not part of this model. It only
  renders data and calls the routes above.
