/**
 * The Razorpay webhook (app/api/payment/razorpay-webhook/route.ts, `POST`): verify the signature
 * over the raw body, parse the event, and on `payment.captured` grant the credits named in the
 * payment's notes through `addCredits`.
 *
 * HMAC-SHA256 with hex encoding is the parameter `hmac(secret, body)`. The outcome of
 * `JSON.parse(body)` is the parameter `parsed`, where `None` stands for a parse that throws. The
 * verify-and-dispatch part is the function `Decide`. `HandleWebhook` runs the same steps against a
 * `Ledger` and is proved against `Decide` and `Effect`.
 */
module RazorpayWebhook {
  import opened Wrappers
  import opened Http
  import opened Credits
  import Decimal
  import Payment

  /** `event.payload.payment.entity.notes`, whose values Razorpay delivers as strings. */
  datatype Notes = Notes(userId: string, credits: string)

  /** A parsed webhook body: its `event` type, and the payment's notes when that path exists. */
  datatype Event = Event(kind: string, notes: Option<Notes>)

  const PaymentCaptured := "payment.captured"

  /** What the handler does with one delivery, before anything is written. */
  datatype Action =
    | RejectSignature                            // 400 "Invalid signature"
    | Fail                                       // an exception after verification: 400 "Webhook error"
    | Acknowledge                                // 200 `{received: true}`, nothing granted
    | Grant(userId: UserId, credits: nat)        // `addCredits(userId, credits)`, then 200
    | GrantNotANumber(userId: UserId)            // `parseInt` gave NaN: `addCredits(userId, NaN)`, then 200

  /** The header is present and equals the HMAC of the raw body. */
  predicate SignatureValid(hmac: (string, string) -> string, secret: string, body: string, signature: Option<string>) {
    signature == Some(hmac(secret, body))
  }

  /** The handler's decision for one delivery. */
  function Decide(hmac: (string, string) -> string, secret: string, body: string,
                  signature: Option<string>, parsed: Option<Event>): (a: Action)
    // a missing or wrong signature rejects, whatever the body parses to
    ensures !SignatureValid(hmac, secret, body, signature) <==> a == RejectSignature
    // a body that does not parse as JSON fails only after the signature was accepted
    ensures SignatureValid(hmac, secret, body, signature) && parsed.None? ==> a == Fail
    // any event type other than payment.captured is acknowledged and grants nothing
    ensures SignatureValid(hmac, secret, body, signature) && parsed.Some? && parsed.value.kind != PaymentCaptured ==>
              a == Acknowledge
    // a captured payment without notes is an exception
    ensures parsed.Some? && parsed.value.kind == PaymentCaptured && parsed.value.notes.None? ==>
              a.RejectSignature? || a.Fail?
    // a grant is made only for a verified captured payment, to the user in its notes, of the
    // number its credits note parses to
    ensures a.Grant? ==>
              && SignatureValid(hmac, secret, body, signature)
              && parsed.Some? && parsed.value.kind == PaymentCaptured && parsed.value.notes.Some?
              && parsed.value.notes.value.userId == a.userId
              && Decimal.ParseInt(parsed.value.notes.value.credits) == Some(a.credits)
    ensures a.GrantNotANumber? ==>
              parsed.Some? && parsed.value.notes.Some? && Decimal.ParseInt(parsed.value.notes.value.credits).None?
  {
    if signature != Some(hmac(secret, body)) then RejectSignature
    else if parsed.None? then Fail
    else if parsed.value.kind != PaymentCaptured then Acknowledge
    else if parsed.value.notes.None? then Fail
    else
      var notes := parsed.value.notes.value;
      match Decimal.ParseInt(notes.credits)
      case Some(credits) => Grant(notes.userId, credits)
      case None => GrantNotANumber(notes.userId)
  }

  /** The response for an action; the result of `addCredits` is not consulted. */
  function ResponseFor(a: Action): (r: Response)
    ensures Status(r) == 200 <==> a.Acknowledge? || a.Grant? || a.GrantNotANumber?
    ensures Status(r) == 200 ==> r == Json(Received)
    ensures Status(r) != 200 ==> Status(r) == 400
    ensures r.Text? ==> r.message == if a.RejectSignature? then "Invalid signature" else "Webhook error"
  {
    match a
    case RejectSignature => Text(400, "Invalid signature")
    case Fail => Text(400, "Webhook error")
    case _ => Json(Received)
  }

  /**
   * The table after an action. Only a grant writes, and it writes what `addCredits` writes. A NaN
   * grant is taken to be a write the store refuses.
   */
  function Effect(rows: map<UserId, int>, a: Action, readOk: bool, writeOk: bool): (rows': map<UserId, int>)
    ensures !a.Grant? ==> rows' == rows
    ensures a.Grant? ==> OthersUnchanged(rows, rows', a.userId)
    ensures a.Grant? && writeOk && readOk ==> Balance(rows', a.userId) == Balance(rows, a.userId) + a.credits
    ensures !writeOk ==> rows' == rows
  {
    if a.Grant? then Add(rows, a.userId, a.credits, readOk, writeOk).rows else rows
  }

  /** `POST /api/payment/razorpay-webhook` against the ledger. */
  method HandleWebhook(ledger: Ledger, hmac: (string, string) -> string, secret: string, body: string,
                       signature: Option<string>, parsed: Option<Event>, readOk: bool, writeOk: bool)
    returns (response: Response)
    modifies ledger
    ensures response == ResponseFor(Decide(hmac, secret, body, signature, parsed))
    ensures ledger.rows == Effect(old(ledger.rows), Decide(hmac, secret, body, signature, parsed), readOk, writeOk)
  {
    var expected := hmac(secret, body);
    if signature != Some(expected) {
      return Text(400, "Invalid signature");
    }
    if parsed.None? {
      return Text(400, "Webhook error");
    }
    var event := parsed.value;
    if event.kind == PaymentCaptured {
      if event.notes.None? {
        return Text(400, "Webhook error");
      }
      var notes := event.notes.value;
      match Decimal.ParseInt(notes.credits)
      case Some(credits) =>
        var _ := ledger.AddCredits(notes.userId, credits, readOk, writeOk);
      case None =>
    }
    response := Json(Received);
  }

  /** A delivery with a missing or wrong signature is answered 400 and changes no balance. */
  lemma WrongSignatureChangesNothing(rows: map<UserId, int>, hmac: (string, string) -> string, secret: string,
                                     body: string, signature: Option<string>, parsed: Option<Event>,
                                     readOk: bool, writeOk: bool)
    requires signature != Some(hmac(secret, body))
    ensures var a := Decide(hmac, secret, body, signature, parsed);
            ResponseFor(a) == Text(400, "Invalid signature") && Effect(rows, a, readOk, writeOk) == rows
  {
  }

  /**
   * The signature is checked on the raw body before the body is parsed: a rejected delivery's
   * decision is the same whatever the body parses to. Apart from its parse, the raw body enters
   * the decision only through its HMAC.
   */
  lemma VerifiedBeforeParsed(hmac: (string, string) -> string, secret: string, body: string, body': string,
                             signature: Option<string>, parsed: Option<Event>, parsed': Option<Event>)
    requires hmac(secret, body) == hmac(secret, body')
    ensures Decide(hmac, secret, body, signature, parsed) == Decide(hmac, secret, body', signature, parsed)
    ensures !SignatureValid(hmac, secret, body, signature) ==>
              Decide(hmac, secret, body, signature, parsed) == Decide(hmac, secret, body, signature, parsed')
  {
  }

  /**
   * A verified `payment.captured` event whose credits note reads as `credits` adds exactly that
   * to the user in its notes, leaves every other user as they were, and is acknowledged.
   */
  lemma CapturedGrantsExactly(rows: map<UserId, int>, hmac: (string, string) -> string, secret: string,
                              body: string, userId: UserId, creditsNote: string, credits: nat)
    requires Decimal.ParseInt(creditsNote) == Some(credits)
    ensures var a := Decide(hmac, secret, body, Some(hmac(secret, body)),
                            Some(Event(PaymentCaptured, Some(Notes(userId, creditsNote)))));
            var rows' := Effect(rows, a, true, true);
            && a == Grant(userId, credits)
            && Balance(rows', userId) == Balance(rows, userId) + credits
            && OthersUnchanged(rows, rows', userId)
            && ResponseFor(a) == Json(Received)
  {
  }

  /** A verified event of any other type is acknowledged and changes no balance. */
  lemma OtherEventsChangeNothing(rows: map<UserId, int>, hmac: (string, string) -> string, secret: string,
                                 body: string, event: Event, readOk: bool, writeOk: bool)
    requires event.kind != PaymentCaptured
    ensures var a := Decide(hmac, secret, body, Some(hmac(secret, body)), Some(event));
            ResponseFor(a) == Json(Received) && Effect(rows, a, readOk, writeOk) == rows
  {
  }

  /** The grant's own failure is not reported: the store refusing the write still yields 200. */
  lemma AcknowledgedWhenWriteFails(rows: map<UserId, int>, hmac: (string, string) -> string, secret: string,
                                   body: string, userId: UserId, creditsNote: string, readOk: bool)
    requires Decimal.ParseInt(creditsNote).Some?
    ensures var a := Decide(hmac, secret, body, Some(hmac(secret, body)),
                            Some(Event(PaymentCaptured, Some(Notes(userId, creditsNote)))));
            a.Grant? && ResponseFor(a) == Json(Received) && Effect(rows, a, readOk, false) == rows
  {
  }

  /**
   * Nothing deduplicates deliveries: the same verified captured event delivered twice grants its
   * credits twice.
   */
  lemma RedeliveryGrantsTwice(rows: map<UserId, int>, hmac: (string, string) -> string, secret: string,
                              body: string, userId: UserId, creditsNote: string, credits: nat)
    requires Decimal.ParseInt(creditsNote) == Some(credits)
    ensures var a := Decide(hmac, secret, body, Some(hmac(secret, body)),
                            Some(Event(PaymentCaptured, Some(Notes(userId, creditsNote)))));
            Balance(Effect(Effect(rows, a, true, true), a, true, true), userId) == Balance(rows, userId) + 2 * credits
  {
  }

  /**
   * From order to grant: the Razorpay order the payment route creates carries `{userId, credits}`
   * in its notes. When the captured payment comes back with those notes rendered as strings and
   * a valid signature, the webhook adds exactly the credits the amount bought to exactly that
   * user. That Razorpay copies the order's notes into `payload.payment.entity.notes` is an
   * assumption about the vendor, made here in the event the lemma builds; the application code
   * does not guarantee it.
   */
  lemma OrderNotesGrantTheirCredits(rows: map<UserId, int>, userId: string, amount: int, appUrl: string, now: nat,
                                    createSession: Payment.CheckoutSessionRequest -> Option<string>,
                                    createOrder: Payment.OrderRequest -> Option<Payment.Order>,
                                    hmac: (string, string) -> string, secret: string, body: string)
    requires userId != ""
    ensures var o := Payment.HandlePayment(Some(userId), Some(Payment.PaymentBody(amount, "razorpay")),
                                           appUrl, now, createSession, createOrder);
            var notes := o.call.value.order.notes;
            var event := Event(PaymentCaptured, Some(Notes(notes.userId, Decimal.Show(notes.credits))));
            var rows' := Effect(rows, Decide(hmac, secret, body, Some(hmac(secret, body)), Some(event)), true, true);
            && Balance(rows', userId) == Balance(rows, userId) + Payment.CreditsFor(amount)
            && OthersUnchanged(rows, rows', userId)
  {
    Decimal.ParseShow(Payment.CreditsFor(amount));
  }
}
