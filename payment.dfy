/**
 * The payment-session route (app/api/payment/route.ts, `POST`): it turns an authenticated
 * request for an amount and a provider into one call that creates a Stripe checkout session or a
 * Razorpay order. The call is stamped with the user id and the credits the amount buys.
 *
 * The route is a chain of decisions, so it is modelled as one function. The framework's session
 * lookup, the parsed request body, the application URL, the clock and the two provider SDK calls
 * are parameters. A provider call is a function from the request built to its result, where
 * `None` stands for a call that throws. The route has no access to the credits ledger: it only
 * builds requests and a response.
 */
module Payment {
  import opened Wrappers
  import opened Http
  import Decimal

  /** `CREDITS_PER_AMOUNT`: the credits bought with each priced amount. */
  const CreditsPerAmount: map<int, nat> := map[10 := 10, 25 := 30, 50 := 70]

  /** `CREDITS_PER_AMOUNT[amount] || 0`: an amount the table does not price buys no credits. */
  function CreditsFor(amount: int): (credits: nat)
    ensures credits == if amount == 10 then 10 else if amount == 25 then 30 else if amount == 50 then 70 else 0
    ensures credits > 0 <==> amount in CreditsPerAmount
    ensures credits > 0 ==> credits >= amount
  {
    if amount in CreditsPerAmount then CreditsPerAmount[amount] else 0
  }

  /** The `{userId, credits}` stamped on a session as metadata, or on an order as notes. */
  datatype Metadata = Metadata(userId: string, credits: nat)

  datatype LineItem = LineItem(currency: string, productName: string, unitAmount: int, quantity: nat)

  /** The argument of `stripe.checkout.sessions.create`. */
  datatype CheckoutSessionRequest = CheckoutSessionRequest(
    paymentMethodTypes: seq<string>,
    metadata: Metadata,
    lineItems: seq<LineItem>,
    mode: string,
    successUrl: string,
    cancelUrl: string)

  /** The argument of `razorpay.orders.create`. */
  datatype OrderRequest = OrderRequest(amount: int, currency: string, receipt: string, notes: Metadata)

  /** What `razorpay.orders.create` returns that the route reads. */
  datatype Order = Order(id: string, amount: int, currency: string)

  /** The `{amount, provider}` fields of the request body. */
  datatype PaymentBody = PaymentBody(amount: int, provider: string)

  /** The remote object the route asks a provider to create. */
  datatype ProviderCall =
    | CreateCheckoutSession(session: CheckoutSessionRequest)
    | CreateOrder(order: OrderRequest)

  /** What one request does: the provider call it makes, if any, and the response. */
  datatype Outcome = Outcome(call: Option<ProviderCall>, response: Response)

  /** `session?.user?.id` is truthy: present and not the empty string. */
  predicate Authenticated(userId: Option<string>) {
    userId.Some? && userId.value != ""
  }

  /** The total a provider call charges, in minor units (cents or paise). */
  function Charged(call: ProviderCall): int {
    match call
    case CreateCheckoutSession(s) => LineItemsTotal(s.lineItems)
    case CreateOrder(o) => o.amount
  }

  function LineItemsTotal(items: seq<LineItem>): int {
    if items == [] then 0 else items[0].unitAmount * items[0].quantity + LineItemsTotal(items[1..])
  }

  /** The currency of every charge a provider call makes. */
  function Currencies(call: ProviderCall): set<string> {
    match call
    case CreateCheckoutSession(s) => set i | i in s.lineItems :: i.currency
    case CreateOrder(o) => {o.currency}
  }

  /** The user id and credits a provider call carries for the webhook to read back. */
  function Stamped(call: ProviderCall): Metadata {
    match call
    case CreateCheckoutSession(s) => s.metadata
    case CreateOrder(o) => o.notes
  }

  function CheckoutSession(userId: string, amount: int, appUrl: string): CheckoutSessionRequest {
    var credits := CreditsFor(amount);
    CheckoutSessionRequest(
      ["card"],
      Metadata(userId, credits),
      [LineItem("usd", Decimal.Show(credits) + " RoomAI Credits", amount * 100, 1)],
      "payment",
      appUrl + "/payment/success?session_id={CHECKOUT_SESSION_ID}",
      appUrl + "/payment/cancel")
  }

  function RazorpayOrder(userId: string, amount: int, now: nat): OrderRequest {
    OrderRequest(amount * 100, "INR", "order_" + Decimal.Show(now), Metadata(userId, CreditsFor(amount)))
  }

  /**
   * `POST /api/payment`. `userId` is `session?.user?.id`; `body` is `await req.json()` (`None`
   * when it throws); `createSession` and `createOrder` are the provider SDK calls (`None` when
   * they throw); `now` is `Date.now()`.
   */
  function HandlePayment(
    userId: Option<string>,
    body: Option<PaymentBody>,
    appUrl: string,
    now: nat,
    createSession: CheckoutSessionRequest -> Option<string>,
    createOrder: OrderRequest -> Option<Order>): (o: Outcome)
    // unauthenticated: 401, and nothing is created at a provider
    ensures !Authenticated(userId) ==> o == Outcome(None, Text(401, "Unauthorized"))
    // an unreadable body is an exception inside the try: 500
    ensures Authenticated(userId) && body.None? ==> o == Outcome(None, Text(500, "Payment error"))
    // a provider other than the two: 400, and nothing is created
    ensures Authenticated(userId) && body.Some? && body.value.provider !in {"stripe", "razorpay"} ==>
              o == Outcome(None, Text(400, "Invalid payment provider"))
    // a provider is called only for an authenticated request, charging amount * 100 minor units,
    // stamped with that user and the credits the amount buys
    ensures o.call.Some? ==>
              && Authenticated(userId) && body.Some?
              && Charged(o.call.value) == body.value.amount * 100
              && Stamped(o.call.value) == Metadata(userId.value, CreditsFor(body.value.amount))
    // the Stripe branch: one card checkout session of quantity 1 in US dollars; its url on success
    ensures Authenticated(userId) && body.Some? && body.value.provider == "stripe" ==>
              && o.call.Some? && o.call.value.CreateCheckoutSession?
              && o.call.value.session.paymentMethodTypes == ["card"]
              && o.call.value.session.mode == "payment"
              && Currencies(o.call.value) == {"usd"}
              && |o.call.value.session.lineItems| == 1 && o.call.value.session.lineItems[0].quantity == 1
              && o.response == match createSession(o.call.value.session)
                               case Some(url) => Json(CheckoutUrl(url))
                               case None => Text(500, "Payment error")
    // the Razorpay branch: one order in rupees; on success the order's id, amount and currency
    // with the same credits that were stamped into its notes
    ensures Authenticated(userId) && body.Some? && body.value.provider == "razorpay" ==>
              && o.call.Some? && o.call.value.CreateOrder?
              && Currencies(o.call.value) == {"INR"}
              && o.response == match createOrder(o.call.value.order)
                               case Some(order) => Json(OrderCreated(order.id, order.amount, order.currency, o.call.value.order.notes.credits))
                               case None => Text(500, "Payment error")
    ensures Status(o.response) in {200, 400, 401, 500}
    ensures Status(o.response) == 200 ==> o.call.Some?
  {
    if !Authenticated(userId) then
      Outcome(None, Text(401, "Unauthorized"))
    else if body.None? then
      Outcome(None, Text(500, "Payment error"))
    else
      var amount, provider := body.value.amount, body.value.provider;
      if provider == "stripe" then
        var request := CheckoutSession(userId.value, amount, appUrl);
        assert LineItemsTotal(request.lineItems) == amount * 100 by {
          assert request.lineItems[1..] == [];
        }
        var response := match createSession(request)
                        case Some(url) => Json(CheckoutUrl(url))
                        case None => Text(500, "Payment error");
        Outcome(Some(CreateCheckoutSession(request)), response)
      else if provider == "razorpay" then
        var request := RazorpayOrder(userId.value, amount, now);
        var response := match createOrder(request)
                        case Some(order) => Json(OrderCreated(order.id, order.amount, order.currency, CreditsFor(amount)))
                        case None => Text(500, "Payment error");
        Outcome(Some(CreateOrder(request)), response)
      else
        Outcome(None, Text(400, "Invalid payment provider"))
  }

  /** A request for an amount the table does not price still creates a payment, for zero credits. */
  lemma UnpricedAmountBuysNothing(userId: string, amount: int, provider: string, appUrl: string, now: nat,
                                   createSession: CheckoutSessionRequest -> Option<string>,
                                   createOrder: OrderRequest -> Option<Order>)
    requires userId != "" && amount !in CreditsPerAmount
    requires provider == "stripe" || provider == "razorpay"
    ensures var o := HandlePayment(Some(userId), Some(PaymentBody(amount, provider)), appUrl, now, createSession, createOrder);
            o.call.Some? && Stamped(o.call.value).credits == 0 && Charged(o.call.value) == amount * 100
  {
  }
}
