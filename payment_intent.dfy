/**
 * The payment route (app/api/create-payment-intent/route.ts): it prices an
 * order of letters or faxes in cents and asks Stripe for a payment intent of
 * that amount.
 *
 * Stripe is a parameter: `stripe` maps the intent that is requested to what
 * Stripe answered, and `Post` returns the intents it requested beside the
 * response, so that "no intent is requested" can be stated.
 */
module PaymentIntent {
  import opened Wrappers
  import Text

  datatype ActionType = Letter | Fax

  /** `PRICES`: cents per item. */
  function UnitPrice(action: ActionType): nat
  {
    match action
    case Letter => 110
    case Fax => 25
  }

  /** The name an action goes by in requests and in the intent's metadata. */
  function ActionName(action: ActionType): string
  {
    match action
    case Letter => "letter"
    case Fax => "fax"
  }

  /**
   * `actionType && ['letter', 'fax'].includes(actionType)`: the action a field
   * names; `None` for an absent field or any other string.
   */
  function ParseActionType(field: Option<string>): (r: Option<ActionType>)
    ensures r.Some? <==> field == Some("letter") || field == Some("fax")
    ensures r.Some? ==> field == Some(ActionName(r.value))
  {
    if field == Some("letter") then Some(Letter)
    else if field == Some("fax") then Some(Fax)
    else None
  }

  /** Every action is recognised under its own name. */
  lemma ActionNamesRoundTrip(action: ActionType)
    ensures ParseActionType(Some(ActionName(action))) == Some(action)
  {
  }

  /** The fields of the JSON request body; `senatorCount` is absent or an integer. */
  datatype PaymentRequest = PaymentRequest(actionType: Option<string>, senatorCount: Option<int>)

  /** An accepted order: what is bought, and how many. */
  datatype Order = Order(action: ActionType, count: nat)

  /**
   * The request check: a known action and `senatorCount` present, non-zero
   * and at least 1.
   */
  function Validate(req: PaymentRequest): (r: Option<Order>)
    ensures r.Some? <==> ParseActionType(req.actionType).Some? && req.senatorCount.Some? && req.senatorCount.value >= 1
    ensures r.Some? ==> r.value.count >= 1 && req.senatorCount == Some(r.value.count as int)
    ensures r.Some? ==> req.actionType == Some(ActionName(r.value.action))
  {
    match ParseActionType(req.actionType)
    case None => None
    case Some(action) =>
      if req.senatorCount.None? || req.senatorCount.value == 0 || req.senatorCount.value < 1 then None
      else Some(Order(action, req.senatorCount.value))
  }

  /** `unitPrice * senatorCount`, in cents. */
  function TotalAmount(order: Order): nat
  {
    UnitPrice(order.action) * order.count
  }

  /** The price is linear in the count: the unit price times the number of items. */
  lemma PriceIsLinear(action: ActionType, count: nat)
    ensures TotalAmount(Order(action, count)) == TotalAmount(Order(action, 1)) * count
    ensures TotalAmount(Order(action, count + 1)) == TotalAmount(Order(action, count)) + UnitPrice(action)
  {
  }

  /** The concrete prices: $1.10 a letter, $0.25 a fax. */
  lemma Prices(count: nat)
    ensures TotalAmount(Order(Letter, count)) == 110 * count
    ensures TotalAmount(Order(Fax, count)) == 25 * count
  {
  }

  datatype Metadata = Metadata(actionType: string, senatorCount: string)

  /** The argument of `stripe.paymentIntents.create`. */
  datatype IntentRequest = IntentRequest(
    amount: nat,
    currency: string,
    metadata: Metadata,
    automaticPaymentMethods: bool)

  /** What Stripe answered: an intent with its client secret, or a thrown error and its message. */
  datatype StripeOutcome =
    | IntentCreated(clientSecret: string)
    | StripeError(message: Option<string>)

  datatype PaymentResponse =
    | Checkout(clientSecret: string, totalAmount: nat)
    | PaymentFailure(status: int, error: string)

  /** The response, and the intents requested on the way to it. */
  datatype PaymentHandled = PaymentHandled(response: PaymentResponse, intents: seq<IntentRequest>)

  const InvalidMessage := "Invalid payment request data."
  const FallbackMessage := "Internal Server Error"

  /**
   * The intent for an order: its amount in US cents, the order in the
   * metadata, wallets enabled. The action named in the metadata reads back as
   * the order's.
   */
  function Intent(order: Order): (r: IntentRequest)
    ensures r.amount == TotalAmount(order) && r.currency == "usd" && r.automaticPaymentMethods
    ensures ParseActionType(Some(r.metadata.actionType)) == Some(order.action)
  {
    IntentRequest(TotalAmount(order), "usd",
      Metadata(ActionName(order.action), Text.NatToDecimal(order.count)), true)
  }

  /** The metadata records the order so that it can be read back. */
  lemma IntentRecordsOrder(order: Order)
    ensures var m := Intent(order).metadata;
      && ParseActionType(Some(m.actionType)) == Some(order.action)
      && Text.IsDigits(m.senatorCount)
      && Text.DecimalValue(m.senatorCount) == order.count
  {
    Text.DecimalRoundTrip(order.count);
  }

  /**
   * `POST`. At most one intent is requested, and a checkout answers with the
   * client secret Stripe gave for it and the amount it was created for.
   */
  function Post(req: PaymentRequest, stripe: IntentRequest -> StripeOutcome): (h: PaymentHandled)
    ensures |h.intents| <= 1
    ensures h.response.Checkout? ==>
      && |h.intents| == 1
      && stripe(h.intents[0]) == IntentCreated(h.response.clientSecret)
      && h.response.totalAmount == h.intents[0].amount
  {
    match Validate(req)
    case None => PaymentHandled(PaymentFailure(400, InvalidMessage), [])
    case Some(order) =>
      var intent := Intent(order);
      match stripe(intent)
      case IntentCreated(secret) => PaymentHandled(Checkout(secret, TotalAmount(order)), [intent])
      case StripeError(message) => PaymentHandled(PaymentFailure(500, OrElse(message, FallbackMessage)), [intent])
  }

  /** An invalid request is answered 400 and no intent is requested; a valid one requests exactly one. */
  lemma RejectsWithoutIntent(req: PaymentRequest, stripe: IntentRequest -> StripeOutcome)
    ensures Validate(req).None? <==> Post(req, stripe).intents == []
    ensures Validate(req).None? ==> Post(req, stripe).response == PaymentFailure(400, InvalidMessage)
    ensures Validate(req).Some? ==> Post(req, stripe).intents == [Intent(Validate(req).value)]
  {
  }

  /**
   * On success the response carries Stripe's client secret and the same
   * amount Stripe was asked for, which is the unit price times the count.
   */
  lemma CheckoutAmountIsCharged(req: PaymentRequest, stripe: IntentRequest -> StripeOutcome)
    ensures Post(req, stripe).response.Checkout? ==>
      && |Post(req, stripe).intents| == 1
      && var intent := Post(req, stripe).intents[0];
         && stripe(intent) == IntentCreated(Post(req, stripe).response.clientSecret)
         && Post(req, stripe).response.totalAmount == intent.amount
         && intent.currency == "usd"
         && intent.amount == UnitPrice(ParseActionType(req.actionType).value) * req.senatorCount.value
  {
  }

  /** A Stripe error is answered 500 with its message, or the fallback when it has none. */
  lemma StripeFailure(req: PaymentRequest, stripe: IntentRequest -> StripeOutcome)
    requires Validate(req).Some?
    requires stripe(Intent(Validate(req).value)).StripeError?
    ensures var message := stripe(Intent(Validate(req).value)).message;
      Post(req, stripe).response == PaymentFailure(500, if message.Some? && message.value != "" then message.value else FallbackMessage)
  {
  }
}
