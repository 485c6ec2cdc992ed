/** The three payment actions and their description table. Each remote call
    to the payment processor is a function parameter (what the processor
    answers to a request), and each action also returns the request it sent,
    if any, so that "rejected before any remote call" can be stated. */
module Stripe {
  import opened Js
  import opened Tables
  import opened Promo
  import opened Payments

  /** The process environment the actions read. */
  datatype Env = Env(stripeSecretKey: Option<string>, convexSiteUrl: Option<string>)

  const SecretKeyMissing := "Stripe secret key not configured"
  const CheckoutFailed := "Failed to create checkout session"
  const VerifyFailed := "Failed to verify payment"

  /** The message `createPaymentIntent` rethrows any inner error with. */
  function IntentFailed(cause: string): string
  {
    "Failed to create PaymentIntent: " + cause
  }

  /** `price * 100` on a JavaScript number. */
  function TimesHundred(n: JsNumber): JsNumber
  {
    match n
    case NaN => NaN
    case Finite(x) => Finite(x * 100.0)
  }

  // ---------------------------------------------------------------------------
  // getServiceDescription
  // ---------------------------------------------------------------------------

  /** The description table's own entries. */
  const Descriptions: map<string, string> := map[
    "website" := "Full stack website development with hosting setup, responsive design, and modern framework implementation.",
    "website-logo" := "Complete website development package including custom logo design, brand guidelines, and all website features.",
    "basic-maintenance" := "Monthly website maintenance including security updates, content updates (2 hrs), and basic monitoring.",
    "pro-maintenance" := "Enhanced monthly maintenance with performance reports, SEO monitoring, and content updates (5 hrs).",
    "oncall-maintenance" := "Premium 24/7 support with unlimited updates, custom development, and dedicated account management."
  ]

  const FallbackDescription := "Professional web development service"

  /** The properties every plain object literal inherits from Object.prototype. */
  const ObjectPrototypeMembers: set<string> := {
    "constructor", "__proto__", "toString", "toLocaleString", "valueOf",
    "hasOwnProperty", "isPrototypeOf", "propertyIsEnumerable",
    "__defineGetter__", "__defineSetter__", "__lookupGetter__", "__lookupSetter__"
  }

  /** What indexing the description object can yield: one of its own strings,
      or an inherited Object.prototype member (a function, or the prototype
      object itself for "__proto__"), which is truthy and not a string. */
  datatype PropertyValue = Text(text: string) | PrototypeMember(name: string)

  /** `descriptions[serviceId] || "Professional web development service"` as
      written: indexing a plain object literal also finds inherited members. */
  function ServiceDescriptionAsWritten(serviceId: string): (v: PropertyValue)
    ensures serviceId in Descriptions ==> v == Text(Descriptions[serviceId])
    ensures serviceId !in Descriptions && serviceId in ObjectPrototypeMembers ==> v == PrototypeMember(serviceId)
    ensures serviceId !in Descriptions && serviceId !in ObjectPrototypeMembers ==> v == Text(FallbackDescription)
  {
    if serviceId in Descriptions && Descriptions[serviceId] != "" then Text(Descriptions[serviceId])
    else if serviceId in ObjectPrototypeMembers then PrototypeMember(serviceId)
    else Text(FallbackDescription)
  }

  /** As written, a service id naming an Object.prototype member escapes the
      fallback and yields a non-string description. */
  lemma PrototypeMemberEscapesFallback(serviceId: string)
    requires serviceId in ObjectPrototypeMembers
    ensures !ServiceDescriptionAsWritten(serviceId).Text?
  {
    assert serviceId !in Descriptions;
  }

  /** `getServiceDescription` as intended: the table's own entry, or the fallback. */
  function ServiceDescription(serviceId: string): (d: string)
    ensures serviceId in Descriptions ==> d == Descriptions[serviceId]
    ensures serviceId !in Descriptions ==> d == FallbackDescription
    ensures d != ""
  {
    if serviceId in Descriptions then Descriptions[serviceId] else FallbackDescription
  }

  /** The intended lookup agrees with the written one on every id that is not
      an Object.prototype member name. */
  lemma DescriptionAgreesOffPrototype(serviceId: string)
    requires serviceId !in ObjectPrototypeMembers
    ensures ServiceDescriptionAsWritten(serviceId) == Text(ServiceDescription(serviceId))
  {
  }

  // ---------------------------------------------------------------------------
  // createCheckoutSession
  // ---------------------------------------------------------------------------

  datatype CheckoutArgs = CheckoutArgs(
    serviceId: string,
    serviceName: string,
    price: JsNumber,
    isRecurring: Option<bool>,
    customerEmail: Option<string>,
    customerName: Option<string>)

  datatype Recurring = Recurring(interval: string)

  /** One line item with its price data and product data flattened. */
  datatype LineItem = LineItem(
    currency: string,
    productName: string,
    productDescription: string,
    unitAmount: JsNumber,
    recurring: Option<Recurring>,
    quantity: nat)

  datatype SessionMetadata = SessionMetadata(serviceId: string, serviceName: string)

  /** The hosted-checkout request handed to the processor. */
  datatype SessionRequest = SessionRequest(
    paymentMethodTypes: seq<string>,
    lineItems: seq<LineItem>,
    mode: string,
    successUrl: string,
    cancelUrl: string,
    metadata: SessionMetadata,
    customerEmail: Option<string>)

  datatype CreatedSession = CreatedSession(id: string, url: Option<string>)

  datatype CheckoutReply = CheckoutReply(sessionId: string, url: Option<string>)

  /** `createCheckoutSession`: refuses without a secret key, fails without a
      site URL, and otherwise sends one request whose mode and recurrence
      follow isRecurring, whose customer email is set only when one is given,
      and whose redirect URLs extend the site URL. */
  method CreateCheckoutSession(env: Env, args: CheckoutArgs, create: SessionRequest -> Result<CreatedSession>)
    returns (r: Result<CheckoutReply>, sent: Option<SessionRequest>)
    ensures !Truthy(env.stripeSecretKey) ==> r == Err(SecretKeyMissing) && sent == None
    ensures Truthy(env.stripeSecretKey) && !Truthy(env.convexSiteUrl) ==> r == Err(CheckoutFailed) && sent == None
    ensures Truthy(env.stripeSecretKey) && Truthy(env.convexSiteUrl) ==>
      && sent.Some?
      && var p := sent.value;
      && (p.mode == "subscription" <==> args.isRecurring == Some(true))
      && (p.mode == "payment" <==> args.isRecurring != Some(true))
      && |p.lineItems| == 1
      && (p.lineItems[0].recurring.Some? <==> args.isRecurring == Some(true))
      && (p.lineItems[0].recurring.Some? ==> p.lineItems[0].recurring.value.interval == "month")
      && p.lineItems[0].productName == args.serviceName
      && p.lineItems[0].productDescription == ServiceDescription(args.serviceId)
      && (args.serviceId !in ObjectPrototypeMembers ==>
            ServiceDescriptionAsWritten(args.serviceId) == Text(p.lineItems[0].productDescription))
      && p.lineItems[0].unitAmount == TimesHundred(args.price)
      && p.lineItems[0].currency == "usd" && p.lineItems[0].quantity == 1
      && (p.customerEmail.Some? <==> Truthy(args.customerEmail))
      && (p.customerEmail.Some? ==> p.customerEmail == args.customerEmail)
      && p.successUrl == env.convexSiteUrl.value + "?success=true&session_id={CHECKOUT_SESSION_ID}"
      && p.cancelUrl == env.convexSiteUrl.value + "?canceled=true"
      && p.metadata == SessionMetadata(args.serviceId, args.serviceName)
      && p.paymentMethodTypes == ["card"]
      && r == match create(p)
              case Ok(session) => Ok(CheckoutReply(session.id, session.url))
              case Err(_) => Err(CheckoutFailed)
  {
    sent := None;
    if !Truthy(env.stripeSecretKey) {
      return Err(SecretKeyMissing), None;
    }
    if !Truthy(env.convexSiteUrl) {
      return Err(CheckoutFailed), None;
    }
    var baseUrl := env.convexSiteUrl.value;
    var recurring := if args.isRecurring == Some(true) then Some(Recurring("month")) else None;
    var lineItem := LineItem("usd", args.serviceName, ServiceDescription(args.serviceId),
                             TimesHundred(args.price), recurring, 1);
    var sessionParams := SessionRequest(
      ["card"],
      [lineItem],
      if args.isRecurring == Some(true) then "subscription" else "payment",
      baseUrl + "?success=true&session_id={CHECKOUT_SESSION_ID}",
      baseUrl + "?canceled=true",
      SessionMetadata(args.serviceId, args.serviceName),
      None);
    if Truthy(args.customerEmail) {
      sessionParams := sessionParams.(customerEmail := args.customerEmail);
    }
    sent := Some(sessionParams);
    if args.serviceId !in ObjectPrototypeMembers {
      DescriptionAgreesOffPrototype(args.serviceId);
    }
    match create(sessionParams) {
      case Ok(session) => r := Ok(CheckoutReply(session.id, session.url));
      case Err(_) => r := Err(CheckoutFailed);
    }
  }

  // ---------------------------------------------------------------------------
  // createPaymentIntent
  // ---------------------------------------------------------------------------

  datatype IntentArgs = IntentArgs(
    serviceId: string,
    serviceName: string,
    price: JsNumber,
    customerEmail: Option<string>,
    customerName: Option<string>,
    promoCode: Option<string>)

  /** The intent's metadata, with the numbers and the flag kept as values
      rather than their toString() forms. */
  datatype IntentMetadata = IntentMetadata(
    serviceId: string,
    serviceName: string,
    customerEmail: string,
    customerName: string,
    promoCode: string,
    originalPrice: real,
    discountedPrice: real,
    discountApplied: bool)

  /** The payment-intent request handed to the processor; `amount` is in cents. */
  datatype IntentRequest = IntentRequest(
    amount: int,
    currency: string,
    paymentMethodTypes: seq<string>,
    metadata: IntentMetadata)

  datatype CreatedIntent = CreatedIntent(clientSecret: Option<string>)

  datatype IntentReply = IntentReply(
    clientSecret: Option<string>,
    discountedPrice: real,
    discountMessage: string,
    discountApplied: bool)

  /** The amount, message and flag the handler settles on before charging. */
  datatype Quote = Quote(finalAmount: real, discountMessage: string, discountApplied: bool)

  /** A present, valid promo code replaces the price by its discounted price;
      an absent, empty or invalid code leaves the price as it is. */
  function QuoteFor(price: real, promoCode: Option<string>): (q: Quote)
    ensures q.discountApplied <==> Truthy(promoCode) && ApplyPromoCode(promoCode.value, price).Ok?
    ensures !q.discountApplied ==> q.finalAmount == price && q.discountMessage == ""
    ensures q.discountApplied ==>
              var promo := ApplyPromoCode(promoCode.value, price).value;
              q.finalAmount == promo.discountedPrice && q.discountMessage == promo.discountMessage
    ensures q.discountApplied ==> q.finalAmount >= MinPrice
  {
    if Truthy(promoCode) then
      match ApplyPromoCode(promoCode.value, price)
      case Ok(promo) => Quote(promo.discountedPrice, promo.discountMessage, true)
      case Err(_) => Quote(price, "", false)
    else Quote(price, "", false)
  }

  /** `createPaymentIntent`: refuses without a secret key and rejects a NaN
      price before contacting the processor; otherwise it charges the quoted
      amount rounded to cents and reports the discount it applied. */
  method CreatePaymentIntent(env: Env, args: IntentArgs, create: IntentRequest -> Result<CreatedIntent>)
    returns (r: Result<IntentReply>, sent: Option<IntentRequest>)
    ensures !Truthy(env.stripeSecretKey) ==> r == Err(SecretKeyMissing) && sent == None
    ensures Truthy(env.stripeSecretKey) && args.price.NaN? ==>
              r == Err(IntentFailed("Invalid price value")) && sent == None
    ensures Truthy(env.stripeSecretKey) && args.price.Finite? ==>
      var q := QuoteFor(args.price.value, args.promoCode);
      && sent.Some?
      && sent.value.amount == Round(q.finalAmount * 100.0)
      && sent.value.currency == "usd"
      && sent.value.paymentMethodTypes == ["card"]
      && sent.value.metadata == IntentMetadata(
           args.serviceId, args.serviceName,
           OrElse(args.customerEmail, ""), OrElse(args.customerName, ""), OrElse(args.promoCode, ""),
           args.price.value, q.finalAmount, q.discountApplied)
      && r == match create(sent.value)
              case Ok(intent) => Ok(IntentReply(intent.clientSecret, q.finalAmount, q.discountMessage, q.discountApplied))
              case Err(cause) => Err(IntentFailed(cause))
  {
    sent := None;
    if !Truthy(env.stripeSecretKey) {
      return Err(SecretKeyMissing), None;
    }
    if args.price.NaN? {
      return Err(IntentFailed("Invalid price value")), None;
    }
    var price := args.price.value;
    var finalAmount := price;
    var discountMessage := "";
    var discountApplied := false;
    if Truthy(args.promoCode) {
      var promo := ApplyPromoCode(args.promoCode.value, price);
      if promo.Ok? {
        finalAmount := promo.value.discountedPrice;
        discountMessage := promo.value.discountMessage;
        discountApplied := true;
      }
      // an invalid code is logged and otherwise ignored
    }
    var amountInCents := Round(finalAmount * 100.0);
    var request := IntentRequest(amountInCents, "usd", ["card"], IntentMetadata(
      args.serviceId, args.serviceName,
      OrElse(args.customerEmail, ""), OrElse(args.customerName, ""), OrElse(args.promoCode, ""),
      price, finalAmount, discountApplied));
    sent := Some(request);
    match create(request) {
      case Ok(intent) => r := Ok(IntentReply(intent.clientSecret, finalAmount, discountMessage, discountApplied));
      case Err(cause) => r := Err(IntentFailed(cause));
    }
  }

  /** An amount already in whole cents is charged exactly. */
  lemma CentsExact(cents: int)
    ensures Round((cents as real / 100.0) * 100.0) == cents
  {
    assert (cents as real / 100.0) * 100.0 == cents as real;
  }

  /** Rounding to cents never reverses the order of two amounts. */
  lemma RoundMonotone(a: real, b: real)
    requires a <= b
    ensures Round(a) <= Round(b)
  {
  }

  /** A valid code never charges less than 50 cents, never more than the
      undiscounted price in cents when the price is at least 0.50, and
      FIFTYCENTS charges exactly 50 cents. */
  lemma ChargedCents(price: real, code: string)
    requires Truthy(Some(code)) && ApplyPromoCode(code, price).Ok?
    ensures Round(QuoteFor(price, Some(code)).finalAmount * 100.0) >= 50
    ensures price >= MinPrice ==> Round(QuoteFor(price, Some(code)).finalAmount * 100.0) <= Round(price * 100.0)
    ensures Normalize(code) == "FIFTYCENTS" ==> Round(QuoteFor(price, Some(code)).finalAmount * 100.0) == 50
  {
    var q := QuoteFor(price, Some(code));
    RoundMonotone(50.0, q.finalAmount * 100.0);
    assert Round(50.0) == 50;
    if price >= MinPrice {
      DiscountNotAbovePrice(code, price);
      RoundMonotone(q.finalAmount * 100.0, price * 100.0);
    }
  }

  /** An invalid code is charged exactly as if no code had been given. */
  lemma InvalidCodeIgnored(price: real, code: string)
    requires ApplyPromoCode(code, price).Err?
    ensures QuoteFor(price, Some(code)) == QuoteFor(price, None) == Quote(price, "", false)
  {
  }

  // ---------------------------------------------------------------------------
  // verifyPayment
  // ---------------------------------------------------------------------------

  /** The parts of a retrieved checkout session the handler reads; a missing
      metadata object and a missing serviceName both read as None. */
  datatype RetrievedSession = RetrievedSession(
    paymentStatus: string,
    customerEmail: Option<string>,
    serviceName: Option<string>,
    amountTotal: Option<int>)

  /** `{ success: true, customerEmail, serviceName, amount }` or `{ success: false }`. */
  datatype VerifyReply =
    | Verified(customerEmail: Option<string>, serviceName: Option<string>, amount: Option<int>)
    | NotVerified

  /** The reply, and the payment to record if any. */
  datatype Verification = Verification(reply: Result<VerifyReply>, record: Option<Payment>)

  /** `amount_total || 0` */
  function AmountOrZero(amount: Option<int>): int
  {
    if amount.Some? then amount.value else 0
  }

  /** What `verifyPayment` decides from the processor's answer: record one
      payment, with defaults for missing fields, exactly when the session is
      paid; report a failed retrieval as an error, never as unpaid. */
  function Verify(env: Env, sessionId: string, retrieved: Result<RetrievedSession>): (v: Verification)
    ensures v.record.Some? <==>
              Truthy(env.stripeSecretKey) && retrieved.Ok? && retrieved.value.paymentStatus == "paid"
    ensures (v.reply.Ok? && v.reply.value.Verified?) <==> v.record.Some?
    ensures v.reply == Ok(NotVerified) <==>
              Truthy(env.stripeSecretKey) && retrieved.Ok? && retrieved.value.paymentStatus != "paid"
    ensures !Truthy(env.stripeSecretKey) ==> v.reply == Err(SecretKeyMissing)
    ensures Truthy(env.stripeSecretKey) && retrieved.Err? ==> v.reply == Err(VerifyFailed)
    ensures v.record.Some? ==>
              var s := retrieved.value;
              && v.record.value == Payment(sessionId, OrElse(s.customerEmail, ""), OrElse(s.serviceName, ""),
                                           AmountOrZero(s.amountTotal), "paid")
              && v.reply.value == Verified(s.customerEmail, s.serviceName, s.amountTotal)
  {
    if !Truthy(env.stripeSecretKey) then Verification(Err(SecretKeyMissing), None)
    else match retrieved
      case Err(_) => Verification(Err(VerifyFailed), None)
      case Ok(s) =>
        if s.paymentStatus == "paid" then
          Verification(Ok(Verified(s.customerEmail, s.serviceName, s.amountTotal)),
                       Some(Payment(sessionId, OrElse(s.customerEmail, ""), OrElse(s.serviceName, ""),
                                    AmountOrZero(s.amountTotal), s.paymentStatus)))
        else Verification(Ok(NotVerified), None)
  }

  /** `verifyPayment`: refuses without a secret key before retrieving the
      session; otherwise retrieves it once and inserts the payment `Verify`
      decides on, if any, and nothing else. `requested` is the session id it
      asked the processor for, if any. */
  method VerifyPayment(env: Env, sessionId: string, retrieve: string -> Result<RetrievedSession>,
                       payments: Table<Payment>)
    returns (r: Result<VerifyReply>, requested: Option<string>)
    requires payments.Valid()
    modifies payments
    ensures payments.Valid()
    ensures !Truthy(env.stripeSecretKey) ==> requested == None && r == Err(SecretKeyMissing)
    ensures Truthy(env.stripeSecretKey) ==> requested == Some(sessionId)
    ensures var v := Verify(env, sessionId, retrieve(sessionId));
            && r == v.reply
            && payments.rows == old(payments.rows)
                 + (if v.record.Some? then [Stamped(v.record.value, old(payments.clock))] else [])
  {
    if !Truthy(env.stripeSecretKey) {
      return Err(SecretKeyMissing), None;
    }
    requested := Some(sessionId);
    match retrieve(sessionId) {
      case Err(_) =>
        r := Err(VerifyFailed);
      case Ok(session) =>
        if session.paymentStatus == "paid" {
          RecordPayment(payments, sessionId, OrElse(session.customerEmail, ""), OrElse(session.serviceName, ""),
                        AmountOrZero(session.amountTotal), session.paymentStatus);
          r := Ok(Verified(session.customerEmail, session.serviceName, session.amountTotal));
        } else {
          r := Ok(NotVerified);
        }
    }
  }
}
