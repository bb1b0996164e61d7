/** The Stripe adapter: request shaping, response reshaping and the
    minor-unit amount encoding. Calls into the Stripe SDK are the oracles of
    a `StripeSdk` record. */
module StripeGateway {
  import opened Text
  import opened GatewayContract

  /** Currencies Stripe counts in whole units. */
  const ZeroDecimal: seq<string> :=
    ["jpy", "bif", "clp", "djf", "gnf", "kmf", "krw", "mga",
     "pyg", "rwf", "ugx", "vnd", "vuv", "xaf", "xof", "xpf"]

  /** getCurrencyMultiplier: 1 for the zero-decimal list, 100 otherwise,
      compared on the lowercased code. */
  function Multiplier(currency: string): (m: int)
    ensures m == 1 <==> Lower(currency) in ZeroDecimal
    ensures m == 1 || m == 100
  {
    if Lower(currency) in ZeroDecimal then 1 else 100
  }

  /** `Math.round`: the nearest integer, halves rounded up. */
  function Round(x: real): (k: int)
    ensures -0.5 < k as real - x <= 0.5
  {
    (x + 0.5).Floor
  }

  /** formatAmount: the amount in the currency's smallest unit, off by at
      most half a unit. */
  function FormatAmount(amount: real, currency: string): (units: int)
    ensures var m := Multiplier(currency) as real;
            -0.5 < units as real - amount * m <= 0.5
  {
    Round(amount * Multiplier(currency) as real)
  }

  /** unformatAmount */
  function UnformatAmount(units: int, currency: string): real {
    units as real / Multiplier(currency) as real
  }

  /** An amount that is a whole number of minor units survives the encoding. */
  lemma UnformatFormat(amount: real, currency: string)
    requires var x := amount * Multiplier(currency) as real; x.Floor as real == x
    ensures UnformatAmount(FormatAmount(amount, currency), currency) == amount
  {
    var m := Multiplier(currency) as real;
    var x := amount * m;
    assert (x + 0.5).Floor == x.Floor;
    assert FormatAmount(amount, currency) as real == x;
  }

  /** Every integer count of minor units survives decoding and re-encoding. */
  lemma FormatUnformat(units: int, currency: string)
    ensures FormatAmount(UnformatAmount(units, currency), currency) == units
  {
    var m := Multiplier(currency) as real;
    assert UnformatAmount(units, currency) * m == units as real;
    assert (units as real + 0.5).Floor == units;
  }

  /** Lowercasing twice is lowercasing once. */
  lemma LowerIdempotent(s: string)
    ensures Lower(Lower(s)) == Lower(s)
  {
    assert forall i :: 0 <= i < |s| ==> Lower(Lower(s))[i] == Lower(s)[i];
  }

  /** The body of `stripe.paymentIntents.create`. */
  datatype IntentRequest = IntentRequest(
    amount: int,
    currency: string,
    description: string,
    metadata: Metadata,
    customer: Option<string>,
    automaticPaymentMethods: bool)

  /** The request createPaymentIntent sends: the amount in minor units of
      the payment's currency, the code lowercased, automatic payment methods on. */
  function IntentRequestFor(d: PaymentData): (r: IntentRequest)
    ensures r.currency == Lower(d.currency)
    ensures forall i :: 0 <= i < |r.currency| ==> !('A' <= r.currency[i] <= 'Z')
    ensures Multiplier(r.currency) == Multiplier(d.currency)
    ensures r.amount == FormatAmount(d.amount, d.currency)
    ensures r.description == d.description && r.metadata == d.metadata && r.customer == d.customerId
    ensures r.automaticPaymentMethods
  {
    LowerIdempotent(d.currency);
    IntentRequest(FormatAmount(d.amount, d.currency), Lower(d.currency),
                  d.description, d.metadata, d.customerId, true)
  }

  /** The intent is created for exactly the amount asked for, whenever that
      amount is a whole number of the currency's minor units. */
  lemma IntentRequestAmount(d: PaymentData)
    requires var x := d.amount * Multiplier(d.currency) as real; x.Floor as real == x
    ensures var r := IntentRequestFor(d); UnformatAmount(r.amount, r.currency) == d.amount
  {
    UnformatFormat(d.amount, d.currency);
  }

  /** The body of `stripe.paymentIntents.capture`: `{}` or `{amount}`. */
  datatype CaptureRequest = CaptureRequest(amount: Option<int>)

  /** capturePayment's request: a truthy amount is encoded on the 'usd' scale. */
  function CaptureRequestFor(amount: Option<real>): (r: CaptureRequest)
    ensures r.amount.Some? <==> AmountGiven(amount)
    ensures r.amount.Some? ==> r.amount.value == FormatAmount(amount.value, "usd")
  {
    if AmountGiven(amount) then CaptureRequest(Some(FormatAmount(amount.value, "usd"))) else CaptureRequest(None)
  }

  /** The body of `stripe.refunds.create`. */
  datatype RefundRequest = RefundRequest(paymentIntent: string, reason: string, amount: Option<int>)

  /** refundPayment's request: reason defaults to 'requested_by_customer'; the
      amount is left out (a full refund) unless truthy, and then encoded on
      the 'usd' scale. */
  function RefundRequestFor(paymentId: string, amount: Option<real>, reason: Option<string>): (r: RefundRequest)
    ensures r.paymentIntent == paymentId
    ensures r.reason == if Truthy(reason) then reason.value else "requested_by_customer"
    ensures r.amount.Some? <==> AmountGiven(amount)
    ensures r.amount.Some? ==> r.amount.value == FormatAmount(amount.value, "usd")
  {
    RefundRequest(paymentId, OrElse(reason, "requested_by_customer"),
                  if AmountGiven(amount) then Some(FormatAmount(amount.value, "usd")) else None)
  }

  /** An explicit capture or refund amount is scaled by 100 even for a
      zero-decimal currency: 500 yen are sent as 50000 units. */
  lemma CaptureIgnoresCurrency()
    ensures Multiplier("JPY") == 1
    ensures CaptureRequestFor(Some(500.0)).amount == Some(50000)
    ensures RefundRequestFor("pi", Some(500.0), None).amount == Some(50000)
  {
    assert Lower("JPY") == "jpy";
    assert Lower("usd") == "usd";
    assert "usd" !in ZeroDecimal;
    assert Multiplier("usd") == 100;
    assert (50000.0 + 0.5).Floor == 50000;
  }

  /** A Stripe PaymentIntent as the SDK returns it (amount in minor units). */
  datatype Intent = Intent(
    id: string,
    clientSecret: Option<string>,
    amount: int,
    currency: string,
    status: string,
    metadata: Metadata)

  /** A Stripe Refund as the SDK returns it. */
  datatype RefundObject = RefundObject(id: string, amount: int, currency: string, status: string, reason: Option<string>)

  /** The Stripe SDK calls the adapter makes, and its webhook secret. */
  datatype StripeSdk = StripeSdk(
    create: IntentRequest -> SdkOutcome<Intent>,
    confirm: (string, Option<ConfirmationData>) -> SdkOutcome<Intent>,
    capture: (string, CaptureRequest) -> SdkOutcome<Intent>,
    refund: RefundRequest -> SdkOutcome<RefundObject>,
    retrieve: string -> SdkOutcome<Intent>,
    constructEvent: (string, Option<string>, Option<string>) -> SdkOutcome<Event>,
    webhookSecret: Option<string>)

  function CreateReply(pi: Intent): Reply {
    Reply(pi.id, pi.clientSecret, Some(pi.amount as real), Some(pi.currency), pi.status, Some(pi.metadata), None)
  }

  function IntentReply(pi: Intent): Reply {
    Reply(pi.id, None, Some(pi.amount as real), Some(pi.currency), pi.status, Some(pi.metadata), None)
  }

  function CaptureReply(pi: Intent): Reply {
    Reply(pi.id, None, Some(pi.amount as real), Some(pi.currency), pi.status, None, None)
  }

  function RefundReply(re: RefundObject): Reply {
    Reply(re.id, None, Some(re.amount as real), Some(re.currency), re.status, None, re.reason)
  }

  /** createPaymentIntent */
  function CreatePaymentIntent(sdk: StripeSdk, d: PaymentData): (r: GatewayResult)
    ensures r.Failure? <==> sdk.create(IntentRequestFor(d)).Threw?
    ensures r.Success? ==> r.reply.id == sdk.create(IntentRequestFor(d)).value.id
  {
    Reshape(sdk.create(IntentRequestFor(d)), CreateReply)
  }

  /** confirmPayment: the confirmation data is passed to the SDK untouched. */
  function ConfirmPayment(sdk: StripeSdk, paymentId: string, cd: Option<ConfirmationData>): (r: GatewayResult)
    ensures r.Failure? <==> sdk.confirm(paymentId, cd).Threw?
  {
    Reshape(sdk.confirm(paymentId, cd), IntentReply)
  }

  /** capturePayment */
  function CapturePayment(sdk: StripeSdk, paymentId: string, amount: Option<real>): (r: GatewayResult)
    ensures r.Failure? <==> sdk.capture(paymentId, CaptureRequestFor(amount)).Threw?
  {
    Reshape(sdk.capture(paymentId, CaptureRequestFor(amount)), CaptureReply)
  }

  /** refundPayment */
  function RefundPayment(sdk: StripeSdk, paymentId: string, amount: Option<real>, reason: Option<string>): (r: GatewayResult)
    ensures r.Failure? <==> sdk.refund(RefundRequestFor(paymentId, amount, reason)).Threw?
  {
    Reshape(sdk.refund(RefundRequestFor(paymentId, amount, reason)), RefundReply)
  }

  /** getPaymentStatus */
  function GetPaymentStatus(sdk: StripeSdk, paymentId: string): (r: GatewayResult)
    ensures r.Failure? <==> sdk.retrieve(paymentId).Threw?
  {
    Reshape(sdk.retrieve(paymentId), IntentReply)
  }

  /** validateWebhook: valid exactly when the SDK builds the event from the
      payload, the signature and the configured webhook secret. */
  function ValidateWebhook(sdk: StripeSdk, payload: string, signature: Option<string>): (r: WebhookResult)
    ensures var o := sdk.constructEvent(payload, signature, sdk.webhookSecret);
            (r.Valid? <==> o.Returned?) && (r.Valid? ==> r.event == o.value)
            && (r.Invalid? ==> r.error == o.message)
  {
    match sdk.constructEvent(payload, signature, sdk.webhookSecret)
    case Returned(e) => Valid(e)
    case Threw(m, _) => Invalid(m)
  }

  /** getSupportedCurrencies */
  const Currencies: seq<string> :=
    ["usd", "eur", "gbp", "cad", "aud", "jpy", "chf", "sek", "nok", "dkk",
     "pln", "czk", "huf", "ron", "bgn", "hrk", "rub", "try", "brl", "mxn",
     "ars", "clp", "cop", "pen", "uyu", "inr", "sgd", "hkd", "twd", "krw",
     "thb", "myr", "idr", "php", "vnd", "ngn", "zar", "egp", "mad", "aed"]

  /** getSupportedPaymentMethods */
  const PaymentMethods: seq<string> :=
    ["card", "bank_transfer", "sepa_debit", "sofort", "ideal", "bancontact",
     "eps", "giropay", "p24", "alipay", "wechat_pay", "afterpay_clearpay"]
}
