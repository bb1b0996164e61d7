/** The two gateway adapters behind one interface: a `Gateway` value picks
    the adapter, and the vendor code the adapters call is gathered in one
    `Vendors` record of oracles. */
module Gateways {
  import opened Text
  import opened GatewayContract
  import StripeGateway
  import PayPalGateway

  datatype Gateway = Stripe | PayPal

  /** `gateway.constructor.name` */
  function ClassName(g: Gateway): string {
    match g
    case Stripe => "StripeGateway"
    case PayPal => "PayPalGateway"
  }

  /** The name the service records for a payment made through `g`. */
  function RecordedName(g: Gateway): string {
    match g
    case Stripe => "stripe"
    case PayPal => "paypal"
  }

  /** The recorded name is what the service derives from the adapter's class:
      `constructor.name.toLowerCase().replace('gateway', '')`. */
  lemma RecordedNameDerivation(g: Gateway)
    ensures RecordedName(g) == ReplaceFirst(Lower(ClassName(g)), "gateway", "")
  {
    LowerClassName(g);
    ReplaceAfterWord(RecordedName(g), "gateway", "", "");
    assert RecordedName(g) + "gateway" + "" == Lower(ClassName(g));
    assert RecordedName(g) + "" + "" == RecordedName(g);
  }

  lemma LowerClassName(g: Gateway)
    ensures Lower(ClassName(g)) == (if g == Stripe then "stripegateway" else "paypalgateway")
  {
    var c := ClassName(g);
    var l := if g == Stripe then "stripegateway" else "paypalgateway";
    assert forall i :: 0 <= i < |c| ==> LowerChar(c[i]) == l[i];
  }

  /** The recorded names tell the gateways apart. */
  lemma RecordedNameInjective(g1: Gateway, g2: Gateway)
    requires RecordedName(g1) == RecordedName(g2)
    ensures g1 == g2
  {
    assert RecordedName(g1)[0] == RecordedName(g2)[0];
  }

  /** Everything outside this code that an adapter calls: the Stripe SDK,
      `Date.now()` for PayPal's invented ids and `JSON.parse`. */
  datatype Vendors = Vendors(
    stripe: StripeGateway.StripeSdk,
    clock: nat,
    parse: string -> Result<Event>)

  function CreatePaymentIntent(v: Vendors, g: Gateway, d: PaymentData): GatewayResult {
    match g
    case Stripe => StripeGateway.CreatePaymentIntent(v.stripe, d)
    case PayPal => PayPalGateway.CreatePaymentIntent(d, v.clock)
  }

  function ConfirmPayment(v: Vendors, g: Gateway, id: string, cd: Option<ConfirmationData>): GatewayResult {
    match g
    case Stripe => StripeGateway.ConfirmPayment(v.stripe, id, cd)
    case PayPal => PayPalGateway.ConfirmPayment(id, cd)
  }

  function RefundPayment(v: Vendors, g: Gateway, id: string, amount: Option<real>, reason: Option<string>): GatewayResult {
    match g
    case Stripe => StripeGateway.RefundPayment(v.stripe, id, amount, reason)
    case PayPal => PayPalGateway.RefundPayment(id, amount, reason, v.clock)
  }

  function GetPaymentStatus(v: Vendors, g: Gateway, id: string): GatewayResult {
    match g
    case Stripe => StripeGateway.GetPaymentStatus(v.stripe, id)
    case PayPal => PayPalGateway.GetPaymentStatus(id)
  }

  function ValidateWebhook(v: Vendors, g: Gateway, payload: string, signature: Option<string>): WebhookResult {
    match g
    case Stripe => StripeGateway.ValidateWebhook(v.stripe, payload, signature)
    case PayPal => PayPalGateway.ValidateWebhook(payload, signature, v.parse)
  }

  function SupportedCurrencies(g: Gateway): seq<string> {
    match g
    case Stripe => StripeGateway.Currencies
    case PayPal => PayPalGateway.Currencies
  }

  function SupportedMethods(g: Gateway): seq<string> {
    match g
    case Stripe => StripeGateway.PaymentMethods
    case PayPal => PayPalGateway.PaymentMethods
  }
}
