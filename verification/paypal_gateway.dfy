/** The PayPal adapter, which is a mock: every method builds its answer from
    its arguments. `Date.now()` is the `stamp` parameter; `JSON.parse` is the
    `parse` oracle. */
module PayPalGateway {
  import opened Text
  import opened GatewayContract
  import StripeGateway

  const ErrorCode: string := "PAYPAL_ERROR"

  /** The order id the mock invents: `paypal_order_<stamp>`. */
  function OrderId(stamp: nat): string {
    "paypal_order_" + NatToString(stamp)
  }

  /** The refund id the mock invents: `paypal_refund_<stamp>`. */
  function RefundId(stamp: nat): string {
    "paypal_refund_" + NatToString(stamp)
  }

  /** createPaymentIntent: echoes amount, currency and metadata, with status
      'CREATED' and no client secret. */
  function CreatePaymentIntent(d: PaymentData, stamp: nat): (r: GatewayResult)
    ensures r.Success? && r.reply.id == OrderId(stamp)
    ensures r.reply.amount == Some(d.amount) && r.reply.currency == Some(d.currency)
    ensures r.reply.metadata == Some(d.metadata)
    ensures r.reply.status == "CREATED" && r.reply.clientSecret == None
  {
    Success(Reply(OrderId(stamp), None, Some(d.amount), Some(d.currency), "CREATED", Some(d.metadata), None))
  }

  /** confirmPayment: the id passes through and status is 'COMPLETED'; amount,
      currency and metadata come from the confirmation data. Without
      confirmation data, reading `confirmationData.amount` throws a TypeError,
      which the method's catch turns into a failure. */
  function ConfirmPayment(paymentId: string, cd: Option<ConfirmationData>): (r: GatewayResult)
    ensures r.Success? <==> cd.Some?
    ensures r.Failure? ==> r.code == Some(ErrorCode)
    ensures r.Success? ==> r.reply.id == paymentId && r.reply.status == "COMPLETED"
    ensures r.Success? ==> r.reply.amount == cd.value.amount && r.reply.currency == cd.value.currency
                           && r.reply.metadata == cd.value.metadata
  {
    match cd
    case None => Failure("Cannot read properties of undefined (reading 'amount')", Some(ErrorCode))
    case Some(c) => Success(Reply(paymentId, None, c.amount, c.currency, "COMPLETED", c.metadata, None))
  }

  /** capturePayment: echoes the amount, currency always 'USD'. */
  function CapturePayment(paymentId: string, amount: Option<real>): (r: GatewayResult)
    ensures r.Success? && r.reply.id == paymentId && r.reply.amount == amount
    ensures r.reply.currency == Some("USD") && r.reply.status == "COMPLETED"
  {
    Success(Reply(paymentId, None, amount, Some("USD"), "COMPLETED", None, None))
  }

  /** refundPayment: echoes amount and reason, currency always 'USD', status
      'COMPLETED'. */
  function RefundPayment(paymentId: string, amount: Option<real>, reason: Option<string>, stamp: nat): (r: GatewayResult)
    ensures r.Success? && r.reply.id == RefundId(stamp)
    ensures r.reply.amount == amount && r.reply.reason == reason
    ensures r.reply.currency == Some("USD") && r.reply.status == "COMPLETED"
  {
    Success(Reply(RefundId(stamp), None, amount, Some("USD"), "COMPLETED", None, reason))
  }

  /** getPaymentStatus: the same answer for every id. */
  function GetPaymentStatus(paymentId: string): (r: GatewayResult)
    ensures r.Success? && r.reply.id == paymentId
    ensures r.reply.status == "COMPLETED" && r.reply.amount == Some(1000.0) && r.reply.currency == Some("USD")
  {
    Success(Reply(paymentId, None, Some(1000.0), Some("USD"), "COMPLETED", Some(map[]), None))
  }

  /** validateWebhook: the event is the parsed payload; the signature is
      never looked at. */
  function ValidateWebhook(payload: string, signature: Option<string>, parse: string -> Result<Event>): (r: WebhookResult)
    ensures r.Valid? <==> parse(payload).Ok?
    ensures r.Valid? ==> r.event == parse(payload).value
  {
    match parse(payload)
    case Ok(e) => Valid(e)
    case Err(m) => Invalid(m)
  }

  /** Any signature, forged or missing, gets the same verdict. */
  lemma SignatureIgnored(payload: string, s1: Option<string>, s2: Option<string>, parse: string -> Result<Event>)
    ensures ValidateWebhook(payload, s1, parse) == ValidateWebhook(payload, s2, parse)
  {
  }

  /** Distinct timestamps give distinct order and refund ids. */
  lemma IdsDistinct(t1: nat, t2: nat)
    requires t1 != t2
    ensures OrderId(t1) != OrderId(t2) && RefundId(t1) != RefundId(t2)
  {
    NatToStringInjective(t1, t2);
    assert OrderId(t1)[13..] == NatToString(t1) && OrderId(t2)[13..] == NatToString(t2);
    assert RefundId(t1)[14..] == NatToString(t1) && RefundId(t2)[14..] == NatToString(t2);
  }

  lemma {:induction false} NatToStringInjective(a: nat, b: nat)
    requires a != b
    ensures NatToString(a) != NatToString(b)
  {
    var sa, sb := NatToString(a), NatToString(b);
    if a < 10 && b < 10 {
      assert sa[0] == DigitChar(a) && sb[0] == DigitChar(b);
    } else if a >= 10 && b >= 10 {
      if sa == sb {
        assert sa[|sa| - 1] == DigitChar(a % 10) && sb[|sb| - 1] == DigitChar(b % 10);
        assert a % 10 == b % 10;
        assert NatToString(a / 10) == sa[..|sa| - 1] == sb[..|sb| - 1] == NatToString(b / 10);
        NatToStringInjective(a / 10, b / 10);
      }
    } else {
      LengthOfLarge(if a < 10 then b else a);
    }
  }

  lemma LengthOfLarge(n: nat)
    requires n >= 10
    ensures |NatToString(n)| >= 2
  {
  }

  /** getSupportedCurrencies */
  const Currencies: seq<string> :=
    ["USD", "EUR", "GBP", "CAD", "AUD", "JPY", "CHF", "SEK", "NOK", "DKK",
     "PLN", "CZK", "HUF", "RON", "BGN", "HRK", "RUB", "TRY", "BRL", "MXN",
     "ARS", "CLP", "COP", "PEN", "UYU", "INR", "SGD", "HKD", "TWD", "KRW",
     "THB", "MYR", "IDR", "PHP", "VND", "NGN", "ZAR", "EGP", "MAD", "AED"]

  /** getSupportedPaymentMethods */
  const PaymentMethods: seq<string> := ["paypal", "card", "bank_transfer", "venmo", "paylater"]

  /** PayPal supports exactly Stripe's currencies, uppercased, in the same order. */
  lemma CurrenciesMatchStripe()
    ensures |Currencies| == |StripeGateway.Currencies|
    ensures forall i :: 0 <= i < |Currencies| ==> Currencies[i] == Upper(StripeGateway.Currencies[i])
  {
    CurrenciesMatchFrom(0, 40);
  }

  lemma CurrenciesMatchFrom(lo: nat, hi: nat)
    requires lo <= hi <= 40
    ensures forall i :: lo <= i < hi ==> Currencies[i] == Upper(StripeGateway.Currencies[i])
  {
    forall i | lo <= i < hi
      ensures Currencies[i] == Upper(StripeGateway.Currencies[i])
    {
      UpperOfCode(StripeGateway.Currencies[i]);
    }
  }

  lemma UpperOfCode(s: string)
    requires |s| == 3
    ensures Upper(s) == [UpperChar(s[0]), UpperChar(s[1]), UpperChar(s[2])]
  {
  }
}
