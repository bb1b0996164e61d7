/** The shape every payment gateway adapter shares: what the service hands
    to an adapter and the `{success, ...}` records an adapter hands back. */
module GatewayContract {
  import opened Text

  /** The JSON values that travel in payment metadata. */
  datatype Json = JNull | JBool(b: bool) | JNum(n: real) | JStr(s: string)

  type Metadata = map<string, Json>

  /** The argument of `createPaymentIntent`. */
  datatype PaymentData = PaymentData(
    amount: real,
    currency: string,
    description: string,
    metadata: Metadata,
    customerId: Option<string>)

  /** The `confirmationData` a client may send along with a confirmation. */
  datatype ConfirmationData = ConfirmationData(
    amount: Option<real>,
    currency: Option<string>,
    metadata: Option<Metadata>)

  /** The fields of a successful adapter answer; `id` is the paymentIntentId
      (or the refundId for a refund). Absent fields are `None`. */
  datatype Reply = Reply(
    id: string,
    clientSecret: Option<string>,
    amount: Option<real>,
    currency: Option<string>,
    status: string,
    metadata: Option<Metadata>,
    reason: Option<string>)

  /** `{success: true, ...}` or `{success: false, error, code}`. */
  datatype GatewayResult = Success(reply: Reply) | Failure(error: string, code: Option<string>)

  /** A webhook event as far as the controller looks at it. */
  datatype Event = Event(eventType: string, payload: string)

  /** `{success: true, event}` or `{success: false, error}`. */
  datatype WebhookResult = Valid(event: Event) | Invalid(error: string)

  /** What a call into vendor code does: returns a value or throws. */
  datatype SdkOutcome<T> = Returned(value: T) | Threw(message: string, code: Option<string>)

  /** JavaScript truthiness of an optional amount: `undefined` and 0 are falsy. */
  predicate AmountGiven(a: Option<real>) {
    a.Some? && a.value != 0.0
  }

  /** The try/catch every adapter method wraps around its vendor call: a
      thrown error becomes `{success: false, error, code}`, nothing escapes. */
  function Reshape<T>(o: SdkOutcome<T>, toReply: T -> Reply): (r: GatewayResult)
    ensures r.Failure? <==> o.Threw?
    ensures o.Threw? ==> r.error == o.message && r.code == o.code
    ensures o.Returned? ==> r.reply == toReply(o.value)
  {
    match o
    case Returned(v) => Success(toReply(v))
    case Threw(m, c) => Failure(m, c)
  }
}
