/** PaymentController: the guard clauses around the service calls, the
    webhook gate and the history page. Handlers that call a mutating service
    method are methods on the service object; the rest are functions. */
module PaymentController {
  import opened Text
  import opened GatewayContract
  import opened Gateways
  import opened Payments
  import opened AuthMiddleware
  import Seqs

  /** An HTTP answer: status code and `message`. */
  datatype Response = Response(status: int, message: string)

  /** JavaScript truthiness of an optional numeric id: undefined and 0 are falsy. */
  predicate IdGiven(o: Option<int>) {
    o.Some? && o.value != 0
  }

  /** The requester's id as the handlers should read it from `req.user`:
      the `userId` claim the tokens carry. */
  function RequesterId(user: Claims): Option<int> {
    UserIdClaim(user)
  }

  /** The requester's id as the code reads it: `req.user.id`. */
  function RequesterIdAsWritten(user: Claims): Option<int> {
    if "id" in user && user["id"].CNum? then Some(user["id"].n) else None
  }

  /** Tokens carry no `id` claim, so as written the requester is never known,
      while the `userId` claim names the signed-in user. */
  lemma AsWrittenRequesterUnknown(userId: int, email: string, role: string)
    ensures RequesterIdAsWritten(SignedClaims(userId, email, role)) == None
    ensures RequesterId(SignedClaims(userId, email, role)) == Some(userId)
  {
    assert "id" !in SignedClaims(userId, email, role);
  }

  /** `!paymentRecord || paymentRecord.user_id !== userId`, negated: the record
      exists and belongs to the requester (a NULL owner never matches). */
  predicate Owns(rec: Option<PaymentRow>, requester: Option<int>) {
    rec.Some? && requester.Some? && rec.value.userId == requester
  }

  /** As written, no payment is ever the requester's: every confirm, status
      and refund request is answered 404. */
  lemma AsWrittenNeverOwns(rec: Option<PaymentRow>, userId: int, email: string, role: string)
    ensures !Owns(rec, RequesterIdAsWritten(SignedClaims(userId, email, role)))
  {
    AsWrittenRequesterUnknown(userId, email, role);
  }

  const NotFound: Response := Response(404, "Payment not found or unauthorized")

  /** The body of a create-intent request. */
  datatype CreateIntentBody = CreateIntentBody(
    sessionId: Option<int>,
    mentorId: Option<int>,
    amount: Option<real>,
    currency: Option<string>,
    description: Option<string>,
    metadata: Option<Metadata>)

  /** The create-intent guards: a falsy session id, mentor id or amount, then
      a non-positive amount, each answer 400. */
  function CreateIntentCheck(b: CreateIntentBody): (r: Option<Response>)
    ensures r.None? <==> IdGiven(b.sessionId) && IdGiven(b.mentorId) && AmountGiven(b.amount) && b.amount.value > 0.0
    ensures r.Some? ==> r.value.status == 400
    ensures !(IdGiven(b.sessionId) && IdGiven(b.mentorId) && AmountGiven(b.amount)) ==>
              r == Some(Response(400, "Session ID, mentor ID, and amount are required"))
  {
    if !IdGiven(b.sessionId) || !IdGiven(b.mentorId) || !AmountGiven(b.amount) then
      Some(Response(400, "Session ID, mentor ID, and amount are required"))
    else if b.amount.value <= 0.0 then
      Some(Response(400, "Amount must be greater than 0"))
    else None
  }

  /** An amount of 0 is refused as missing; only a negative amount reaches
      the "greater than 0" message. */
  lemma ZeroAmountIsMissing(b: CreateIntentBody)
    requires b.amount == Some(0.0)
    ensures CreateIntentCheck(b) == Some(Response(400, "Session ID, mentor ID, and amount are required"))
  {
  }

  /** The request the controller passes to createSessionPayment. */
  function SessionRequest(b: CreateIntentBody, requester: Option<int>): SessionPaymentRequest
    requires CreateIntentCheck(b).None?
  {
    SessionPaymentRequest(b.sessionId.value, b.mentorId.value, requester, b.amount.value,
                          Some(OrElse(b.currency, "USD")), b.description, b.metadata)
  }

  /** The refund guards: 404 unless the requester owns the payment, then 400
      unless its status is exactly 'completed'. */
  function RefundCheck(rec: Option<PaymentRow>, requester: Option<int>): (r: Option<Response>)
    ensures r.None? <==> Owns(rec, requester) && rec.value.paymentStatus == Completed
    ensures !Owns(rec, requester) ==> r == Some(NotFound)
    ensures Owns(rec, requester) && rec.value.paymentStatus != Completed ==>
              r == Some(Response(400, "Only completed payments can be refunded"))
  {
    if !Owns(rec, requester) then Some(NotFound)
    else if rec.value.paymentStatus != Completed then Some(Response(400, "Only completed payments can be refunded"))
    else None
  }

  /** A refunded payment cannot be refunded again, nor a pending one at all. */
  lemma NoSecondRefund(row: PaymentRow, requester: Option<int>)
    requires row.paymentStatus == Refunded || row.paymentStatus == Pending
    requires Owns(Some(row), requester)
    ensures RefundCheck(Some(row), requester) == Some(Response(400, "Only completed payments can be refunded"))
  {
  }

  /** createPaymentIntent: a refused request changes nothing; an accepted one
      for which the service succeeds adds exactly one pending row, owned by
      the requester, for the requested amount. */
  method CreatePaymentIntent(svc: PaymentService, b: CreateIntentBody, requester: Option<int>, v: Vendors)
    returns (resp: Response)
    requires svc.Valid()
    modifies svc
    ensures svc.Valid()
    ensures CreateIntentCheck(b).Some? ==>
              resp == CreateIntentCheck(b).value && svc.payments == old(svc.payments) && svc.nextId == old(svc.nextId)
    ensures resp.status == 201 || resp.status == 400
    ensures resp.status == 201 <==>
              CreateIntentCheck(b).None? && old(svc.CreateSucceeds(SessionRequest(b, requester), v))
    ensures resp.status == 400 ==> svc.payments == old(svc.payments)
    ensures resp.status == 201 ==>
              CreateIntentCheck(b).None? && old(svc.nextId) !in old(svc.payments)
              && svc.payments.Keys == old(svc.payments.Keys) + {old(svc.nextId)}
              && (forall id :: id in old(svc.payments) ==> svc.payments[id] == old(svc.payments)[id])
              && svc.payments[old(svc.nextId)].paymentStatus == Pending
              && svc.payments[old(svc.nextId)].userId == requester
              && svc.payments[old(svc.nextId)].amount == b.amount.value
    ensures svc.sessions == old(svc.sessions) && svc.registry == old(svc.registry)
  {
    var check := CreateIntentCheck(b);
    if check.Some? {
      return check.value;
    }
    var r := svc.CreateSessionPayment(SessionRequest(b, requester), v);
    if r.Err? {
      return Response(400, r.error);
    }
    resp := Response(201, "Payment intent created successfully");
  }

  /** confirmPayment: 400 without a payment id, 404 unless the requester owns
      the payment (the service is then not called), else the service's answer. */
  method ConfirmPayment(svc: PaymentService, paymentId: Option<int>, cd: Option<ConfirmationData>,
                        requester: Option<int>, v: Vendors) returns (resp: Response)
    requires svc.Valid()
    modifies svc
    ensures svc.Valid()
    ensures !IdGiven(paymentId) ==> resp == Response(400, "Payment ID is required")
    ensures IdGiven(paymentId) && !Owns(old(svc.Record(paymentId.value)), requester) ==> resp == NotFound
    ensures resp.status != 200 ==> svc.payments == old(svc.payments) && svc.sessions == old(svc.sessions)
    ensures resp.status == 200 <==>
              IdGiven(paymentId) && Owns(old(svc.Record(paymentId.value)), requester)
              && old(svc.ConfirmSucceeds(paymentId.value, cd, v))
    ensures resp.status == 200 ==>
              var row := old(svc.payments)[paymentId.value];
              svc.payments == old(svc.payments)[paymentId.value := row.(paymentStatus := Completed)]
              && svc.sessions == if row.sessionId in old(svc.sessions)
                                 then old(svc.sessions)[row.sessionId := "confirmed"] else old(svc.sessions)
  {
    if !IdGiven(paymentId) {
      return Response(400, "Payment ID is required");
    }
    if !Owns(svc.Record(paymentId.value), requester) {
      return NotFound;
    }
    var r := svc.ConfirmPayment(paymentId.value, cd, v);
    if r.Err? {
      return Response(400, r.error);
    }
    resp := Response(200, "Payment confirmed successfully");
  }

  /** getPaymentStatus: 404 unless the requester owns the payment; writes nothing. */
  method GetPaymentStatus(svc: PaymentService, paymentId: int, requester: Option<int>, v: Vendors)
    returns (resp: Response)
    ensures !Owns(svc.Record(paymentId), requester) ==> resp == NotFound
    ensures Owns(svc.Record(paymentId), requester) ==>
              (resp.status == 200 <==> GatewayForRow(svc.registry, svc.defaultGateway, svc.payments[paymentId]).Ok?)
  {
    if !Owns(svc.Record(paymentId), requester) {
      return NotFound;
    }
    var r := svc.GetPaymentStatus(paymentId, v);
    if r.Err? {
      return Response(400, r.error);
    }
    resp := Response(200, "");
  }

  /** processRefund: the ownership and 'completed' guards decide first; only
      a payment that passes both can change, and then only to 'refunded'. */
  method ProcessRefund(svc: PaymentService, paymentId: int, amount: Option<real>, reason: Option<string>,
                       requester: Option<int>, v: Vendors) returns (resp: Response)
    requires svc.Valid()
    modifies svc
    ensures svc.Valid()
    ensures RefundCheck(old(svc.Record(paymentId)), requester).Some? ==>
              resp == RefundCheck(old(svc.Record(paymentId)), requester).value
    ensures resp.status != 200 ==> svc.payments == old(svc.payments)
    ensures resp.status == 200 <==>
              RefundCheck(old(svc.Record(paymentId)), requester).None?
              && old(svc.RefundSucceeds(paymentId, amount, reason, v))
    ensures resp.status == 200 ==>
              RefundCheck(old(svc.Record(paymentId)), requester).None?
              && svc.payments == old(svc.payments)[paymentId := old(svc.payments)[paymentId].(paymentStatus := Refunded)]
    ensures svc.sessions == old(svc.sessions)
  {
    var check := RefundCheck(svc.Record(paymentId), requester);
    if check.Some? {
      return check.value;
    }
    var r := svc.ProcessRefund(paymentId, amount, reason, v);
    if r.Err? {
      return Response(400, r.error);
    }
    resp := Response(200, "Refund processed successfully");
  }

  /** Which service handler a webhook event type is dispatched to. */
  datatype Handler = PaymentHandler | RefundHandler | NoHandler

  /** The switch on `event.type`. */
  function Classify(eventType: string): (h: Handler)
    ensures h == PaymentHandler <==>
              eventType == "payment_intent.succeeded" || eventType == "payment_intent.payment_failed"
    ensures h == RefundHandler <==> eventType == "charge.refunded"
  {
    if eventType == "payment_intent.succeeded" || eventType == "payment_intent.payment_failed" then PaymentHandler
    else if eventType == "charge.refunded" then RefundHandler
    else NoHandler
  }

  /** `headers['stripe-signature'] || headers['paypal-signature']` */
  function SelectSignature(stripeSig: Option<string>, paypalSig: Option<string>): (s: Option<string>)
    ensures Truthy(stripeSig) ==> s == stripeSig
    ensures !Truthy(stripeSig) ==> s == paypalSig
  {
    if Truthy(stripeSig) then stripeSig else paypalSig
  }

  /** handleWebhook. An unknown gateway throws (500); a failed validation is
      400 and dispatches nothing; an unrecognised event is logged and
      answered 200. The two handlers the switch calls are not defined on the
      service, so a recognised event throws a TypeError and ends in 500. */
  function HandleWebhook(svc: PaymentService, gateway: Option<string>, payload: string,
                         stripeSig: Option<string>, paypalSig: Option<string>, v: Vendors): (resp: Response)
    reads svc
    ensures var g := GetGateway(svc.registry, svc.defaultGateway, gateway);
            (g.Err? ==> resp.status == 500)
            && (g.Ok? ==>
                  var val := Gateways.ValidateWebhook(v, g.value, payload, SelectSignature(stripeSig, paypalSig));
                  (val.Invalid? ==> resp == Response(400, "Invalid webhook signature"))
                  && (val.Valid? ==> (resp.status == 200 <==> Classify(val.event.eventType) == NoHandler)
                                     && (resp.status != 200 ==> resp.status == 500)))
  {
    match GetGateway(svc.registry, svc.defaultGateway, gateway)
    case Err(_) => Response(500, "Failed to process webhook")
    case Ok(g) =>
      match Gateways.ValidateWebhook(v, g, payload, SelectSignature(stripeSig, paypalSig))
      case Invalid(_) => Response(400, "Invalid webhook signature")
      case Valid(e) =>
        if Classify(e.eventType) == NoHandler then Response(200, "Webhook processed successfully")
        else Response(500, "Failed to process webhook")
  }

  /** A PayPal webhook is accepted with any signature at all, as long as
      its payload parses. */
  lemma PayPalWebhookUnsigned(svc: PaymentService, payload: string, s1: Option<string>, s2: Option<string>, v: Vendors)
    requires GetGateway(svc.registry, svc.defaultGateway, Some("paypal")) == Ok(PayPal)
    ensures HandleWebhook(svc, Some("paypal"), payload, s1, None, v)
            == HandleWebhook(svc, Some("paypal"), payload, s2, None, v)
  {
  }

  /** A destructuring default: `{ page = 1 } = req.query` replaces only an
      absent value. */
  function Given(o: Option<int>, d: int): int {
    if o.Some? then o.value else d
  }

  /** `offset = (page - 1) * limit` with page defaulting to 1 and limit to
      10: the first page starts at 0 and each page starts where the one
      before it ends. */
  function HistoryOffset(page: Option<int>, limit: Option<int>): (off: int)
    ensures page.None? || page == Some(1) ==> off == 0
    ensures page.Some? ==> off + Given(limit, 10) == (page.value + 1 - 1) * Given(limit, 10)
  {
    (Given(page, 1) - 1) * Given(limit, 10)
  }

  /** The requester's payments, newest first, before LIMIT/OFFSET. */
  function Mine(table: seq<PaymentRow>, requester: Option<int>): seq<PaymentRow> {
    Seqs.Filter(table, (row: PaymentRow) => requester.Some? && row.userId == requester)
  }

  datatype HistoryPage = HistoryPage(rows: seq<PaymentRow>, page: int, limit: int, total: int)

  /** getPaymentHistory over the payments table in newest-first order: the
      page is the `limit` of the requester's rows that follow the first
      `offset` of them; `total` is the size of the page, not the number of
      the requester's payments. A negative OFFSET or LIMIT is a database
      error (500). */
  function PaymentHistory(table: seq<PaymentRow>, requester: Option<int>, page: Option<int>, limit: Option<int>)
    : (r: Result<HistoryPage>)
    ensures var off := HistoryOffset(page, limit);
            var l := Given(limit, 10);
            var mine := Mine(table, requester);
            (r.Ok? <==> off >= 0 && l >= 0)
            && (r.Ok? ==>
                  r.value.page == Given(page, 1) && r.value.limit == l && r.value.total == |r.value.rows|
                  && |r.value.rows| == (if off >= |mine| then 0 else if |mine| - off < l then |mine| - off else l)
                  && (forall i :: 0 <= i < |r.value.rows| ==> r.value.rows[i] == mine[off + i])
                  && (forall row :: row in r.value.rows ==> row in table && row.userId == requester && requester.Some?))
  {
    var l := Given(limit, 10);
    var off := HistoryOffset(page, limit);
    if off < 0 || l < 0 then Err("Failed to get payment history")
    else
      var mine := Mine(table, requester);
      var rest := if off <= |mine| then mine[off..] else [];
      var rows := Seqs.Take(rest, l);
      assert forall row :: row in rows ==> row in rest;
      assert forall row :: row in rest ==> row in mine;
      Ok(HistoryPage(rows, Given(page, 1), l, |rows|))
  }

  /** With no query parameters the first ten of the requester's payments are
      returned. */
  lemma HistoryDefaults(table: seq<PaymentRow>, requester: Option<int>)
    ensures HistoryOffset(None, None) == 0
    ensures PaymentHistory(table, requester, None, None).Ok?
    ensures PaymentHistory(table, requester, None, None).value.page == 1
    ensures PaymentHistory(table, requester, None, None).value.rows == Seqs.Take(Mine(table, requester), 10)
  {
    var rows := PaymentHistory(table, requester, None, None).value.rows;
    assert rows == Seqs.Take(Mine(table, requester), 10);
  }
}
