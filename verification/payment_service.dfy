/** PaymentService: the gateway registry and the payments ledger. The
    `payments` and `sessions` tables are maps the methods update; gateway
    answers come from the `Vendors` oracles. */
module Payments {
  import opened Text
  import opened GatewayContract
  import opened Gateways

  const Pending: string := "pending"
  const Completed: string := "completed"
  const Refunded: string := "refunded"

  /** One entry of the `gateways` Map: the name it is registered under. */
  datatype Entry = Entry(name: string, gateway: Gateway)

  /** The process.env values the service reads when it is built. */
  datatype Config = Config(
    stripeSecretKey: Option<string>,
    stripePublishableKey: Option<string>,
    paypalClientId: Option<string>,
    paypalClientSecret: Option<string>,
    defaultGateway: Option<string>)

  /** initializeGateways: Stripe when its secret key is set, then PayPal when
      both its client id and secret are set; each under its recorded name. */
  function InitialRegistry(c: Config): (r: seq<Entry>)
    ensures Entry("stripe", Stripe) in r <==> Truthy(c.stripeSecretKey)
    ensures Entry("paypal", PayPal) in r <==> Truthy(c.paypalClientId) && Truthy(c.paypalClientSecret)
    ensures WellRegistered(r)
  {
    var withStripe := Truthy(c.stripeSecretKey);
    var withPayPal := Truthy(c.paypalClientId) && Truthy(c.paypalClientSecret);
    assert "stripe"[0] != "paypal"[0];
    if withStripe && withPayPal then [Entry("stripe", Stripe), Entry("paypal", PayPal)]
    else if withStripe then [Entry("stripe", Stripe)]
    else if withPayPal then [Entry("paypal", PayPal)]
    else []
  }

  /** Every gateway sits under the name payments record for it, once. */
  ghost predicate WellRegistered(r: seq<Entry>) {
    (forall e :: e in r ==> e.name == RecordedName(e.gateway))
    && (forall i, j :: 0 <= i < j < |r| ==> r[i].name != r[j].name)
  }

  /** `gateways.get(name)` */
  function Lookup(registry: seq<Entry>, name: string): (r: Option<Gateway>)
    ensures r.Some? ==> Entry(name, r.value) in registry
    ensures r.None? ==> forall e :: e in registry ==> e.name != name
  {
    if registry == [] then None
    else if registry[0].name == name then Some(registry[0].gateway)
    else Lookup(registry[1..], name)
  }

  /** getGateway: the gateway under the given name, or under the default
      name when none (or '') is given; an unknown name is an error. */
  function GetGateway(registry: seq<Entry>, defaultName: string, requested: Option<string>): (r: Result<Gateway>)
    ensures var name := if Truthy(requested) then requested.value else defaultName;
            (r.Ok? <==> exists e :: e in registry && e.name == name)
            && (r.Ok? ==> Entry(name, r.value) in registry)
            && (r.Err? ==> r.error == "Payment gateway '" + name + "' not configured")
  {
    var name := OrElse(requested, defaultName);
    match Lookup(registry, name)
    case Some(g) => Ok(g)
    case None => Err("Payment gateway '" + name + "' not configured")
  }

  /** In a well-formed registry the recorded name of a registered gateway
      leads back to that gateway. */
  lemma RecordedNameFindsGateway(registry: seq<Entry>, defaultName: string, g: Gateway)
    requires WellRegistered(registry)
    requires exists e :: e in registry && e.gateway == g
    ensures GetGateway(registry, defaultName, Some(RecordedName(g))) == Ok(g)
  {
    var r := GetGateway(registry, defaultName, Some(RecordedName(g)));
    assert r.Ok?;
    RecordedNameInjective(r.value, g);
  }

  /** The argument of createSessionPayment. */
  datatype SessionPaymentRequest = SessionPaymentRequest(
    sessionId: int,
    mentorId: int,
    userId: Option<int>,
    amount: real,
    currency: Option<string>,
    description: Option<string>,
    metadata: Option<Metadata>)

  const BookingKeys: set<string> := {"sessionId", "mentorId", "userId", "type"}

  /** `{...metadata, sessionId, mentorId, userId, type: 'session_booking'}`
      (`JNull` stands for an undefined userId). */
  function BookingMetadata(req: SessionPaymentRequest): (m: Metadata)
    ensures m.Keys == (if req.metadata.Some? then req.metadata.value.Keys else {}) + BookingKeys
    ensures m["type"] == JStr("session_booking") && m["sessionId"] == JNum(req.sessionId as real)
    ensures m["mentorId"] == JNum(req.mentorId as real)
    ensures m["userId"] == if req.userId.Some? then JNum(req.userId.value as real) else JNull
    ensures forall k :: req.metadata.Some? && k in req.metadata.value && k !in BookingKeys ==>
              m[k] == req.metadata.value[k]
  {
    var caller := if req.metadata.Some? then req.metadata.value else map[];
    caller["sessionId" := JNum(req.sessionId as real)]
          ["mentorId" := JNum(req.mentorId as real)]
          ["userId" := if req.userId.Some? then JNum(req.userId.value as real) else JNull]
          ["type" := JStr("session_booking")]
  }

  /** The paymentData handed to the gateway. */
  function SessionPaymentData(req: SessionPaymentRequest): PaymentData {
    PaymentData(req.amount,
                if req.currency.Some? then req.currency.value else "USD",
                OrElse(req.description, "Coaching session with mentor"),
                BookingMetadata(req),
                None)
  }

  /** currency defaults to 'USD' only when absent; a falsy description is
      replaced by the stock text; the caller's amount is passed on. */
  lemma SessionPaymentDefaults(req: SessionPaymentRequest)
    ensures req.currency.None? ==> SessionPaymentData(req).currency == "USD"
    ensures req.currency.Some? ==> SessionPaymentData(req).currency == req.currency.value
    ensures !Truthy(req.description) ==> SessionPaymentData(req).description == "Coaching session with mentor"
    ensures SessionPaymentData(req).amount == req.amount
    ensures SessionPaymentData(req).metadata["type"] == JStr("session_booking")
  {
  }

  /** A row of the payments table, one field per column the INSERT fills. */
  datatype PaymentRow = PaymentRow(
    sessionId: int,
    mentorId: int,
    userId: Option<int>,
    amount: real,
    currency: string,
    paymentMethod: string,
    paymentStatus: string,
    transactionId: string,
    metadata: Option<Metadata>)

  /** A column value as `SELECT *` hands it back. */
  datatype Cell = CNull | CNum(n: real) | CStr(s: string) | CJson(m: Option<Metadata>)

  /** `paymentRecord[column]`: undefined for a name that is not a column. */
  function ReadColumn(row: PaymentRow, column: string): Option<Cell> {
    if column == "session_id" then Some(CNum(row.sessionId as real))
    else if column == "mentor_id" then Some(CNum(row.mentorId as real))
    else if column == "user_id" then Some(if row.userId.Some? then CNum(row.userId.value as real) else CNull)
    else if column == "amount" then Some(CNum(row.amount))
    else if column == "currency" then Some(CStr(row.currency))
    else if column == "payment_method" then Some(CStr(row.paymentMethod))
    else if column == "payment_status" then Some(CStr(row.paymentStatus))
    else if column == "transaction_id" then Some(CStr(row.transactionId))
    else if column == "metadata" then Some(CJson(row.metadata))
    else None
  }

  function ColumnText(row: PaymentRow, column: string): Option<string> {
    match ReadColumn(row, column)
    case Some(CStr(s)) => Some(s)
    case _ => None
  }

  /** The gateway a stored payment is served by, as the code reads it:
      `getGateway(paymentRecord.gateway)`. */
  function GatewayForRowAsWritten(registry: seq<Entry>, defaultName: string, row: PaymentRow): (r: Result<Gateway>)
    ensures r.Ok? <==> exists e :: e in registry && e.name == defaultName
    ensures r.Ok? ==> Entry(defaultName, r.value) in registry
  {
    GetGateway(registry, defaultName, ColumnText(row, "gateway"))
  }

  /** The gateway payment id as the code reads it: `paymentRecord.gateway_payment_id`. */
  function GatewayIdAsWritten(row: PaymentRow): Option<string> {
    ColumnText(row, "gateway_payment_id")
  }

  /** As written, neither column exists: every stored payment is served by
      the default gateway and the gateway is handed an undefined id. */
  lemma AsWrittenIgnoresStoredGateway(registry: seq<Entry>, defaultName: string, row: PaymentRow)
    ensures GatewayForRowAsWritten(registry, defaultName, row) == GetGateway(registry, defaultName, None)
    ensures GatewayIdAsWritten(row) == None
  {
  }

  /** A PayPal payment with Stripe as the default is confirmed through Stripe. */
  lemma AsWrittenMisroutesPayPal(row: PaymentRow)
    requires row.paymentMethod == "paypal"
    ensures var registry := [Entry("stripe", Stripe), Entry("paypal", PayPal)];
            GatewayForRowAsWritten(registry, "stripe", row) == Ok(Stripe)
            && GatewayForRow(registry, "stripe", row) == Ok(PayPal)
  {
  }

  /** The gateway a stored payment is served by, read from the column the
      INSERT actually fills: `payment_method`. */
  function GatewayForRow(registry: seq<Entry>, defaultName: string, row: PaymentRow): (r: Result<Gateway>)
    ensures var name := if row.paymentMethod != "" then row.paymentMethod else defaultName;
            (r.Ok? <==> exists e :: e in registry && e.name == name)
            && (r.Ok? ==> Entry(name, r.value) in registry)
  {
    GetGateway(registry, defaultName, ColumnText(row, "payment_method"))
  }

  /** A payment created through gateway g is served by g again. */
  lemma GatewayForRowFindsCreator(registry: seq<Entry>, defaultName: string, row: PaymentRow, g: Gateway)
    requires WellRegistered(registry)
    requires exists e :: e in registry && e.gateway == g
    requires row.paymentMethod == RecordedName(g)
    ensures GatewayForRow(registry, defaultName, row) == Ok(g)
  {
    assert ColumnText(row, "payment_method") == Some(row.paymentMethod);
    RecordedNameFindsGateway(registry, defaultName, g);
  }

  /** What createSessionPayment reports on success. */
  datatype Created = Created(
    paymentId: int,
    gatewayPaymentId: string,
    clientSecret: Option<string>,
    amount: Option<real>,
    currency: Option<string>,
    status: string,
    gateway: string)

  /** What confirmPayment reports on success. */
  datatype Confirmed = Confirmed(paymentId: int, status: string, amount: Option<real>, currency: Option<string>)

  /** What processRefund reports on success. */
  datatype RefundDone = RefundDone(refundId: string, amount: Option<real>, status: string)

  /** What getPaymentStatus reports; fields the gateway did not supply are None. */
  datatype StatusReport = StatusReport(
    paymentId: int,
    status: Option<string>,
    amount: Option<real>,
    currency: Option<string>,
    gatewayStatus: Option<string>)

  /** One element of getAllGatewayInfo. */
  datatype GatewayInfo = GatewayInfo(
    id: string,
    name: string,
    description: string,
    supportedCurrencies: seq<string>,
    supportedMethods: seq<string>,
    isEnabled: bool,
    publishableKey: Option<string>)

  /** getGatewayCapabilities */
  datatype Capabilities = Capabilities(currencies: seq<string>, paymentMethods: seq<string>, name: Option<string>)

  /** The record getAllGatewayInfo builds for one registry entry. */
  function InfoFor(e: Entry, publishableKey: Option<string>): (info: GatewayInfo)
    ensures info.id == e.name && info.name == Capitalize(e.name)
    ensures info.description == "Accept payments with " + info.name
    ensures info.supportedCurrencies == SupportedCurrencies(e.gateway)
    ensures info.supportedMethods == SupportedMethods(e.gateway)
    ensures info.isEnabled
    ensures info.publishableKey == if e.name == "stripe" then publishableKey else None
  {
    var display := Capitalize(e.name);
    GatewayInfo(e.name, display, "Accept payments with " + display,
                SupportedCurrencies(e.gateway), SupportedMethods(e.gateway), true,
                if e.name == "stripe" then publishableKey else None)
  }

  /** The display names are the registry keys capitalised: "Stripe" and
      "Paypal" (not "PayPal"). */
  lemma DisplayNames(k: Option<string>)
    ensures InfoFor(Entry("stripe", Stripe), k).name == "Stripe"
    ensures InfoFor(Entry("paypal", PayPal), k).name == "Paypal"
    ensures InfoFor(Entry("paypal", PayPal), k).publishableKey == None
  {
  }

  class PaymentService {
    var registry: seq<Entry>
    var defaultGateway: string
    var publishableKey: Option<string>
    var payments: map<int, PaymentRow>
    var sessions: map<int, string>
    var nextId: int

    /** Ids are handed out in increasing order from 1; the registry holds
        each gateway under its recorded name. */
    ghost predicate Valid()
      reads this
    {
      nextId >= 1
      && (forall id :: id in payments ==> 1 <= id < nextId)
      && WellRegistered(registry)
    }

    /** The constructor and initializeGateways; `sessions` is the sessions
        table as it stands. */
    constructor (c: Config, sessionTable: map<int, string>)
      ensures Valid()
      ensures registry == InitialRegistry(c)
      ensures defaultGateway == OrElse(c.defaultGateway, "stripe")
      ensures publishableKey == c.stripePublishableKey
      ensures payments == map[] && sessions == sessionTable && nextId == 1
    {
      registry := InitialRegistry(c);
      defaultGateway := OrElse(c.defaultGateway, "stripe");
      publishableKey := c.stripePublishableKey;
      payments := map[];
      sessions := sessionTable;
      nextId := 1;
    }

    /** getPaymentRecord */
    function Record(paymentId: int): Option<PaymentRow>
      reads this
    {
      if paymentId in payments then Some(payments[paymentId]) else None
    }

    /** The default gateway is configured and creates the intent. */
    predicate CreateSucceeds(req: SessionPaymentRequest, v: Vendors)
      reads this
    {
      var g := GetGateway(registry, defaultGateway, None);
      g.Ok? && Gateways.CreatePaymentIntent(v, g.value, SessionPaymentData(req)).Success?
    }

    /** The payment exists and the gateway it is routed to confirms it. */
    predicate ConfirmSucceeds(paymentId: int, cd: Option<ConfirmationData>, v: Vendors)
      reads this
    {
      paymentId in payments
      && var g := GatewayForRow(registry, defaultGateway, payments[paymentId]);
         g.Ok? && Gateways.ConfirmPayment(v, g.value, payments[paymentId].transactionId, cd).Success?
    }

    /** The payment exists and the gateway it is routed to refunds it. */
    predicate RefundSucceeds(paymentId: int, amount: Option<real>, reason: Option<string>, v: Vendors)
      reads this
    {
      paymentId in payments
      && var g := GatewayForRow(registry, defaultGateway, payments[paymentId]);
         g.Ok? && Gateways.RefundPayment(v, g.value, payments[paymentId].transactionId, amount, reason).Success?
    }

    /** createSessionPayment: the default gateway is asked to create an
        intent; only when it succeeds is exactly one 'pending' row added,
        under a fresh id. */
    method CreateSessionPayment(req: SessionPaymentRequest, v: Vendors) returns (r: Result<Created>)
      requires Valid()
      modifies this
      ensures Valid()
      ensures registry == old(registry) && defaultGateway == old(defaultGateway)
      ensures publishableKey == old(publishableKey) && sessions == old(sessions)
      ensures var g := GetGateway(registry, defaultGateway, None);
              g.Err? ==> r == Err(g.error)
      ensures var g := GetGateway(registry, defaultGateway, None);
              g.Ok? ==>
                var res := Gateways.CreatePaymentIntent(v, g.value, SessionPaymentData(req));
                (res.Failure? ==> r == Err(res.error))
                && (res.Success? ==>
                      r.Ok? && r.value.paymentId == old(nextId)
                      && r.value.gatewayPaymentId == res.reply.id
                      && r.value.gateway == RecordedName(g.value)
                      && payments == old(payments)[old(nextId) :=
                           PaymentRow(req.sessionId, req.mentorId, req.userId, req.amount,
                                      SessionPaymentData(req).currency, RecordedName(g.value),
                                      Pending, res.reply.id, res.reply.metadata)])
      ensures r.Err? ==> payments == old(payments) && nextId == old(nextId)
      ensures r.Ok? ==> old(nextId) !in old(payments) && nextId == old(nextId) + 1
    {
      var g := GetGateway(registry, defaultGateway, None);
      if g.Err? {
        return Err(g.error);
      }
      var data := SessionPaymentData(req);
      var res := Gateways.CreatePaymentIntent(v, g.value, data);
      if res.Failure? {
        return Err(res.error);
      }
      var id := CreatePaymentRecord(
        PaymentRow(req.sessionId, req.mentorId, req.userId, req.amount, data.currency,
                   RecordedName(g.value), Pending, res.reply.id, res.reply.metadata));
      r := Ok(Created(id, res.reply.id, res.reply.clientSecret, res.reply.amount,
                      res.reply.currency, res.reply.status, RecordedName(g.value)));
    }

    /** createPaymentRecord: INSERT ... RETURNING id. */
    method CreatePaymentRecord(row: PaymentRow) returns (id: int)
      requires Valid()
      modifies this
      ensures Valid()
      ensures id == old(nextId) && id !in old(payments)
      ensures payments == old(payments)[id := row] && nextId == old(nextId) + 1
      ensures registry == old(registry) && defaultGateway == old(defaultGateway)
      ensures publishableKey == old(publishableKey) && sessions == old(sessions)
    {
      id := nextId;
      payments := payments[id := row];
      nextId := nextId + 1;
    }

    /** updatePaymentStatus / createRefundRecord: UPDATE payments SET
        payment_status WHERE id; no row, no change. */
    method UpdatePaymentStatus(paymentId: int, status: string)
      requires Valid()
      modifies this
      ensures Valid()
      ensures paymentId in old(payments) ==>
                payments == old(payments)[paymentId := old(payments)[paymentId].(paymentStatus := status)]
      ensures paymentId !in old(payments) ==> payments == old(payments)
      ensures registry == old(registry) && defaultGateway == old(defaultGateway) && nextId == old(nextId)
      ensures publishableKey == old(publishableKey) && sessions == old(sessions)
    {
      if paymentId in payments {
        payments := payments[paymentId := payments[paymentId].(paymentStatus := status)];
      }
    }

    /** updateSessionStatus: UPDATE sessions SET status WHERE id. */
    method UpdateSessionStatus(sessionId: int, status: string)
      requires Valid()
      modifies this
      ensures Valid()
      ensures sessions == if sessionId in old(sessions) then old(sessions)[sessionId := status] else old(sessions)
      ensures registry == old(registry) && defaultGateway == old(defaultGateway) && nextId == old(nextId)
      ensures publishableKey == old(publishableKey) && payments == old(payments)
    {
      if sessionId in sessions {
        sessions := sessions[sessionId := status];
      }
    }

    /** confirmPayment: on success the row becomes 'completed' whatever its
        status was, and its session 'confirmed'; on any failure nothing changes. */
    method ConfirmPayment(paymentId: int, cd: Option<ConfirmationData>, v: Vendors) returns (r: Result<Confirmed>)
      requires Valid()
      modifies this
      ensures Valid()
      ensures registry == old(registry) && defaultGateway == old(defaultGateway)
      ensures publishableKey == old(publishableKey) && nextId == old(nextId)
      ensures paymentId !in old(payments) ==> r == Err("Payment record not found")
      ensures r.Err? ==> payments == old(payments) && sessions == old(sessions)
      ensures paymentId in old(payments) ==>
                var row := old(payments)[paymentId];
                var g := GatewayForRow(registry, defaultGateway, row);
                (g.Err? ==> r == Err(g.error))
                && (g.Ok? ==>
                  var res := Gateways.ConfirmPayment(v, g.value, row.transactionId, cd);
                  (res.Failure? ==> r == Err(res.error))
                  && (res.Success? ==>
                        r == Ok(Confirmed(paymentId, Completed, res.reply.amount, res.reply.currency))
                        && payments == old(payments)[paymentId := row.(paymentStatus := Completed)]
                        && sessions == if row.sessionId in old(sessions)
                                       then old(sessions)[row.sessionId := "confirmed"] else old(sessions)))
    {
      if paymentId !in payments {
        return Err("Payment record not found");
      }
      var row := payments[paymentId];
      var g := GatewayForRow(registry, defaultGateway, row);
      if g.Err? {
        return Err(g.error);
      }
      var res := Gateways.ConfirmPayment(v, g.value, row.transactionId, cd);
      if res.Failure? {
        return Err(res.error);
      }
      UpdatePaymentStatus(paymentId, Completed);
      UpdateSessionStatus(row.sessionId, "confirmed");
      r := Ok(Confirmed(paymentId, Completed, res.reply.amount, res.reply.currency));
    }

    /** processRefund: on success the row becomes 'refunded', even when only
        part of the amount was refunded; on any failure nothing changes. */
    method ProcessRefund(paymentId: int, amount: Option<real>, reason: Option<string>, v: Vendors)
      returns (r: Result<RefundDone>)
      requires Valid()
      modifies this
      ensures Valid()
      ensures registry == old(registry) && defaultGateway == old(defaultGateway)
      ensures publishableKey == old(publishableKey) && nextId == old(nextId) && sessions == old(sessions)
      ensures paymentId !in old(payments) ==> r == Err("Payment record not found")
      ensures r.Err? ==> payments == old(payments)
      ensures paymentId in old(payments) ==>
                var row := old(payments)[paymentId];
                var g := GatewayForRow(registry, defaultGateway, row);
                (g.Err? ==> r == Err(g.error))
                && (g.Ok? ==>
                  var res := Gateways.RefundPayment(v, g.value, row.transactionId, amount, reason);
                  (res.Failure? ==> r == Err(res.error))
                  && (res.Success? ==>
                        r == Ok(RefundDone(res.reply.id, res.reply.amount, res.reply.status))
                        && payments == old(payments)[paymentId := row.(paymentStatus := Refunded)]))
    {
      if paymentId !in payments {
        return Err("Payment record not found");
      }
      var row := payments[paymentId];
      var g := GatewayForRow(registry, defaultGateway, row);
      if g.Err? {
        return Err(g.error);
      }
      var res := Gateways.RefundPayment(v, g.value, row.transactionId, amount, reason);
      if res.Failure? {
        return Err(res.error);
      }
      UpdatePaymentStatus(paymentId, Refunded);
      r := Ok(RefundDone(res.reply.id, res.reply.amount, res.reply.status));
    }

    /** getPaymentStatus: writes nothing, and reports success even when the
        gateway's own answer is a failure (its fields are then absent). */
    method GetPaymentStatus(paymentId: int, v: Vendors) returns (r: Result<StatusReport>)
      ensures paymentId !in payments ==> r == Err("Payment record not found")
      ensures paymentId in payments ==>
                var g := GatewayForRow(registry, defaultGateway, payments[paymentId]);
                (r.Ok? <==> g.Ok?) && (g.Err? ==> r == Err(g.error))
                && (g.Ok? ==>
                  var res := Gateways.GetPaymentStatus(v, g.value, payments[paymentId].transactionId);
                  r.value.paymentId == paymentId
                  && (res.Success? ==> r.value.status == Some(res.reply.status)
                                       && r.value.gatewayStatus == Some(res.reply.status)
                                       && r.value.amount == res.reply.amount
                                       && r.value.currency == res.reply.currency)
                  && (res.Failure? ==> r.value.status.None? && r.value.amount.None?))
    {
      if paymentId !in payments {
        return Err("Payment record not found");
      }
      var row := payments[paymentId];
      var g := GatewayForRow(registry, defaultGateway, row);
      if g.Err? {
        return Err(g.error);
      }
      var res := Gateways.GetPaymentStatus(v, g.value, row.transactionId);
      if res.Success? {
        r := Ok(StatusReport(paymentId, Some(res.reply.status), res.reply.amount, res.reply.currency, Some(res.reply.status)));
      } else {
        r := Ok(StatusReport(paymentId, None, None, None, None));
      }
    }

    /** getAvailableGateways: the registered names in registration order. */
    function AvailableGateways(): (names: seq<string>)
      reads this
      ensures |names| == |registry|
      ensures forall i :: 0 <= i < |registry| ==> names[i] == registry[i].name
    {
      seq(|registry|, i reads this requires 0 <= i < |registry| => registry[i].name)
    }

    /** getGatewayCapabilities */
    function GatewayCapabilities(name: Option<string>): (r: Result<Capabilities>)
      reads this
      ensures var g := GetGateway(registry, defaultGateway, name);
              (r.Ok? <==> g.Ok?)
              && (r.Ok? ==> r.value == Capabilities(SupportedCurrencies(g.value), SupportedMethods(g.value), name))
    {
      match GetGateway(registry, defaultGateway, name)
      case Ok(g) => Ok(Capabilities(SupportedCurrencies(g), SupportedMethods(g), name))
      case Err(e) => Err(e)
    }

    /** getAllGatewayInfo: one record per registered gateway, in
        registration order. */
    method AllGatewayInfo() returns (infos: seq<GatewayInfo>)
      ensures |infos| == |registry|
      ensures forall i :: 0 <= i < |registry| ==> infos[i] == InfoFor(registry[i], publishableKey)
    {
      infos := [];
      var k := 0;
      while k < |registry|
        invariant 0 <= k <= |registry|
        invariant |infos| == k
        invariant forall i :: 0 <= i < k ==> infos[i] == InfoFor(registry[i], publishableKey)
      {
        infos := infos + [InfoFor(registry[k], publishableKey)];
        k := k + 1;
      }
    }
  }
}
