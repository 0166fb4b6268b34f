/**
 The payment-provider callbacks and the status endpoint. Each handler is a
 function from the order store and the callback payload to the new store,
 the storage calls it made, the owner notifications it sent, and the HTTP
 response. Provider signatures (`LMI_HASH`, `signature`) are read but never
 checked by these handlers, so the model ignores them.

 The order store and its two transitions are not part of the shown code;
 they are modelled as a map from order number to order, where confirming
 sets the payment to `paid` and the order to `confirmed`, and failing sets
 the payment to `failed`. A throwing store or notifier is modelled by the
 two flags of `Env`.
 */
module PaymentWebhooks {
  import opened Text
  import opened Json
  import Money

  datatype PaymentStatus = PaymentPending | PaymentProcessing | Paid | Failed
  datatype OrderStatus = Pending | Confirmed | Processing | Shipped | Delivered | Cancelled

  function PaymentStatusText(s: PaymentStatus): string {
    match s
    case PaymentPending => "pending"
    case PaymentProcessing => "processing"
    case Paid => "paid"
    case Failed => "failed"
  }

  function OrderStatusText(s: OrderStatus): string {
    match s
    case Pending => "pending"
    case Confirmed => "confirmed"
    case Processing => "processing"
    case Shipped => "shipped"
    case Delivered => "delivered"
    case Cancelled => "cancelled"
  }

  /** The fields of an order row that the webhooks and the status page read. */
  datatype Order = Order(
    orderNumber: string,
    paymentStatus: PaymentStatus,
    status: OrderStatus,
    paymentMethod: string,
    total: int,
    paymentId: Option<string>,
    customerName: string,
    customerPhone: string,
    paymentUrl: Option<string>)

  type Store = map<string, Order>

  /** Whether the store and the owner notifier answer or throw. */
  datatype Env = Env(storeUp: bool, notifyUp: bool)

  datatype DbCall =
    | ConfirmCall(orderNumber: string, paymentId: Option<string>)
    | FailCall(orderNumber: string, paymentId: Option<string>)
    | LookupCall(orderNumber: string)

  datatype Provider = PaymasterProvider | CkassaProvider

  function ProviderName(p: Provider): string {
    match p
    case PaymasterProvider => "Paymaster"
    case CkassaProvider => "Ckassa"
  }

  datatype Outcome = Outcome(store: Store, calls: seq<DbCall>, notices: seq<Notice>, response: Response)

  const PaymentReceivedTitle: string := "\U{1F4B3} Оплата получена: "

  /**
   The owner alert about a received payment: the order number in the title;
   the provider, the amount in roubles and the customer in the body.
   */
  function PaymentNotice(provider: Provider, orderNumber: string, o: Order): Notice
  {
    Notice(PaymentReceivedTitle + orderNumber,
           "Заказ " + orderNumber + " оплачен через " + ProviderName(provider) + ".\n\nСумма: "
           + Money.Fixed2(o.total, '.') + " ₽\nКлиент: " + o.customerName + "\nТелефон: " + o.customerPhone)
  }

  // ---------------------------------------------------------------------------
  // The store transitions
  // ---------------------------------------------------------------------------

  /** A given payment id replaces the stored one; an absent one leaves it. */
  function NewPaymentId(stored: Option<string>, given: Option<string>): Option<string> {
    if given.Some? then given else stored
  }

  /** Confirm a payment: the order becomes paid and confirmed; an unknown number changes nothing. */
  function Confirm(store: Store, orderNumber: string, paymentId: Option<string>): (r: (Store, Option<Order>))
    ensures orderNumber !in store <==> r.1.None?
    ensures orderNumber !in store ==> r.0 == store
    ensures orderNumber in store ==>
      && r.1.value.paymentStatus == Paid
      && r.1.value.status == Confirmed
      && r.1.value.orderNumber == store[orderNumber].orderNumber
      && r.1.value.total == store[orderNumber].total
      && r.0 == store[orderNumber := r.1.value]
  {
    if orderNumber in store then
      var o := store[orderNumber];
      var o' := o.(paymentStatus := Paid, status := Confirmed, paymentId := NewPaymentId(o.paymentId, paymentId));
      (store[orderNumber := o'], Some(o'))
    else (store, None)
  }

  /** Fail a payment: the order's payment becomes failed; an unknown number changes nothing. */
  function Fail(store: Store, orderNumber: string, paymentId: Option<string>): (r: (Store, Option<Order>))
    ensures orderNumber !in store <==> r.1.None?
    ensures orderNumber !in store ==> r.0 == store
    ensures orderNumber in store ==>
      && r.1.value.paymentStatus == Failed
      && r.1.value.status == store[orderNumber].status
      && r.0 == store[orderNumber := r.1.value]
  {
    if orderNumber in store then
      var o := store[orderNumber];
      var o' := o.(paymentStatus := Failed, paymentId := NewPaymentId(o.paymentId, paymentId));
      (store[orderNumber := o'], Some(o'))
    else (store, None)
  }

  /** Both transitions touch only the order they name. */
  lemma TransitionsTouchOneOrder(store: Store, orderNumber: string, paymentId: Option<string>, other: string)
    requires other != orderNumber
    ensures other in Confirm(store, orderNumber, paymentId).0 <==> other in store
    ensures other in store ==> Confirm(store, orderNumber, paymentId).0[other] == store[other]
    ensures other in Fail(store, orderNumber, paymentId).0 <==> other in store
    ensures other in store ==> Fail(store, orderNumber, paymentId).0[other] == store[other]
  {
  }

  /** The pending -> paid and pending -> failed flows of an existing order. */
  lemma PaymentFlows(store: Store, orderNumber: string, paymentId: Option<string>)
    requires orderNumber in store && store[orderNumber].paymentStatus == PaymentPending
    ensures Confirm(store, orderNumber, paymentId).0[orderNumber].paymentStatus == Paid
    ensures Confirm(store, orderNumber, paymentId).0[orderNumber].status == Confirmed
    ensures Fail(store, orderNumber, paymentId).0[orderNumber].paymentStatus == Failed
  {
  }

  // ---------------------------------------------------------------------------
  // Confirm-and-notify, shared by two providers
  // ---------------------------------------------------------------------------

  /**
   Confirm, then alert the owner if an order came back, then acknowledge
   with `ack`. A throwing store or notifier turns the answer into a 500.
   */
  function ConfirmAndNotify(store: Store, env: Env, provider: Provider, orderNumber: string,
                            paymentId: Option<string>, ack: Response): (out: Outcome)
    ensures out.calls == [ConfirmCall(orderNumber, paymentId)]
    ensures !env.storeUp ==> out.store == store && out.notices == [] && out.response.status == 500
    ensures env.storeUp ==> out.store == Confirm(store, orderNumber, paymentId).0
    ensures env.storeUp && env.notifyUp ==> out.response == ack
    ensures env.storeUp && env.notifyUp ==> (|out.notices| == 1 <==> orderNumber in store)
    ensures env.storeUp && !env.notifyUp ==> out.notices == []
    ensures env.storeUp && !env.notifyUp && orderNumber in store ==>
      out.response == ErrorResponse(500, "Internal server error")
    ensures env.storeUp && !env.notifyUp && orderNumber !in store ==> out.response == ack
    ensures |out.notices| <= 1
    ensures out.notices != [] ==> orderNumber in store && out.notices == [PaymentNotice(provider, orderNumber, out.store[orderNumber])]
  {
    var calls := [ConfirmCall(orderNumber, paymentId)];
    if !env.storeUp then Outcome(store, calls, [], ErrorResponse(500, "Internal server error"))
    else
      var (store', order) := Confirm(store, orderNumber, paymentId);
      if order.None? then Outcome(store', calls, [], ack)
      else if !env.notifyUp then Outcome(store', calls, [], ErrorResponse(500, "Internal server error"))
      else
        Outcome(store', calls, [PaymentNotice(provider, orderNumber, order.value)], ack)
  }

  // ---------------------------------------------------------------------------
  // Paymaster
  // ---------------------------------------------------------------------------

  datatype PaymasterPayload = PaymasterPayload(
    orderId: Option<string>,       // ORDER_ID, the custom field
    paymentNo: Option<string>,     // LMI_PAYMENT_NO
    sysPaymentId: Option<string>,  // LMI_SYS_PAYMENT_ID
    hash: Option<string>)          // LMI_HASH, never checked

  /** `ORDER_ID || LMI_PAYMENT_NO` */
  function PaymasterOrderNumber(p: PaymasterPayload): Option<string> {
    if Truthy(p.orderId) then p.orderId else p.paymentNo
  }

  const PaymasterAck: Response := Response(200, Text("YES"))

  function PaymasterWebhook(store: Store, env: Env, p: PaymasterPayload): (out: Outcome)
    ensures !Truthy(p.orderId) && !Truthy(p.paymentNo) ==>
      out == Outcome(store, [], [], ErrorResponse(400, "Missing order number"))
    ensures Truthy(p.orderId) ==> out.calls == [ConfirmCall(p.orderId.value, p.sysPaymentId)]
    ensures !Truthy(p.orderId) && Truthy(p.paymentNo) ==> out.calls == [ConfirmCall(p.paymentNo.value, p.sysPaymentId)]
  {
    var on := PaymasterOrderNumber(p);
    if !Truthy(on) then Outcome(store, [], [], ErrorResponse(400, "Missing order number"))
    else ConfirmAndNotify(store, env, PaymasterProvider, on.value, p.sysPaymentId, PaymasterAck)
  }

  /**
   With a usable order number and a working store and notifier, Paymaster
   always gets `200 YES`, found order or not, and the owner hears about it
   exactly when the order exists.
   */
  lemma PaymasterAcknowledges(store: Store, p: PaymasterPayload)
    requires Truthy(PaymasterOrderNumber(p))
    ensures var out := PaymasterWebhook(store, Env(true, true), p);
      && out.response == Response(200, Text("YES"))
      && |out.calls| == 1 && out.calls[0].ConfirmCall?
      && (out.notices != [] <==> PaymasterOrderNumber(p).value in store)
  {
  }

  /** Neither order field set: a 400, and the store is never asked to confirm. */
  lemma PaymasterRejectsMissingNumber(store: Store, env: Env, p: PaymasterPayload)
    requires !Truthy(p.orderId) && !Truthy(p.paymentNo)
    ensures PaymasterWebhook(store, env, p).response.status == 400
    ensures PaymasterWebhook(store, env, p).calls == []
    ensures PaymasterWebhook(store, env, p).store == store
  {
  }

  // ---------------------------------------------------------------------------
  // Ckassa
  // ---------------------------------------------------------------------------

  datatype CkassaPayload = CkassaPayload(
    orderId: Option<string>,
    paymentId: Option<string>,
    status: Option<string>,
    signature: Option<string>)  // never checked

  datatype Action = ConfirmAction | FailAction | NoAction

  /** Which statuses confirm, which fail, and which are only acknowledged. */
  function CkassaAction(status: Option<string>): (a: Action)
    ensures a == ConfirmAction <==> status in {Some("success"), Some("paid"), Some("completed")}
    ensures a == FailAction <==> status in {Some("failed"), Some("cancelled"), Some("error")}
  {
    if status == Some("success") || status == Some("paid") || status == Some("completed") then ConfirmAction
    else if status == Some("failed") || status == Some("cancelled") || status == Some("error") then FailAction
    else NoAction
  }

  const CkassaAck: Response := Response(200, JsonBody(JObj(SuccessObject)))

  function CkassaWebhook(store: Store, env: Env, p: CkassaPayload): (out: Outcome)
    ensures !Truthy(p.orderId) ==> out == Outcome(store, [], [], ErrorResponse(400, "Missing order ID"))
    ensures Truthy(p.orderId) ==> match CkassaAction(p.status)
      case ConfirmAction => out.calls == [ConfirmCall(p.orderId.value, p.paymentId)]
      case FailAction => out.calls == [FailCall(p.orderId.value, p.paymentId)] && out.notices == []
      case NoAction => out == Outcome(store, [], [], CkassaAck)
    ensures Truthy(p.orderId) && CkassaAction(p.status) == ConfirmAction ==>
      out == ConfirmAndNotify(store, env, CkassaProvider, p.orderId.value, p.paymentId, CkassaAck)
    ensures Truthy(p.orderId) && CkassaAction(p.status) == FailAction && env.storeUp ==>
      out.store == Fail(store, p.orderId.value, p.paymentId).0 && out.response == CkassaAck
    ensures Truthy(p.orderId) && CkassaAction(p.status) == FailAction && !env.storeUp ==>
      out.store == store && out.response == ErrorResponse(500, "Internal server error")
  {
    if !Truthy(p.orderId) then Outcome(store, [], [], ErrorResponse(400, "Missing order ID"))
    else
      var on := p.orderId.value;
      match CkassaAction(p.status)
      case ConfirmAction => ConfirmAndNotify(store, env, CkassaProvider, on, p.paymentId, CkassaAck)
      case FailAction =>
        var calls := [FailCall(on, p.paymentId)];
        if !env.storeUp then Outcome(store, calls, [], ErrorResponse(500, "Internal server error"))
        else Outcome(Fail(store, on, p.paymentId).0, calls, [], CkassaAck)
      case NoAction => Outcome(store, [], [], CkassaAck)
  }

  /** With an order id and a working store and notifier, every status is acknowledged `{success: true}`. */
  lemma CkassaAlwaysAcknowledges(store: Store, p: CkassaPayload)
    requires Truthy(p.orderId)
    ensures CkassaWebhook(store, Env(true, true), p).response == Response(200, JsonBody(JObj(map["success" := JBool(true)])))
  {
  }

  // ---------------------------------------------------------------------------
  // The test hook
  // ---------------------------------------------------------------------------

  datatype TestPayload = TestPayload(orderNumber: Option<string>, paymentId: Option<string>, status: Option<string>)

  /** A nullable text column as JSON: the string, or `null`. */
  function OptJson(v: Option<string>): Json {
    if v.Some? then JStr(v.value) else JNull
  }

  const OrderKeys: set<string> := {"orderNumber", "paymentStatus", "status", "paymentMethod", "total",
                                   "paymentId", "customerName", "customerPhone", "paymentUrl"}

  /** The order as `res.json` writes it, over the nine modelled fields, a missing value as `null`. */
  function OrderJson(o: Order): (j: Json)
    ensures j.JObj? && j.fields.Keys == OrderKeys
  {
    JObj(map[
      "orderNumber" := JStr(o.orderNumber),
      "paymentStatus" := JStr(PaymentStatusText(o.paymentStatus)),
      "status" := JStr(OrderStatusText(o.status)),
      "paymentMethod" := JStr(o.paymentMethod),
      "total" := JInt(o.total),
      "paymentId" := OptJson(o.paymentId),
      "customerName" := JStr(o.customerName),
      "customerPhone" := JStr(o.customerPhone),
      "paymentUrl" := OptJson(o.paymentUrl)])
  }

  function ParsePaymentStatus(s: string): Option<PaymentStatus> {
    if s == "pending" then Some(PaymentPending)
    else if s == "processing" then Some(PaymentProcessing)
    else if s == "paid" then Some(Paid)
    else if s == "failed" then Some(Failed)
    else None
  }

  function ParseOrderStatus(s: string): Option<OrderStatus> {
    if s == "pending" then Some(Pending)
    else if s == "confirmed" then Some(Confirmed)
    else if s == "processing" then Some(Processing)
    else if s == "shipped" then Some(Shipped)
    else if s == "delivered" then Some(Delivered)
    else if s == "cancelled" then Some(Cancelled)
    else None
  }

  lemma PaymentStatusTextRoundTrip(st: PaymentStatus)
    ensures ParsePaymentStatus(PaymentStatusText(st)) == Some(st)
  {
    assert "pending"[1] == 'e' && "processing"[1] == 'r' && "paid"[0] == 'p' && "paid"[1] == 'a';
    assert "failed"[0] == 'f';
  }

  lemma OrderStatusTextRoundTrip(st: OrderStatus)
    ensures ParseOrderStatus(OrderStatusText(st)) == Some(st)
  {
    assert "pending"[0] == 'p' && "pending"[1] == 'e' && "processing"[1] == 'r';
    assert "confirmed"[0] == 'c' && "confirmed"[1] == 'o' && "cancelled"[1] == 'a';
    assert "shipped"[0] == 's' && "delivered"[0] == 'd';
  }

  function OptFromJson(j: Json): Option<Option<string>> {
    match j
    case JStr(v) => Some(Some(v))
    case JNull => Some(None)
    case _ => None
  }

  /** Reads a reply's order back into the order row. */
  function OrderFromJson(j: Json): Option<Order> {
    if !j.JObj? || !(OrderKeys <= j.fields.Keys) then None
    else
      var f := j.fields;
      if !f["orderNumber"].JStr? || !f["paymentStatus"].JStr? || !f["status"].JStr? || !f["paymentMethod"].JStr?
         || !f["total"].JInt? || !f["customerName"].JStr? || !f["customerPhone"].JStr? then None
      else
        var ps := ParsePaymentStatus(f["paymentStatus"].s);
        var st := ParseOrderStatus(f["status"].s);
        var pid := OptFromJson(f["paymentId"]);
        var url := OptFromJson(f["paymentUrl"]);
        if ps.None? || st.None? || pid.None? || url.None? then None
        else Some(Order(f["orderNumber"].s, ps.value, st.value, f["paymentMethod"].s, f["total"].n,
                        pid.value, f["customerName"].s, f["customerPhone"].s, url.value))
  }

  /** The reply's order describes the modelled order completely: it reads back as the same nine fields. */
  lemma OrderJsonRoundTrip(o: Order)
    ensures OrderFromJson(OrderJson(o)) == Some(o)
  {
    PaymentStatusTextRoundTrip(o.paymentStatus);
    OrderStatusTextRoundTrip(o.status);
  }

  /** `{ success: true, order }`: an order that is `undefined` drops out of the JSON. */
  function SuccessWithOrder(order: Option<Order>): (r: Response)
    ensures r.status == 200 && r.body.JsonBody? && r.body.value.JObj?
    ensures r.body.value.fields.Keys == {"success"} + (if order.Some? then {"order"} else {})
    ensures r.body.value.fields["success"] == JBool(true)
    ensures order.Some? ==> OrderFromJson(r.body.value.fields["order"]) == order
  {
    if order.Some? then
      OrderJsonRoundTrip(order.value);
      Response(200, JsonBody(JObj(SuccessObject["order" := OrderJson(order.value)])))
    else Response(200, JsonBody(JObj(SuccessObject)))
  }

  const DefaultTestPaymentId: string := "test_payment_id"

  function TestWebhook(store: Store, env: Env, p: TestPayload): (out: Outcome)
    ensures !Truthy(p.orderNumber) ==> out == Outcome(store, [], [], ErrorResponse(400, "Missing orderNumber"))
    ensures Truthy(p.orderNumber) && p.status == Some("paid") ==>
      var pid := Some(if Truthy(p.paymentId) then p.paymentId.value else "test_payment_id");
      && out.calls == [ConfirmCall(p.orderNumber.value, pid)]
      && (env.storeUp ==> (out.store, out.response) == (Confirm(store, p.orderNumber.value, pid).0,
                                                       SuccessWithOrder(Confirm(store, p.orderNumber.value, pid).1)))
      && (!env.storeUp ==> out.store == store && out.response == ErrorResponse(500, "Internal server error"))
    ensures Truthy(p.orderNumber) && p.status == Some("failed") ==>
      && out.calls == [FailCall(p.orderNumber.value, p.paymentId)]
      && (env.storeUp ==> (out.store, out.response) == (Fail(store, p.orderNumber.value, p.paymentId).0,
                                                       SuccessWithOrder(Fail(store, p.orderNumber.value, p.paymentId).1)))
      && (!env.storeUp ==> out.store == store && out.response == ErrorResponse(500, "Internal server error"))
    ensures Truthy(p.orderNumber) && p.status != Some("paid") && p.status != Some("failed") ==>
      out == Outcome(store, [], [], Response(200, JsonBody(JObj(SuccessObject["message" := JStr("Webhook received")]))))
    ensures out.notices == []
  {
    if !Truthy(p.orderNumber) then Outcome(store, [], [], ErrorResponse(400, "Missing orderNumber"))
    else
      var on := p.orderNumber.value;
      if p.status == Some("paid") then
        var pid := Some(if Truthy(p.paymentId) then p.paymentId.value else DefaultTestPaymentId);
        if !env.storeUp then Outcome(store, [ConfirmCall(on, pid)], [], ErrorResponse(500, "Internal server error"))
        else
          var (store', order) := Confirm(store, on, pid);
          Outcome(store', [ConfirmCall(on, pid)], [], SuccessWithOrder(order))
      else if p.status == Some("failed") then
        if !env.storeUp then Outcome(store, [FailCall(on, p.paymentId)], [], ErrorResponse(500, "Internal server error"))
        else
          var (store', order) := Fail(store, on, p.paymentId);
          Outcome(store', [FailCall(on, p.paymentId)], [], SuccessWithOrder(order))
      else Outcome(store, [], [], Response(200, JsonBody(JObj(SuccessObject["message" := JStr("Webhook received")]))))
  }

  // ---------------------------------------------------------------------------
  // The status endpoint
  // ---------------------------------------------------------------------------

  const StatusKeys: set<string> := {"orderNumber", "paymentStatus", "paymentMethod", "total", "status"}

  function PaymentStatusEndpoint(store: Store, env: Env, orderNumber: string): (r: Response)
    ensures !env.storeUp ==> r.status == 500
    ensures env.storeUp && orderNumber !in store ==> r == ErrorResponse(404, "Order not found")
    ensures env.storeUp && orderNumber in store ==>
      && r.status == 200 && r.body.JsonBody? && r.body.value.JObj?
      && r.body.value.fields.Keys == StatusKeys
      && r.body.value.fields["paymentStatus"] == JStr(PaymentStatusText(store[orderNumber].paymentStatus))
      && r.body.value.fields["status"] == JStr(OrderStatusText(store[orderNumber].status))
      && r.body.value.fields["total"] == JInt(store[orderNumber].total)
      && r.body.value.fields["orderNumber"] == JStr(store[orderNumber].orderNumber)
      && r.body.value.fields["paymentMethod"] == JStr(store[orderNumber].paymentMethod)
  {
    if !env.storeUp then ErrorResponse(500, "Internal server error")
    else if orderNumber !in store then ErrorResponse(404, "Order not found")
    else
      var o := store[orderNumber];
      Response(200, JsonBody(JObj(map[
        "orderNumber" := JStr(o.orderNumber),
        "paymentStatus" := JStr(PaymentStatusText(o.paymentStatus)),
        "paymentMethod" := JStr(o.paymentMethod),
        "total" := JInt(o.total),
        "status" := JStr(OrderStatusText(o.status))])))
  }

  /** A test confirmation of a known order replies with that order, now paid and confirmed. */
  lemma TestPaidRepliesWithPaidOrder(store: Store, p: TestPayload)
    requires Truthy(p.orderNumber) && p.orderNumber.value in store && p.status == Some("paid")
    ensures var r := TestWebhook(store, Env(true, true), p).response;
      var o := OrderFromJson(r.body.value.fields["order"]);
      && "order" in r.body.value.fields
      && o.Some? && o.value.paymentStatus == Paid && o.value.status == Confirmed
      && o.value.orderNumber == store[p.orderNumber.value].orderNumber
  {
  }

  /** After a Paymaster callback for a known order, polling reports `paid` and `confirmed`. */
  lemma PaymasterThenStatusReportsPaid(store: Store, p: PaymasterPayload)
    requires Truthy(PaymasterOrderNumber(p)) && PaymasterOrderNumber(p).value in store
    ensures var on := PaymasterOrderNumber(p).value;
      var r := PaymentStatusEndpoint(PaymasterWebhook(store, Env(true, true), p).store, Env(true, true), on);
      && r.status == 200
      && r.body.value.fields["paymentStatus"] == JStr("paid")
      && r.body.value.fields["status"] == JStr("confirmed")
  {
  }

  /** After a failing Ckassa callback for a known order, polling reports `failed`. */
  lemma CkassaFailureThenStatusReportsFailed(store: Store, p: CkassaPayload)
    requires Truthy(p.orderId) && p.orderId.value in store
    requires CkassaAction(p.status) == FailAction
    ensures var r := PaymentStatusEndpoint(CkassaWebhook(store, Env(true, true), p).store, Env(true, true), p.orderId.value);
      r.status == 200 && r.body.value.fields["paymentStatus"] == JStr("failed")
  {
  }

  /** An unknown order number: the provider still gets its acknowledgement and nothing changes. */
  lemma UnknownOrderIsAcknowledged(store: Store, p: PaymasterPayload, q: CkassaPayload)
    requires Truthy(PaymasterOrderNumber(p)) && PaymasterOrderNumber(p).value !in store
    requires Truthy(q.orderId) && q.orderId.value !in store
    ensures PaymasterWebhook(store, Env(true, true), p) ==
      Outcome(store, [ConfirmCall(PaymasterOrderNumber(p).value, p.sysPaymentId)], [], Response(200, Text("YES")))
    ensures CkassaWebhook(store, Env(true, true), q).store == store
    ensures CkassaWebhook(store, Env(true, true), q).response.status == 200
  {
  }
}
