/**
 The page a customer waits on after being sent to the payment provider. It
 polls the order and leaves for the success or failure page as soon as the
 order's payment status says so. The order is the stored order record the
 payment callbacks update.
 */
module PaymentPending {
  import opened Text
  import PaymentWebhooks

  /** `params.orderNumber || ""` */
  function OrderNumberParam(param: Option<string>): (r: string)
    ensures Truthy(param) ==> r == param.value
    ensures !Truthy(param) ==> r == ""
  {
    OrElse(param, "")
  }

  datatype QueryOptions = QueryOptions(enabled: bool, refetchIntervalMs: nat)

  /** The order query runs, every five seconds, only for a non-empty order number. */
  function PollOptions(orderNumber: string): (o: QueryOptions)
    ensures o.enabled <==> orderNumber != ""
    ensures o.refetchIntervalMs == 5000
  {
    QueryOptions(orderNumber != "", 5000)
  }

  /** Where the page sends the browser once the polled order is settled. */
  function Redirect(order: Option<PaymentWebhooks.Order>, orderNumber: string): (r: Option<string>)
    ensures r == Some("/payment-success/" + orderNumber) <==> order.Some? && order.value.paymentStatus == PaymentWebhooks.Paid
    ensures r == Some("/payment-failed/" + orderNumber) <==> order.Some? && order.value.paymentStatus == PaymentWebhooks.Failed
    ensures r.None? <==> order.None? || order.value.paymentStatus !in {PaymentWebhooks.Paid, PaymentWebhooks.Failed}
  {
    assert ("/payment-success/" + orderNumber)[9] == 's';
    assert ("/payment-failed/" + orderNumber)[9] == 'f';
    if order.Some? && order.value.paymentStatus == PaymentWebhooks.Paid then
      Some("/payment-success/" + orderNumber)
    else if order.Some? && order.value.paymentStatus == PaymentWebhooks.Failed then
      Some("/payment-failed/" + orderNumber)
    else None
  }

  datatype PendingView =
    | LoadingView
    | NotFoundView(orderNumber: string)
    | WaitingView(orderNumber: string, total: int, payLink: Option<string>)

  /** The pay-now link appears only when the order carries a payment URL. */
  function View(loading: bool, order: Option<PaymentWebhooks.Order>, orderNumber: string): (v: PendingView)
    ensures loading ==> v == LoadingView
    ensures !loading && order.None? ==> v == NotFoundView(orderNumber)
    ensures !loading && order.Some? ==> v.WaitingView?
    ensures v.WaitingView? ==>
      && order.Some?
      && v.orderNumber == order.value.orderNumber
      && v.total == order.value.total
      && (v.payLink.Some? <==> Truthy(order.value.paymentUrl))
      && (v.payLink.Some? ==> v.payLink.value == order.value.paymentUrl.value)
  {
    if loading then LoadingView
    else if order.None? then NotFoundView(orderNumber)
    else
      var o := order.value;
      WaitingView(o.orderNumber, o.total, if Truthy(o.paymentUrl) then o.paymentUrl else None)
  }

  /**
   Once a Paymaster callback has confirmed a known order, the next poll of
   that order sends the customer to the success page.
   */
  lemma PaymasterCallbackEndsWaiting(store: PaymentWebhooks.Store, p: PaymentWebhooks.PaymasterPayload)
    requires Truthy(PaymentWebhooks.PaymasterOrderNumber(p))
    requires PaymentWebhooks.PaymasterOrderNumber(p).value in store
    ensures var on := PaymentWebhooks.PaymasterOrderNumber(p).value;
      var after := PaymentWebhooks.PaymasterWebhook(store, PaymentWebhooks.Env(true, true), p).store;
      on in after && Redirect(Some(after[on]), on) == Some("/payment-success/" + on)
  {
  }

  /** A failing Ckassa callback for a known order sends the waiting customer to the failure page. */
  lemma CkassaFailureEndsWaiting(store: PaymentWebhooks.Store, p: PaymentWebhooks.CkassaPayload)
    requires Truthy(p.orderId) && p.orderId.value in store
    requires PaymentWebhooks.CkassaAction(p.status) == PaymentWebhooks.FailAction
    ensures var on := p.orderId.value;
      var after := PaymentWebhooks.CkassaWebhook(store, PaymentWebhooks.Env(true, true), p).store;
      on in after && Redirect(Some(after[on]), on) == Some("/payment-failed/" + on)
  {
  }
}
