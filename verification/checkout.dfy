/**
 The checkout page: the money summary (goods, delivery fee, total), the
 guards of the order form's submit handler and the payload it sends, which
 view the page shows, and when the submit button is disabled. The order
 creation itself happens on the server and is not part of this model.
 */
module CheckoutPage {
  import opened Text
  import CartPage

  datatype DeliveryMethod = Pickup | Delivery
  datatype PaymentChoice = Cash | Card | Invoice

  /** `(item.product?.price || 0) * item.quantity` */
  function LineSubtotal(line: CartPage.CartLine): int {
    (if line.product.Some? then line.product.value.price else 0) * line.quantity
  }

  function SumSubtotals(lines: seq<CartPage.CartLine>): int {
    if lines == [] then 0 else LineSubtotal(lines[0]) + SumSubtotals(lines[1..])
  }

  /** The goods total; no cart at all reads as 0. */
  function Subtotal(cart: Option<seq<CartPage.CartLine>>): int {
    if cart.None? then 0 else SumSubtotals(cart.value)
  }

  lemma {:induction false} TotalPriceFront(line: CartPage.CartLine, rest: seq<CartPage.CartLine>)
    ensures CartPage.TotalPrice([line] + rest) == LineSubtotal(line) + CartPage.TotalPrice(rest)
    decreases |rest|
  {
    var all := [line] + rest;
    if rest == [] {
      assert all[..0] == [];
    } else {
      assert all[..|all| - 1] == [line] + rest[..|rest| - 1];
      TotalPriceFront(line, rest[..|rest| - 1]);
    }
  }

  /** The checkout's goods total is the cart page's total: both skip lines without a product. */
  lemma {:induction false} SubtotalMatchesCart(lines: seq<CartPage.CartLine>)
    ensures Subtotal(Some(lines)) == CartPage.TotalPrice(lines)
  {
    if lines != [] {
      SubtotalMatchesCart(lines[1..]);
      assert lines == [lines[0]] + lines[1..];
      TotalPriceFront(lines[0], lines[1..]);
    }
  }

  /** The delivery fee in kopecks: 500 roubles for courier delivery, nothing for pickup. */
  function DeliveryFee(m: DeliveryMethod): (fee: int)
    ensures fee == 50000 <==> m.Delivery?
    ensures fee == 0 <==> m.Pickup?
  {
    if m.Delivery? then 50000 else 0
  }

  datatype Summary = Summary(subtotal: int, deliveryFee: int, total: int)

  function Totals(cart: Option<seq<CartPage.CartLine>>, m: DeliveryMethod): (s: Summary)
    ensures s.total == s.subtotal + s.deliveryFee
    ensures s.deliveryFee == DeliveryFee(m)
    ensures cart.Some? ==> s.subtotal == CartPage.TotalPrice(cart.value)
  {
    var sub := Subtotal(cart);
    var fee := DeliveryFee(m);
    if cart.Some? then
      SubtotalMatchesCart(cart.value);
      Summary(sub, fee, sub + fee)
    else Summary(sub, fee, sub + fee)
  }

  /** Two of one product at 100 roubles and one of another at 50, picked up: 250 roubles in all. */
  lemma PickupScenario(a: CartPage.CartLine, b: CartPage.CartLine)
    requires a.product.Some? && a.product.value.price == 10000 && a.quantity == 2
    requires b.product.Some? && b.product.value.price == 5000 && b.quantity == 1
    ensures Totals(Some([a, b]), Pickup) == Summary(25000, 0, 25000)
    ensures Totals(Some([a, b]), Delivery) == Summary(25000, 50000, 75000)
  {
    assert [a, b][1..] == [b];
    assert [b][1..] == [];
    assert SumSubtotals([b]) == 5000;
    assert SumSubtotals([a, b]) == 20000 + 5000;
  }

  // ---------------------------------------------------------------------------
  // The form
  // ---------------------------------------------------------------------------

  datatype Form = Form(
    customerName: string,
    customerEmail: string,
    customerPhone: string,
    deliveryMethod: DeliveryMethod,
    deliveryAddress: string,
    deliveryCity: string,
    deliveryComment: string,
    paymentMethod: PaymentChoice,
    agreeToTerms: bool)

  /** The fresh form: courier delivery, cash, terms unchecked, every text empty. */
  const InitialForm: Form := Form("", "", "", Delivery, "", "", "", Cash, false)

  datatype OrderPayload = OrderPayload(
    customerName: string,
    customerEmail: string,
    customerPhone: string,
    deliveryMethod: DeliveryMethod,
    deliveryAddress: Option<string>,
    deliveryCity: Option<string>,
    deliveryComment: string,
    paymentMethod: PaymentChoice)

  datatype SubmitError = TermsNotAccepted | AddressMissing

  /** What a submit does: show an error toast, or send the order. */
  datatype SubmitOutcome = Rejected(error: SubmitError) | Mutate(payload: OrderPayload)

  function HandleSubmit(f: Form): (r: SubmitOutcome)
    ensures r == Rejected(TermsNotAccepted) <==> !f.agreeToTerms
    ensures r == Rejected(AddressMissing) <==> f.agreeToTerms && f.deliveryMethod == Delivery && f.deliveryAddress == ""
    ensures r.Mutate? ==>
      && r.payload.customerName == f.customerName
      && r.payload.customerEmail == f.customerEmail
      && r.payload.customerPhone == f.customerPhone
      && r.payload.deliveryMethod == f.deliveryMethod
      && r.payload.deliveryComment == f.deliveryComment
      && r.payload.paymentMethod == f.paymentMethod
      && (f.deliveryMethod == Pickup ==> r.payload.deliveryAddress.None? && r.payload.deliveryCity.None?)
      && (f.deliveryMethod == Delivery ==>
            r.payload.deliveryAddress == Some(f.deliveryAddress) && r.payload.deliveryCity == Some(f.deliveryCity))
  {
    if !f.agreeToTerms then Rejected(TermsNotAccepted)
    else if f.deliveryMethod == Delivery && f.deliveryAddress == "" then Rejected(AddressMissing)
    else
      var courier := f.deliveryMethod == Delivery;
      Mutate(OrderPayload(f.customerName, f.customerEmail, f.customerPhone, f.deliveryMethod,
                          if courier then Some(f.deliveryAddress) else None,
                          if courier then Some(f.deliveryCity) else None,
                          f.deliveryComment, f.paymentMethod))
  }

  /** An order sent for courier delivery always carries a non-empty address. */
  lemma CourierOrdersHaveAddress(f: Form)
    requires HandleSubmit(f).Mutate? && f.deliveryMethod == Delivery
    ensures HandleSubmit(f).payload.deliveryAddress.Some? && HandleSubmit(f).payload.deliveryAddress.value != ""
  {
  }

  /** The submit button is disabled while an order is in flight or the terms are unchecked. */
  function SubmitDisabled(pending: bool, f: Form): (disabled: bool)
    ensures !disabled <==> !pending && f.agreeToTerms
  {
    pending || !f.agreeToTerms
  }

  /** A click on an enabled button never hits the terms guard, and the fresh form's button is disabled. */
  lemma EnabledButtonPassesTermsGuard(pending: bool, f: Form)
    ensures !SubmitDisabled(pending, f) ==> HandleSubmit(f) != Rejected(TermsNotAccepted)
    ensures SubmitDisabled(pending, InitialForm)
  {
  }

  datatype CheckoutView = LoadingView | EmptyCartView | FormView(summary: Summary)

  function View(loading: bool, cart: Option<seq<CartPage.CartLine>>, m: DeliveryMethod): (v: CheckoutView)
    ensures loading ==> v == LoadingView
    ensures !loading && (cart.None? || cart.value == []) ==> v == EmptyCartView
    ensures v.FormView? <==> !loading && cart.Some? && cart.value != []
    ensures v.FormView? ==> v.summary == Totals(cart, m)
  {
    if loading then LoadingView
    else if cart.None? || cart.value == [] then EmptyCartView
    else FormView(Totals(cart, m))
  }
}
