/**
 The product page: the quantity stepper, the stock flag, the running total,
 the unit label, the add-to-cart request and the source tag of a quick-buy
 request. The product is what `products.getById` returned; the page only
 draws its body once a product is there.
 */
module ProductPage {
  import opened Text
  import Schema
  import CartPage

  /** The stepper starts at one unit. */
  const InitialQuantity: int := 1

  /** `product?.quantity || 99`: the stock, or 99 when there is no product or the stock is zero. */
  function MaxQuantity(product: Option<Schema.Product>): (m: int)
    ensures product.Some? && product.value.quantity != 0 ==> m == product.value.quantity
    ensures product.None? || product.value.quantity == 0 ==> m == 99
  {
    if product.Some? && product.value.quantity != 0 then product.value.quantity else 99
  }

  /** A step is taken only when it lands in `[1, max]`; otherwise the quantity stays. */
  function HandleQuantityChange(quantity: int, delta: int, product: Option<Schema.Product>): (q: int)
    ensures q == quantity || q == quantity + delta
    ensures q == quantity + delta <==> 1 <= quantity + delta <= MaxQuantity(product) || delta == 0
    ensures q != quantity ==> 1 <= q <= MaxQuantity(product)
  {
    var next := quantity + delta;
    if next >= 1 && next <= MaxQuantity(product) then next else quantity
  }

  /** The quantity after a sequence of button presses. */
  function ApplySteps(quantity: int, deltas: seq<int>, product: Option<Schema.Product>): int
    decreases |deltas|
  {
    if deltas == [] then quantity
    else ApplySteps(HandleQuantityChange(quantity, deltas[0], product), deltas[1..], product)
  }

  /**
   Whatever is pressed, the selected quantity is at least 1, and it exceeds
   the maximum only while it still is the initial 1 (when the maximum is
   below 1, no step is ever taken).
   */
  lemma {:induction false} StepperStaysInRange(quantity: int, deltas: seq<int>, product: Option<Schema.Product>)
    requires quantity == 1 || 1 <= quantity <= MaxQuantity(product)
    ensures var q := ApplySteps(quantity, deltas, product);
      q == 1 || 1 <= q <= MaxQuantity(product)
    decreases |deltas|
  {
    if deltas != [] {
      StepperStaysInRange(HandleQuantityChange(quantity, deltas[0], product), deltas[1..], product);
    }
  }

  /** From the initial quantity, any presses leave a quantity in `[1, max]` for a product in stock. */
  lemma StepperFromStart(deltas: seq<int>, p: Schema.Product)
    requires p.quantity > 0
    ensures 1 <= ApplySteps(InitialQuantity, deltas, Some(p)) <= p.quantity
  {
    StepperStaysInRange(InitialQuantity, deltas, Some(p));
  }

  predicate InStock(p: Schema.Product) {
    p.quantity > 0
  }

  /** `formatUnit`: a missing or empty unit and `KGM` read as `КГ`; anything else is shown as stored. */
  function FormatUnit(unit: Option<string>): (r: string)
    ensures r == "КГ" <==> !Truthy(unit) || unit.value == "KGM" || unit.value == "КГ"
    ensures Truthy(unit) && unit.value != "KGM" ==> r == unit.value
  {
    if !Truthy(unit) then "КГ" else if unit.value == "KGM" then "КГ" else unit.value
  }

  /** `{ productId: product.id, quantity }`, sent only when a product is loaded. */
  function HandleAddToCart(product: Option<Schema.Product>, quantity: int): (r: Option<CartPage.AddRequest>)
    ensures r.Some? <==> product.Some?
    ensures r.Some? ==> r.value.productId == product.value.id && r.value.quantity == quantity
  {
    if product.Some? then Some(CartPage.AddRequest(product.value.id, quantity)) else None
  }

  /** What the loaded page draws around the stepper. */
  datatype PageView = PageView(
    stepperShown: bool,
    minusDisabled: bool,
    plusDisabled: bool,
    addToCartShown: bool,
    notifyShown: bool,
    total: Option<int>,
    unitLabel: string)

  function View(p: Schema.Product, quantity: int): (v: PageView)
    ensures v.stepperShown <==> p.quantity > 0
    ensures v.minusDisabled <==> quantity <= 1
    ensures v.plusDisabled <==> quantity >= p.quantity
    ensures v.addToCartShown == v.stepperShown
    ensures v.notifyShown <==> !v.stepperShown
    ensures v.total.Some? <==> quantity > 1
    ensures v.total.Some? ==> v.total.value == p.price * quantity
    ensures v.unitLabel == FormatUnit(p.unit)
  {
    PageView(InStock(p), quantity <= 1, quantity >= p.quantity, InStock(p), !InStock(p),
             if quantity > 1 then Some(p.price * quantity) else None,
             FormatUnit(p.unit))
  }

  /**
   On a product in stock, an enabled minus or plus button always moves the
   quantity by one: the buttons' disabled flags match the handler's guard.
   */
  lemma EnabledButtonsAlwaysStep(p: Schema.Product, quantity: int)
    requires InStock(p) && 1 <= quantity <= p.quantity
    ensures !View(p, quantity).minusDisabled ==> HandleQuantityChange(quantity, -1, Some(p)) == quantity - 1
    ensures !View(p, quantity).plusDisabled ==> HandleQuantityChange(quantity, 1, Some(p)) == quantity + 1
    ensures View(p, quantity).plusDisabled ==> HandleQuantityChange(quantity, 1, Some(p)) == quantity
  {
  }

  // ---------------------------------------------------------------------------
  // The quick-buy source tag
  // ---------------------------------------------------------------------------

  const QuickBuyPrefix: string := "quick_buy_"
  const QuantityMarker: string := "_qty_"

  /** The contact-request source of a quick buy: `quick_buy_<id>_qty_<quantity>`. */
  function QuickBuySource(productId: int, quantity: int): string {
    QuickBuyPrefix + (IntToString(productId) + (QuantityMarker + IntToString(quantity)))
  }

  /** The length of the run of digits at the front of `s`. */
  function DigitRun(s: string): (k: nat)
    ensures k <= |s| && AllDigits(s[..k])
    ensures k < |s| ==> !IsDigit(s[k])
  {
    if s == [] || !IsDigit(s[0]) then 0
    else
      var k := 1 + DigitRun(s[1..]);
      assert s[..k] == [s[0]] + s[1..][..k - 1];
      k
  }

  lemma {:induction false} DigitRunStopsAtMarker(digits: string, rest: string)
    requires AllDigits(digits)
    requires rest != [] && !IsDigit(rest[0])
    ensures DigitRun(digits + rest) == |digits|
  {
    if digits != [] {
      assert (digits + rest)[1..] == digits[1..] + rest;
      DigitRunStopsAtMarker(digits[1..], rest);
    } else {
      assert digits + rest == rest;
    }
  }

  /** Reads `<digits>_qty_<digits>` into the two numbers. */
  function ParseIdAndQuantity(rest: string): Option<(nat, nat)> {
    var k := DigitRun(rest);
    var tail := rest[k..];
    if k == 0 || |tail| < |QuantityMarker| || tail[..|QuantityMarker|] != QuantityMarker then None
    else
      var digits := tail[|QuantityMarker|..];
      if digits == [] || !AllDigits(digits) then None
      else Some((DigitsValue(rest[..k]), DigitsValue(digits)))
  }

  /** Reads a source tag back into the product id and the quantity. */
  function ParseQuickBuySource(s: string): Option<(nat, nat)> {
    if |s| < |QuickBuyPrefix| || s[..|QuickBuyPrefix|] != QuickBuyPrefix then None
    else ParseIdAndQuantity(s[|QuickBuyPrefix|..])
  }

  lemma IdAndQuantityRoundTrip(productId: nat, quantity: nat)
    ensures ParseIdAndQuantity(NatToString(productId) + (QuantityMarker + NatToString(quantity))) == Some((productId, quantity))
  {
    var id := NatToString(productId);
    var qty := NatToString(quantity);
    var tail := QuantityMarker + qty;
    var rest := id + tail;
    DigitRunStopsAtMarker(id, tail);
    assert rest[..|id|] == id;
    assert rest[|id|..] == tail;
    assert tail[..|QuantityMarker|] == QuantityMarker;
    assert tail[|QuantityMarker|..] == qty;
    NatToStringRoundTrip(productId);
    NatToStringRoundTrip(quantity);
  }

  /** The tag names the product and the quantity unambiguously. */
  lemma QuickBuySourceRoundTrip(productId: nat, quantity: nat)
    ensures ParseQuickBuySource(QuickBuySource(productId, quantity)) == Some((productId, quantity))
  {
    var rest := NatToString(productId) + (QuantityMarker + NatToString(quantity));
    assert QuickBuySource(productId, quantity) == QuickBuyPrefix + rest;
    ParseAfterPrefix(rest);
    IdAndQuantityRoundTrip(productId, quantity);
  }

  lemma ParseAfterPrefix(rest: string)
    ensures ParseQuickBuySource(QuickBuyPrefix + rest) == ParseIdAndQuantity(rest)
  {
    var s := QuickBuyPrefix + rest;
    assert s[..|QuickBuyPrefix|] == QuickBuyPrefix;
    assert s[|QuickBuyPrefix|..] == rest;
  }
}
