/**
 The product card of the catalog grid: the stock overlay and badge, the two
 buttons, the unit label and the optional description. Both buttons add one
 unit; "buy now" then opens the cart, but only after the addition succeeded.
 */
module ProductCard {
  import opened Text
  import Schema
  import CartPage

  datatype StockClass = OutOfStock | LowStock | InStockPlenty

  /** `quantity <= 0` shows the overlay, `0 < quantity < 10` the low-stock badge, anything above neither. */
  function Classify(quantity: int): (c: StockClass)
    ensures c == OutOfStock <==> quantity <= 0
    ensures c == LowStock <==> 0 < quantity < 10
    ensures c == InStockPlenty <==> quantity >= 10
  {
    if quantity <= 0 then OutOfStock else if quantity < 10 then LowStock else InStockPlenty
  }

  /** What a card draws. */
  datatype CardView = CardView(
    outOfStockOverlay: bool,
    lowStockBadge: bool,
    addDisabled: bool,
    buyDisabled: bool,
    description: Option<string>,
    unitLabel: string)

  function View(p: Schema.Product, pending: bool): (v: CardView)
    ensures v.outOfStockOverlay <==> Classify(p.quantity) == OutOfStock
    ensures v.lowStockBadge <==> Classify(p.quantity) == LowStock
    ensures !(v.outOfStockOverlay && v.lowStockBadge)
    ensures v.addDisabled <==> p.quantity <= 0 || pending
    ensures v.buyDisabled == v.addDisabled
    ensures v.description.Some? <==> Truthy(p.description)
    ensures v.description.Some? ==> v.description.value == p.description.value
    ensures v.unitLabel == CartPage.GetUnitLabel(p.unit)
  {
    var disabled := p.quantity <= 0 || pending;
    CardView(p.quantity <= 0, 0 < p.quantity < 10, disabled, disabled,
             if Truthy(p.description) then p.description else None,
             CartPage.GetUnitLabel(p.unit))
  }

  /** An out-of-stock card can never be added from: both buttons are disabled. */
  lemma OutOfStockDisablesBoth(p: Schema.Product, pending: bool)
    requires Classify(p.quantity) == OutOfStock
    ensures View(p, pending).addDisabled && View(p, pending).buyDisabled
  {
  }

  /** "Add to cart": one unit of this product. */
  function HandleAddToCart(p: Schema.Product): (r: CartPage.AddRequest)
    ensures r.productId == p.id && r.quantity == 1
  {
    CartPage.AddRequest(p.id, 1)
  }

  /** "Buy now": the same request, then the cart page once the server confirmed the addition. */
  datatype BuyNow = BuyNow(request: CartPage.AddRequest, navigateTo: Option<string>)

  function HandleBuyNow(p: Schema.Product, addSucceeded: bool): (r: BuyNow)
    ensures r.request == HandleAddToCart(p)
    ensures r.navigateTo.Some? <==> addSucceeded
    ensures r.navigateTo.Some? ==> r.navigateTo.value == "/cart"
  {
    BuyNow(CartPage.AddRequest(p.id, 1), if addSucceeded then Some("/cart") else None)
  }
}
