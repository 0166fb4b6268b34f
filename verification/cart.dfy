/**
 The cart page: the quantity buttons, the totals in the summary box, the
 unit labels and the item-count wording. A cart line is what the cart query
 returns: the stored row joined with its product, which is absent when the
 product no longer exists. Such a line is not drawn, contributes nothing to
 the money total, but still counts towards the number of items.
 */
module CartPage {
  import opened Text
  import Schema

  datatype CartLine = CartLine(id: nat, productId: int, quantity: int, product: Option<Schema.Product>)

  /** The `cart.add` mutation a product page or card issues. */
  datatype AddRequest = AddRequest(productId: int, quantity: int)

  /** The mutation a quantity button issues. */
  datatype CartRequest = RemoveRequest(productId: int) | UpdateRequest(productId: int, quantity: int)

  /** A requested quantity below 1 removes the line; any other is stored as requested. */
  function HandleUpdateQuantity(productId: int, quantity: int): (r: CartRequest)
    ensures r.productId == productId
    ensures r.RemoveRequest? <==> quantity < 1
    ensures r.UpdateRequest? ==> r.quantity == quantity
  {
    if quantity < 1 then RemoveRequest(productId) else UpdateRequest(productId, quantity)
  }

  /** The minus button of a drawn line. */
  function Decrement(line: CartLine): CartRequest
    requires line.product.Some?
  {
    HandleUpdateQuantity(line.product.value.id, line.quantity - 1)
  }

  /** The plus button of a drawn line. */
  function Increment(line: CartLine): CartRequest
    requires line.product.Some?
  {
    HandleUpdateQuantity(line.product.value.id, line.quantity + 1)
  }

  /** Minus on a line of one removes it; minus on more lowers it by one; plus always raises it by one. */
  lemma StepperButtons(line: CartLine)
    requires line.product.Some? && line.quantity >= 1
    ensures line.quantity == 1 ==> Decrement(line) == RemoveRequest(line.product.value.id)
    ensures line.quantity > 1 ==> Decrement(line) == UpdateRequest(line.product.value.id, line.quantity - 1)
    ensures Increment(line) == UpdateRequest(line.product.value.id, line.quantity + 1)
  {
  }

  // ---------------------------------------------------------------------------
  // Totals
  // ---------------------------------------------------------------------------

  /** The money total: lines without a product are skipped. */
  function TotalPrice(lines: seq<CartLine>): int {
    if lines == [] then 0
    else TotalPrice(lines[..|lines| - 1])
         + (var last := lines[|lines| - 1]; if last.product.None? then 0 else last.product.value.price * last.quantity)
  }

  /** The item count: every line counts, with or without a product. */
  function TotalItems(lines: seq<CartLine>): int {
    if lines == [] then 0 else TotalItems(lines[..|lines| - 1]) + lines[|lines| - 1].quantity
  }

  /** The lines the page draws, in cart order. */
  function Visible(lines: seq<CartLine>): (r: seq<CartLine>)
    ensures |r| <= |lines|
    ensures forall i :: 0 <= i < |r| ==> r[i].product.Some? && r[i] in lines
    ensures forall i :: 0 <= i < |lines| && lines[i].product.Some? ==> lines[i] in r
  {
    if lines == [] then []
    else
      var init := Visible(lines[..|lines| - 1]);
      var last := lines[|lines| - 1];
      assert forall i :: 0 <= i < |lines| - 1 ==> lines[i] == lines[..|lines| - 1][i];
      if last.product.Some? then init + [last] else init
  }

  /**
   The drawn lines keep the cart's order and multiplicity: a cart cut in two
   draws the first part's lines before the second's, and a single line is
   drawn exactly when its product exists.
   */
  lemma {:induction false} VisibleAppend(a: seq<CartLine>, b: seq<CartLine>)
    ensures Visible(a + b) == Visible(a) + Visible(b)
    decreases |b|
  {
    if b == [] {
      assert a + b == a;
    } else {
      var b' := b[..|b| - 1];
      var last := b[|b| - 1];
      assert (a + b)[..|a + b| - 1] == a + b';
      assert (a + b)[|a + b| - 1] == last;
      VisibleAppend(a, b');
    }
  }

  lemma VisibleSingle(l: CartLine)
    ensures Visible([l]) == (if l.product.Some? then [l] else [])
  {
    assert [l][..0] == [];
  }

  /** The total adds up the lines the page draws, and nothing else. */
  lemma {:induction false} TotalPriceIsDrawnTotal(lines: seq<CartLine>)
    ensures TotalPrice(lines) == TotalPrice(Visible(lines))
  {
    if lines != [] {
      var init := lines[..|lines| - 1];
      var last := lines[|lines| - 1];
      TotalPriceIsDrawnTotal(init);
      if last.product.Some? {
        var v := Visible(init) + [last];
        assert v[..|v| - 1] == Visible(init);
      }
    }
  }

  function HiddenItems(lines: seq<CartLine>): int {
    if lines == [] then 0
    else HiddenItems(lines[..|lines| - 1]) + (if lines[|lines| - 1].product.None? then lines[|lines| - 1].quantity else 0)
  }

  /** The item count is the drawn lines' quantities plus the quantities of lines whose product is gone. */
  lemma {:induction false} TotalItemsSplits(lines: seq<CartLine>)
    ensures TotalItems(lines) == TotalItems(Visible(lines)) + HiddenItems(lines)
  {
    if lines != [] {
      var init := lines[..|lines| - 1];
      var last := lines[|lines| - 1];
      TotalItemsSplits(init);
      if last.product.Some? {
        var v := Visible(init) + [last];
        assert v[..|v| - 1] == Visible(init);
      }
    }
  }

  /** A cart whose only line lost its product: nothing to pay, yet the count shows its quantity. */
  lemma MissingProductCountsButCostsNothing(line: CartLine)
    requires line.product.None?
    ensures TotalPrice([line]) == 0
    ensures TotalItems([line]) == line.quantity
    ensures Visible([line]) == []
  {
    assert [line][..0] == [];
  }

  // ---------------------------------------------------------------------------
  // Labels
  // ---------------------------------------------------------------------------

  /** The unit after a price: `KGM`, `PCE` and `LTR` are named; anything else reads as kilograms. */
  function GetUnitLabel(unit: Option<string>): (r: string)
    ensures r in {"кг", "шт", "л"}
    ensures r == "шт" <==> unit == Some("PCE")
    ensures r == "л" <==> unit == Some("LTR")
  {
    if unit == Some("KGM") then "кг"
    else if unit == Some("PCE") then "шт"
    else if unit == Some("LTR") then "л"
    else "кг"
  }

  /** The word after the item count. */
  function CountWord(n: int): (r: string)
    ensures r == "товар" <==> n == 1
    ensures r == "товара" <==> n != 1 && n < 5
    ensures r == "товаров" <==> n != 1 && n >= 5
  {
    if n == 1 then "товар" else if n < 5 then "товара" else "товаров"
  }

  // ---------------------------------------------------------------------------
  // The page
  // ---------------------------------------------------------------------------

  datatype CartView =
    | LoadingView
    | EmptyView
    | FilledView(rows: seq<CartLine>, itemCount: int, countWord: string, goodsTotal: int, payable: int)

  /** An absent cart reads as an empty one. */
  function View(loading: bool, data: Option<seq<CartLine>>): (v: CartView)
    ensures loading ==> v == LoadingView
    ensures !loading && (data.None? || data.value == []) ==> v == EmptyView
    ensures v.FilledView? ==>
      && data.Some? && data.value != []
      && v.rows == Visible(data.value)
      && v.itemCount == TotalItems(data.value)
      && v.countWord == CountWord(v.itemCount)
      && v.goodsTotal == TotalPrice(data.value)
      && v.payable == v.goodsTotal
    ensures !loading && data.Some? && data.value != [] ==> v.FilledView?
  {
    var lines := if data.Some? then data.value else [];
    if loading then LoadingView
    else if lines == [] then EmptyView
    else
      var items := TotalItems(lines);
      var total := TotalPrice(lines);
      FilledView(Visible(lines), items, CountWord(items), total, total)
  }

  /** The amount payable is the goods total of the drawn rows: delivery is not added on this page. */
  lemma PayableIsDrawnGoods(data: seq<CartLine>)
    requires data != []
    ensures var v := View(false, Some(data));
      v.FilledView? && v.payable == TotalPrice(v.rows) && v.goodsTotal == TotalPrice(data)
  {
    TotalPriceIsDrawnTotal(data);
  }
}
