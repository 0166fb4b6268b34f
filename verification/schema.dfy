/**
 The relational records every other part of the storefront manipulates:
 users, products, contact requests and cart items, with the column defaults
 the table definitions declare and the length and width bounds a row must
 respect. Timestamps (`createdAt`, `updatedAt`, `lastSignedIn`) are filled by
 the database clock and are not modelled.
 */
module Schema {
  import opened Text

  /** MySQL `int` columns are signed 32-bit. */
  predicate IsInt32(x: int) {
    -0x8000_0000 <= x <= 0x7FFF_FFFF
  }

  /** A `varchar(n)` column holds at most `n` characters. */
  predicate FitsVarchar(s: string, n: nat) {
    |s| <= n
  }

  // ---------------------------------------------------------------------------
  // users
  // ---------------------------------------------------------------------------

  datatype Role = UserRole | AdminRole

  datatype User = User(
    id: nat,
    openId: string,
    name: Option<string>,
    email: Option<string>,
    loginMethod: Option<string>,
    role: Role)

  /** Insert a user; an omitted role becomes `user`. */
  function NewUser(id: nat, openId: string, name: Option<string>, email: Option<string>,
                   loginMethod: Option<string>, role: Option<Role>): (u: User)
    ensures u.id == id && u.openId == openId
    ensures u.role == (if role.Some? then role.value else UserRole)
    ensures u.name == name && u.email == email && u.loginMethod == loginMethod
    ensures UserFits(u) <==>
      && |openId| <= 64
      && (email.Some? ==> |email.value| <= 320)
      && (loginMethod.Some? ==> |loginMethod.value| <= 64)
  {
    User(id, openId, name, email, loginMethod, if role.Some? then role.value else UserRole)
  }

  predicate UserFits(u: User) {
    && FitsVarchar(u.openId, 64)
    && (u.email.Some? ==> FitsVarchar(u.email.value, 320))
    && (u.loginMethod.Some? ==> FitsVarchar(u.loginMethod.value, 64))
  }

  // ---------------------------------------------------------------------------
  // products
  // ---------------------------------------------------------------------------

  datatype Product = Product(
    id: nat,
    sku: string,
    category: string,
    title: string,
    description: Option<string>,
    fullText: Option<string>,
    imageUrl: Option<string>,
    price: int,           // kopecks
    quantity: int,        // units in stock
    unit: Option<string>) // nullable

  /**
   The values an INSERT supplies for a product. `None` means the column was
   left out of the statement; for `unit`, `Some(None)` is an explicit NULL.
   */
  datatype ProductInsert = ProductInsert(
    sku: string,
    category: string,
    title: string,
    description: Option<string>,
    fullText: Option<string>,
    imageUrl: Option<string>,
    price: Option<int>,
    quantity: Option<int>,
    unit: Option<Option<string>>)

  const DefaultUnit: string := "KGM"

  /** The row the database stores for an insert: omitted columns take their defaults. */
  function NewProduct(id: nat, ins: ProductInsert): (p: Product)
    ensures p.id == id && p.sku == ins.sku && p.category == ins.category && p.title == ins.title
    ensures p.description == ins.description && p.fullText == ins.fullText && p.imageUrl == ins.imageUrl
    ensures ins.price.Some? ==> p.price == ins.price.value
    ensures ins.quantity.Some? ==> p.quantity == ins.quantity.value
    ensures ins.unit.Some? ==> p.unit == ins.unit.value
    ensures ProductFits(p) <==>
      && |ins.sku| <= 32 && |ins.category| <= 64 && |ins.title| <= 255
      && (ins.price.Some? ==> IsInt32(ins.price.value))
      && (ins.quantity.Some? ==> IsInt32(ins.quantity.value))
      && (ins.unit.Some? && ins.unit.value.Some? ==> |ins.unit.value.value| <= 16)
  {
    Product(id, ins.sku, ins.category, ins.title, ins.description, ins.fullText, ins.imageUrl,
            if ins.price.Some? then ins.price.value else 0,
            if ins.quantity.Some? then ins.quantity.value else 0,
            if ins.unit.Some? then ins.unit.value else Some(DefaultUnit))
  }

  /** Omitting price, quantity and unit stores 0, 0 and `KGM`. */
  lemma ProductDefaults(id: nat, ins: ProductInsert)
    requires ins.price.None? && ins.quantity.None? && ins.unit.None?
    ensures NewProduct(id, ins).price == 0
    ensures NewProduct(id, ins).quantity == 0
    ensures NewProduct(id, ins).unit == Some("KGM")
  {
  }

  predicate ProductFits(p: Product) {
    && FitsVarchar(p.sku, 32)
    && FitsVarchar(p.category, 64)
    && FitsVarchar(p.title, 255)
    && IsInt32(p.price)
    && IsInt32(p.quantity)
    && (p.unit.Some? ==> FitsVarchar(p.unit.value, 16))
  }

  // ---------------------------------------------------------------------------
  // contact_requests
  // ---------------------------------------------------------------------------

  datatype ContactRequest = ContactRequest(
    id: nat,
    name: string,
    email: string,
    phone: string,
    source: string)

  const DefaultSource: string := "home"

  function NewContactRequest(id: nat, name: string, email: string, phone: string,
                             source: Option<string>): (c: ContactRequest)
    ensures c.name == name && c.email == email && c.phone == phone
    ensures source.Some? ==> c.source == source.value
    ensures source.None? ==> c.source == "home"
    ensures ContactFits(c) <==>
      && |name| <= 255 && |email| <= 320 && |phone| <= 32
      && (source.Some? ==> |source.value| <= 64)
  {
    ContactRequest(id, name, email, phone, if source.Some? then source.value else DefaultSource)
  }

  predicate ContactFits(c: ContactRequest) {
    && FitsVarchar(c.name, 255)
    && FitsVarchar(c.email, 320)
    && FitsVarchar(c.phone, 32)
    && FitsVarchar(c.source, 64)
  }

  // ---------------------------------------------------------------------------
  // cart_items
  // ---------------------------------------------------------------------------

  datatype CartItem = CartItem(
    id: nat,
    sessionId: string,
    productId: int,
    quantity: int)

  function NewCartItem(id: nat, sessionId: string, productId: int, quantity: Option<int>): (c: CartItem)
    ensures c.sessionId == sessionId && c.productId == productId
    ensures quantity.Some? ==> c.quantity == quantity.value
    ensures quantity.None? ==> c.quantity == 1
  {
    CartItem(id, sessionId, productId, if quantity.Some? then quantity.value else 1)
  }

  predicate CartItemFits(c: CartItem) {
    FitsVarchar(c.sessionId, 64) && IsInt32(c.productId) && IsInt32(c.quantity)
  }

  /**
   The constraints the cart table declares: every row fits its columns and
   `id` is the only key. Nothing ties `(sessionId, productId)` together.
   */
  predicate CartTableValid(rows: seq<CartItem>) {
    && (forall i :: 0 <= i < |rows| ==> CartItemFits(rows[i]))
    && (forall i, j :: 0 <= i < j < |rows| ==> rows[i].id != rows[j].id)
  }

  /** Two rows for the same session and product satisfy every declared constraint. */
  lemma CartTableAllowsDuplicatePair()
    ensures var rows := [NewCartItem(1, "s", 7, None), NewCartItem(2, "s", 7, Some(3))];
      && CartTableValid(rows)
      && rows[0].sessionId == rows[1].sessionId
      && rows[0].productId == rows[1].productId
  {
  }
}
