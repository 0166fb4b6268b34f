/**
 The API procedures of the storefront: the anonymous cart session taken
 from (or minted into) the `cart_session` cookie, catalog listing with its
 three sort orders, and the input defaults and validation of the `random`,
 `cart.add` and `contact.submit` procedures. Storage calls are outside the
 model: the listing works on the rows storage returned.
 */
module Routers {
  import opened Text
  import opened Json
  import Schema

  // ---------------------------------------------------------------------------
  // The cart session cookie
  // ---------------------------------------------------------------------------

  const SessionKey: string := "cart_session="

  /** The pattern `cart_session=([^;]+)` matches at position `p` of `h`. */
  predicate MatchAt(h: string, p: nat) {
    && p + |SessionKey| < |h|
    && h[p..p + |SessionKey|] == SessionKey
    && h[p + |SessionKey|] != ';'
  }

  /** The first position at or after `p` where the pattern matches. */
  function SearchFrom(h: string, p: nat): (r: Option<nat>)
    ensures r.None? ==> forall q :: p <= q < |h| ==> !MatchAt(h, q)
    ensures r.Some? ==> p <= r.value && MatchAt(h, r.value)
    ensures r.Some? ==> forall q :: p <= q < r.value ==> !MatchAt(h, q)
    decreases |h| - p
  {
    if p >= |h| then None
    else if MatchAt(h, p) then Some(p)
    else SearchFrom(h, p + 1)
  }

  /** The longest prefix of `s` without a `;`. */
  function RunUntilSemicolon(s: string): (r: string)
    ensures ';' !in r
    ensures |r| <= |s| && r == s[..|r|]
    ensures |r| == |s| || s[|r|] == ';'
  {
    if s == [] || s[0] == ';' then [] else [s[0]] + RunUntilSemicolon(s[1..])
  }

  /** The value captured by the first match of the session pattern, if any. */
  function SessionFromCookie(h: string): (r: Option<string>)
    ensures r.Some? ==> r.value != "" && ';' !in r.value
    ensures r.None? <==> forall q :: 0 <= q < |h| ==> !MatchAt(h, q)
  {
    match SearchFrom(h, 0)
    case None => None
    case Some(p) =>
      var v := RunUntilSemicolon(h[p + |SessionKey|..]);
      assert v != [];
      Some(v)
  }

  /** The digit of `Number.prototype.toString(36)`. */
  function Base36Char(d: nat): (c: char)
    requires d < 36
    ensures c != ';' && c != ' '
  {
    if d < 10 then DigitChar(d) else ('a' as int + (d - 10)) as char
  }

  /** A freshly minted id: `sess_<clock>_<up to nine base-36 digits of a random draw>`. */
  function MintSessionId(now: nat, randomDigits: seq<nat>): (id: string)
    requires |randomDigits| <= 9 && forall i :: 0 <= i < |randomDigits| ==> randomDigits[i] < 36
    ensures id != "" && ';' !in id
  {
    var suffix := seq(|randomDigits|, i requires 0 <= i < |randomDigits| => Base36Char(randomDigits[i]));
    "sess_" + NatToString(now) + "_" + suffix
  }

  const CookieAttributes: string := "; Path=/; HttpOnly; SameSite=Lax; Max-Age=31536000"

  /** The session id a request uses, and the `Set-Cookie` headers the response gets. */
  datatype Session = Session(id: string, setCookie: seq<string>)

  /**
   A request whose `Cookie` header carries the session pattern keeps that
   session and sets no header; otherwise a new id is minted from the clock
   and the random draw, and exactly one cookie carrying it is set.
   */
  function GetSessionId(cookie: Option<string>, now: nat, randomDigits: seq<nat>): (s: Session)
    requires |randomDigits| <= 9 && forall i :: 0 <= i < |randomDigits| ==> randomDigits[i] < 36
    ensures SessionFromCookie(OrElse(cookie, "")).Some? ==>
      s.id == SessionFromCookie(OrElse(cookie, "")).value && s.setCookie == []
    ensures SessionFromCookie(OrElse(cookie, "")).None? ==>
      && s.id == MintSessionId(now, randomDigits)
      && s.setCookie == [SessionKey + s.id + CookieAttributes]
    ensures s.id != "" && ';' !in s.id
  {
    var header := OrElse(cookie, "");
    match SessionFromCookie(header)
    case Some(v) => Session(v, [])
    case None =>
      var id := MintSessionId(now, randomDigits);
      Session(id, [SessionKey + id + CookieAttributes])
  }

  /** A request without a `Cookie` header always mints. */
  lemma MissingCookieMints(now: nat, randomDigits: seq<nat>)
    requires |randomDigits| <= 9 && forall i :: 0 <= i < |randomDigits| ==> randomDigits[i] < 36
    ensures |GetSessionId(None, now, randomDigits).setCookie| == 1
    ensures GetSessionId(None, now, randomDigits).id == MintSessionId(now, randomDigits)
  {
  }

  /**
   The cookie a browser sends back, `cart_session=<id>` possibly followed by
   `;` and further cookies, yields the same session id: the minted id is
   stable across requests.
   */
  lemma SessionCookieRoundTrip(id: string, rest: string, now: nat, randomDigits: seq<nat>)
    requires id != "" && ';' !in id
    requires rest == "" || rest[0] == ';'
    requires |randomDigits| <= 9 && forall i :: 0 <= i < |randomDigits| ==> randomDigits[i] < 36
    ensures GetSessionId(Some(SessionKey + id + rest), now, randomDigits) == Session(id, [])
  {
    var h := SessionKey + id + rest;
    assert h[..|SessionKey|] == SessionKey;
    assert h[|SessionKey|] == id[0];
    assert MatchAt(h, 0);
    var tail := h[|SessionKey|..];
    assert tail == id + rest;
    RunOverPlain(id, rest);
  }

  lemma {:induction false} RunOverPlain(id: string, rest: string)
    requires ';' !in id
    requires rest == "" || rest[0] == ';'
    ensures RunUntilSemicolon(id + rest) == id
  {
    if id == [] {
      assert id + rest == rest;
    } else {
      assert (id + rest)[0] == id[0] && (id + rest)[1..] == id[1..] + rest;
      RunOverPlain(id[1..], rest);
    }
  }

  /** A minted session, sent back by the browser, is recognised on the next request. */
  lemma MintedSessionIsStable(now: nat, randomDigits: seq<nat>, now': nat, randomDigits': seq<nat>)
    requires |randomDigits| <= 9 && forall i :: 0 <= i < |randomDigits| ==> randomDigits[i] < 36
    requires |randomDigits'| <= 9 && forall i :: 0 <= i < |randomDigits'| ==> randomDigits'[i] < 36
    ensures var first := GetSessionId(None, now, randomDigits);
            GetSessionId(Some(SessionKey + first.id), now', randomDigits') == Session(first.id, [])
  {
    var first := GetSessionId(None, now, randomDigits);
    assert SessionKey + first.id == SessionKey + first.id + "";
    SessionCookieRoundTrip(first.id, "", now', randomDigits');
  }

  // ---------------------------------------------------------------------------
  // products.list
  // ---------------------------------------------------------------------------

  datatype SortKey = PriceAsc | PriceDesc | Name

  /** Where the rows come from: a non-empty category selects by category. */
  datatype ListSource = AllProducts | ByCategory(category: string)

  function ListSourceFor(category: Option<string>): (src: ListSource)
    ensures src.ByCategory? <==> Truthy(category)
    ensures src.ByCategory? ==> src.category == category.value
  {
    if Truthy(category) then ByCategory(category.value) else AllProducts
  }

  /** Every element of `s` is related to every later one. */
  predicate SortedBy(s: seq<Schema.Product>, le: (Schema.Product, Schema.Product) -> bool) {
    forall i, j :: 0 <= i < j < |s| ==> le(s[i], s[j])
  }

  ghost predicate TotalPreorder(le: (Schema.Product, Schema.Product) -> bool) {
    && (forall a, b :: le(a, b) || le(b, a))
    && (forall a, b, c :: le(a, b) && le(b, c) ==> le(a, c))
  }

  /** `localeCompare` seen as a total preorder on titles. */
  ghost predicate TitleOrder(titleLe: (string, string) -> bool) {
    && (forall a, b :: titleLe(a, b) || titleLe(b, a))
    && (forall a, b, c :: titleLe(a, b) && titleLe(b, c) ==> titleLe(a, c))
  }

  /** Insert `x` before the first element it is related to. */
  function Insert(x: Schema.Product, s: seq<Schema.Product>, le: (Schema.Product, Schema.Product) -> bool)
    : (r: seq<Schema.Product>)
    requires TotalPreorder(le) && SortedBy(s, le)
    ensures SortedBy(r, le)
    ensures multiset(r) == multiset(s) + multiset{x}
  {
    if s == [] then [x]
    else if le(x, s[0]) then
      InsertAtFront(x, s, le);
      [x] + s
    else
      var tail := Insert(x, s[1..], le);
      InsertBehind(x, s, tail, le);
      [s[0]] + tail
  }

  lemma InsertAtFront(x: Schema.Product, s: seq<Schema.Product>, le: (Schema.Product, Schema.Product) -> bool)
    requires TotalPreorder(le) && SortedBy(s, le)
    requires s != [] && le(x, s[0])
    ensures SortedBy([x] + s, le)
  {
    var r := [x] + s;
    forall i, j | 0 <= i < j < |r|
      ensures le(r[i], r[j])
    {
      if i == 0 {
        if j > 1 {
          assert le(s[0], s[j - 1]);
        }
      } else {
        assert r[i] == s[i - 1] && r[j] == s[j - 1];
      }
    }
  }

  lemma InsertBehind(x: Schema.Product, s: seq<Schema.Product>, tail: seq<Schema.Product>,
                     le: (Schema.Product, Schema.Product) -> bool)
    requires TotalPreorder(le) && SortedBy(s, le)
    requires s != [] && !le(x, s[0])
    requires SortedBy(tail, le) && multiset(tail) == multiset(s[1..]) + multiset{x}
    ensures SortedBy([s[0]] + tail, le)
    ensures multiset([s[0]] + tail) == multiset(s) + multiset{x}
  {
    assert s == [s[0]] + s[1..];
    var r := [s[0]] + tail;
    forall j | 0 <= j < |tail|
      ensures le(s[0], tail[j])
    {
      assert tail[j] in multiset(tail);
      if tail[j] == x {
        assert le(s[0], x);
      } else {
        assert tail[j] in multiset(s[1..]);
        var k :| 0 <= k < |s[1..]| && s[1..][k] == tail[j];
        assert s[k + 1] == tail[j];
      }
    }
    forall i, j | 0 <= i < j < |r|
      ensures le(r[i], r[j])
    {
      if i == 0 {
        assert r[j] == tail[j - 1];
      } else {
        assert r[i] == tail[i - 1] && r[j] == tail[j - 1];
      }
    }
  }

  /** A stable insertion sort: the order `Array.prototype.sort` produces for this comparator. */
  function Sort(s: seq<Schema.Product>, le: (Schema.Product, Schema.Product) -> bool): (r: seq<Schema.Product>)
    requires TotalPreorder(le)
    ensures SortedBy(r, le)
    ensures multiset(r) == multiset(s)
  {
    if s == [] then []
    else
      assert s == [s[0]] + s[1..];
      Insert(s[0], Sort(s[1..], le), le)
  }

  lemma PriceAscIsPreorder()
    ensures TotalPreorder((a: Schema.Product, b: Schema.Product) => a.price <= b.price)
  {
  }

  lemma PriceDescIsPreorder()
    ensures TotalPreorder((a: Schema.Product, b: Schema.Product) => a.price >= b.price)
  {
  }

  lemma TitleIsPreorder(titleLe: (string, string) -> bool)
    requires TitleOrder(titleLe)
    ensures TotalPreorder((a: Schema.Product, b: Schema.Product) => titleLe(a.title, b.title))
  {
    var le := (a: Schema.Product, b: Schema.Product) => titleLe(a.title, b.title);
    forall a: Schema.Product, b: Schema.Product
      ensures le(a, b) || le(b, a)
    {
      assert titleLe(a.title, b.title) || titleLe(b.title, a.title);
    }
    forall a: Schema.Product, b: Schema.Product, c: Schema.Product | le(a, b) && le(b, c)
      ensures le(a, c)
    {
      assert titleLe(a.title, b.title) && titleLe(b.title, c.title);
    }
  }

  /**
   The listing: price ascending, price descending, or title order, each a
   rearrangement of the fetched rows; no sort key leaves them as fetched.
   */
  function ListProducts(fetched: seq<Schema.Product>, sortBy: Option<SortKey>,
                        titleLe: (string, string) -> bool): (r: seq<Schema.Product>)
    requires sortBy == Some(Name) ==> TitleOrder(titleLe)
    ensures multiset(r) == multiset(fetched)
    ensures sortBy == Some(PriceAsc) ==> forall i, j :: 0 <= i < j < |r| ==> r[i].price <= r[j].price
    ensures sortBy == Some(PriceDesc) ==> forall i, j :: 0 <= i < j < |r| ==> r[i].price >= r[j].price
    ensures sortBy == Some(Name) ==> forall i, j :: 0 <= i < j < |r| ==> titleLe(r[i].title, r[j].title)
    ensures sortBy.None? ==> r == fetched
  {
    match sortBy
    case None => fetched
    case Some(PriceAsc) =>
      PriceAscIsPreorder();
      Sort(fetched, (a: Schema.Product, b: Schema.Product) => a.price <= b.price)
    case Some(PriceDesc) =>
      PriceDescIsPreorder();
      Sort(fetched, (a: Schema.Product, b: Schema.Product) => a.price >= b.price)
    case Some(Name) =>
      TitleIsPreorder(titleLe);
      Sort(fetched, (a: Schema.Product, b: Schema.Product) => titleLe(a.title, b.title))
  }

  /**
   The `products.list` query: the rows come from the source the category
   selects (`byCategory` and `all` stand for the two database reads), then
   are ordered per `sortBy`.
   */
  function ListQuery(category: Option<string>, sortBy: Option<SortKey>,
                     all: seq<Schema.Product>, byCategory: string -> seq<Schema.Product>,
                     titleLe: (string, string) -> bool): (r: seq<Schema.Product>)
    requires sortBy == Some(Name) ==> TitleOrder(titleLe)
    ensures Truthy(category) ==> multiset(r) == multiset(byCategory(category.value))
    ensures !Truthy(category) ==> multiset(r) == multiset(all)
    ensures sortBy.None? ==> r == (if Truthy(category) then byCategory(category.value) else all)
    ensures sortBy == Some(PriceAsc) ==> forall i, j :: 0 <= i < j < |r| ==> r[i].price <= r[j].price
    ensures sortBy == Some(PriceDesc) ==> forall i, j :: 0 <= i < j < |r| ==> r[i].price >= r[j].price
    ensures sortBy == Some(Name) ==> forall i, j :: 0 <= i < j < |r| ==> titleLe(r[i].title, r[j].title)
  {
    var fetched := match ListSourceFor(category)
      case AllProducts => all
      case ByCategory(c) => byCategory(c);
    ListProducts(fetched, sortBy, titleLe)
  }

  // ---------------------------------------------------------------------------
  // Input defaults and validation
  // ---------------------------------------------------------------------------

  /** `products.random`: an absent or zero limit becomes 9. */
  function RandomLimit(limit: Option<int>): (n: int)
    ensures limit.None? || limit.value == 0 ==> n == 9
    ensures limit.Some? && limit.value != 0 ==> n == limit.value
  {
    if limit.None? || limit.value == 0 then 9 else limit.value
  }

  /** `products.similar`: an absent limit becomes 4. */
  function SimilarLimit(limit: Option<int>): (n: int)
    ensures limit.None? ==> n == 4
    ensures limit.Some? ==> n == limit.value
  {
    if limit.None? then 4 else limit.value
  }

  /** `cart.add`: an absent quantity becomes 1. */
  function CartAddQuantity(quantity: Option<int>): (n: int)
    ensures quantity.None? ==> n == 1
    ensures quantity.Some? ==> n == quantity.value
  {
    if quantity.None? then 1 else quantity.value
  }

  datatype ContactField = NameField | EmailField | PhoneField

  datatype ContactOutcome =
    | Rejected(issues: seq<ContactField>)
    | Submitted(name: string, email: string, phone: string, source: string, notice: Notice)

  /**
   `contact.submit`: name and phone must be non-empty and the email must pass
   the address check (`isEmail`, the validator's pattern); every failing field
   is reported. Otherwise the request is stored with source defaulting to
   `home` and the owner is told about it.
   */
  function ContactSubmit(name: string, email: string, phone: string, source: Option<string>,
                         isEmail: string -> bool): (o: ContactOutcome)
    ensures o.Submitted? <==> name != "" && phone != "" && isEmail(email)
    ensures o.Rejected? ==>
      && (NameField in o.issues <==> name == "")
      && (PhoneField in o.issues <==> phone == "")
      && (EmailField in o.issues <==> !isEmail(email))
    ensures o.Submitted? ==> o.name == name && o.email == email && o.phone == phone
    ensures o.Submitted? ==> o.source == (if source.Some? then source.value else "home")
    ensures o.Submitted? ==> o.notice.title == "Новая заявка с сайта (" + o.source + ")"
    ensures o.Submitted? ==>
      o.notice.content == "Имя: " + o.name + "\nEmail: " + o.email + "\nТелефон: " + o.phone + "\nИсточник: " + o.source
  {
    var issues := (if name == "" then [NameField] else [])
                + (if isEmail(email) then [] else [EmailField])
                + (if phone == "" then [PhoneField] else []);
    if issues != [] then Rejected(issues)
    else
      var src := if source.Some? then source.value else Schema.DefaultSource;
      Submitted(name, email, phone, src,
        Notice("Новая заявка с сайта (" + src + ")",
               "Имя: " + name + "\nEmail: " + email + "\nТелефон: " + phone + "\nИсточник: " + src))
  }
}
