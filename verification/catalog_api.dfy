/**
 The public catalog feed: every product as `{ id, name, price }`, where the
 price is the kopeck amount shown as roubles with a point and exactly two
 decimals.
 */
module CatalogApi {
  import opened Text
  import opened Json
  import Schema
  import Money

  const EntryKeys: set<string> := {"id", "name", "price"}

  function Entry(p: Schema.Product): (e: Json)
    ensures e.JObj? && e.fields.Keys == EntryKeys
    ensures e.fields["id"] == JInt(p.id)
    ensures e.fields["name"] == JStr(p.title)
    ensures e.fields["price"].JStr? && Money.ParseFixed2(e.fields["price"].s, '.') == Some(p.price)
  {
    Money.Fixed2RoundTrip(p.price, '.');
    JObj(map["id" := JInt(p.id), "name" := JStr(p.title), "price" := JStr(Money.Fixed2(p.price, '.'))])
  }

  /** One entry per product, in the order the store returned them. */
  function Catalog(products: seq<Schema.Product>): (entries: seq<Json>)
    ensures |entries| == |products|
    ensures forall i :: 0 <= i < |products| ==> entries[i] == Entry(products[i])
  {
    seq(|products|, i requires 0 <= i < |products| => Entry(products[i]))
  }

  /** `GET /api/catalog`: the array, or a 500 when reading the products fails. */
  function CatalogEndpoint(products: Option<seq<Schema.Product>>): (r: Response)
    ensures products.None? ==> r == ErrorResponse(500, "Internal server error")
    ensures products.Some? ==> r.status == 200 && r.body == JsonBody(JArr(Catalog(products.value)))
  {
    if products.None? then ErrorResponse(500, "Internal server error")
    else Response(200, JsonBody(JArr(Catalog(products.value))))
  }

  /** The entries determine the products' ids, titles and prices. */
  lemma CatalogKeepsIdNamePrice(products: seq<Schema.Product>, i: int)
    requires 0 <= i < |products|
    ensures var e := Catalog(products)[i];
      && e.fields["id"] == JInt(products[i].id)
      && e.fields["name"] == JStr(products[i].title)
      && Money.ParseFixed2(e.fields["price"].s, '.') == Some(products[i].price)
  {
  }

  /** 10000, 20050 and 100 kopecks are listed as `100.00`, `200.50` and `1.00`. */
  lemma PriceExamples()
    ensures Money.Fixed2(10000, '.') == "100.00"
    ensures Money.Fixed2(20050, '.') == "200.50"
    ensures Money.Fixed2(100, '.') == "1.00"
  {
    assert NatToString(1) == "1";
    assert NatToString(10) == "10";
    assert NatToString(100) == "100";
    assert NatToString(200) == "200";
  }

  /** Two products at 100 and 200.50 roubles become exactly two entries, in order. */
  lemma TwoProductCatalog(a: Schema.Product, b: Schema.Product)
    requires a.id == 1 && a.title == "Товар 1" && a.price == 10000
    requires b.id == 2 && b.title == "Товар 2" && b.price == 20050
    ensures Catalog([a, b]) == [
      JObj(map["id" := JInt(1), "name" := JStr("Товар 1"), "price" := JStr("100.00")]),
      JObj(map["id" := JInt(2), "name" := JStr("Товар 2"), "price" := JStr("200.50")])]
  {
    PriceExamples();
  }
}
