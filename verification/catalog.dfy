/**
 * The in-memory product catalog of app.js: a JavaScript array of product objects served by
 * `GET /products` and changed by the create, update and delete routes. Every handler is a pure function
 * from the array before the request to the array after it together with the reply.
 */
module Catalog {
  import opened Http
  import opened JsParseInt

  /**
   * A JSON value as it can stand in a product's `id` field of a parsed request body. Objects and arrays
   * are not broken down: they never equal a number. JSON has no NaN. A number is kept as an exact real,
   * where `JSON.parse` would round it to the nearest binary64 value.
   */
  datatype Json = JNumber(x: real) | JString(s: string) | JBool(b: bool) | JNull | JComposite | JAbsent

  /** A product: its `id`, the only field the routes inspect, and every other field by name. */
  datatype Product = Product(id: Json, fields: map<string, Json>)

  /** The JSON bodies the catalog routes send. */
  datatype Body =
    | ProductJson(product: Product)
    | CatalogJson(products: seq<Product>)
    | Message(message: string)
    | Error(error: string)

  /** The catalog after a request and the reply sent for it. */
  datatype Outcome = Outcome(catalog: seq<Product>, response: Response<Body>)

  /** The array the process starts with. */
  const InitialCatalog: seq<Product> := [
    Product(JNumber(1.0), map["name" := JString("Product 1"), "price" := JNumber(10.99)]),
    Product(JNumber(2.0), map["name" := JString("Product 2"), "price" := JNumber(9.99)]),
    Product(JNumber(3.0), map["name" := JString("Product 3"), "price" := JNumber(12.99)])
  ]

  const NotFoundReply: Response<Body> := Response(StatusNotFound, Error("Product not found"))
  const DeletedReply: Response<Body> := Response(StatusOk, Message("Product deleted successfully"))

  /**
   * `product.id === parseInt(param)`: strict equality holds only between two numbers with the same value;
   * NaN equals nothing, and a string id such as "1" never equals the number 1.
   */
  predicate Matches(p: Product, key: ParsedNumber) {
    p.id.JNumber? && key.Int? && p.id.x == key.value as real
  }

  predicate NoMatch(ps: seq<Product>, key: ParsedNumber) {
    forall j :: 0 <= j < |ps| ==> !Matches(ps[j], key)
  }

  /** `k` is the index `findIndex` stops at: a match with no match before it. */
  predicate IsFirstMatch(ps: seq<Product>, key: ParsedNumber, k: int) {
    && 0 <= k < |ps|
    && Matches(ps[k], key)
    && forall j :: 0 <= j < k ==> !Matches(ps[j], key)
  }

  /** Number of products that a key matches. */
  function CountMatches(ps: seq<Product>, key: ParsedNumber): nat {
    if ps == [] then 0 else (if Matches(ps[0], key) then 1 else 0) + CountMatches(ps[1..], key)
  }

  /** `Array.prototype.findIndex` with the matching test above: the first match, or -1 when there is none. */
  function FindIndex(ps: seq<Product>, key: ParsedNumber): (k: int)
    ensures k == -1 <==> NoMatch(ps, key)
    ensures k != -1 ==> IsFirstMatch(ps, key, k)
  {
    if ps == [] then -1
    else if Matches(ps[0], key) then 0
    else
      var k := FindIndex(ps[1..], key);
      if k == -1 then -1 else k + 1
  }

  /** `GET /products`: the whole array, in order, unchanged. */
  function List(ps: seq<Product>): (r: Response<Body>)
    ensures r.status == StatusOk && r.body.CatalogJson?
    ensures |r.body.products| == |ps| && forall j :: 0 <= j < |ps| ==> r.body.products[j] == ps[j]
  {
    Response(StatusOk, CatalogJson(ps))
  }

  /**
   * `POST /products/create`: the body becomes the new last element as it is; nothing checks that its id
   * is new, or that it has one.
   */
  function Create(ps: seq<Product>, body: Product): (r: Outcome)
    ensures |r.catalog| == |ps| + 1
    ensures forall j :: 0 <= j < |ps| ==> r.catalog[j] == ps[j]
    ensures r.catalog[|ps|] == body
    ensures r.response == Response(StatusOk, ProductJson(body))
  {
    Outcome(ps + [body], Response(StatusOk, ProductJson(body)))
  }

  /**
   * `PUT /products/:id/update`: the first product whose id is `parseInt(idParam)` is replaced by the body
   * as a whole, whatever id the body carries; without a match the array is left alone and the reply is 404.
   */
  function Update(ps: seq<Product>, idParam: string, body: Product): (r: Outcome)
    ensures |r.catalog| == |ps|
    ensures forall j :: 0 <= j < |ps| ==>
      r.catalog[j] == if IsFirstMatch(ps, ParseInt(idParam), j) then body else ps[j]
    ensures NoMatch(ps, ParseInt(idParam)) ==> r == Outcome(ps, NotFoundReply)
    ensures !NoMatch(ps, ParseInt(idParam)) ==> r.response == Response(StatusOk, ProductJson(body))
  {
    var key := ParseInt(idParam);
    var k := FindIndex(ps, key);
    if k != -1 then
      FirstMatchIsOnly(ps, key, k);
      Outcome(ps[k := body], Response(StatusOk, ProductJson(body)))
    else
      Outcome(ps, NotFoundReply)
  }

  /** The array with the element at `k` spliced out, as `splice(k, 1)` leaves it. */
  function RemoveAt(ps: seq<Product>, k: int): (qs: seq<Product>)
    requires 0 <= k < |ps|
    ensures |qs| == |ps| - 1
    ensures forall j :: 0 <= j < k ==> qs[j] == ps[j]
    ensures forall j :: k <= j < |qs| ==> qs[j] == ps[j + 1]
  {
    ps[..k] + ps[k + 1..]
  }

  /**
   * `DELETE /products/:id/delete`: the first product whose id is `parseInt(idParam)` is spliced out and the
   * others keep their order; without a match the array is left alone and the reply is 404.
   */
  function Delete(ps: seq<Product>, idParam: string): (r: Outcome)
    ensures NoMatch(ps, ParseInt(idParam)) ==> r == Outcome(ps, NotFoundReply)
    ensures !NoMatch(ps, ParseInt(idParam)) ==>
      && r.response == DeletedReply
      && exists k :: IsFirstMatch(ps, ParseInt(idParam), k) && r.catalog == RemoveAt(ps, k)
  {
    var key := ParseInt(idParam);
    var k := FindIndex(ps, key);
    if k != -1 then
      assert IsFirstMatch(ps, key, k);
      Outcome(RemoveAt(ps, k), DeletedReply)
    else
      Outcome(ps, NotFoundReply)
  }

  lemma {:induction false} CountMatchesOfConcat(a: seq<Product>, b: seq<Product>, key: ParsedNumber)
    ensures CountMatches(a + b, key) == CountMatches(a, key) + CountMatches(b, key)
  {
    if a == [] {
      assert a + b == b;
    } else {
      assert (a + b)[1..] == a[1..] + b;
      CountMatchesOfConcat(a[1..], b, key);
    }
  }

  lemma {:induction false} NoMatchCountsZero(ps: seq<Product>, key: ParsedNumber)
    requires NoMatch(ps, key)
    ensures CountMatches(ps, key) == 0
  {
    if ps != [] {
      NoMatchCountsZero(ps[1..], key);
    }
  }

  /**
   * A successful delete removes exactly one of the products the key matches: when ids repeat, the later
   * duplicates stay in the catalog and a further delete reaches the next one.
   */
  lemma DeleteRemovesOneMatch(ps: seq<Product>, idParam: string)
    requires !NoMatch(ps, ParseInt(idParam))
    ensures CountMatches(Delete(ps, idParam).catalog, ParseInt(idParam)) == CountMatches(ps, ParseInt(idParam)) - 1
  {
    var key := ParseInt(idParam);
    var k := FindIndex(ps, key);
    assert Delete(ps, idParam).catalog == RemoveAt(ps, k);
    SpliceRemovesOneMatch(ps, key, k);
  }

  lemma SpliceRemovesOneMatch(ps: seq<Product>, key: ParsedNumber, k: int)
    requires 0 <= k < |ps| && Matches(ps[k], key)
    ensures CountMatches(ps[..k] + ps[k + 1..], key) == CountMatches(ps, key) - 1
  {
    assert ps == ps[..k] + ([ps[k]] + ps[k + 1..]);
    CountMatchesOfConcat(ps[..k], [ps[k]] + ps[k + 1..], key);
    assert ([ps[k]] + ps[k + 1..])[1..] == ps[k + 1..];
    CountMatchesOfConcat(ps[..k], ps[k + 1..], key);
  }

  /**
   * Appending a product under an id no other product has, then deleting by that id, gives back the
   * catalog as it was: delete undoes create.
   */
  lemma DeleteUndoesCreate(ps: seq<Product>, body: Product, idParam: string)
    requires NoMatch(ps, ParseInt(idParam))
    requires Matches(body, ParseInt(idParam))
    ensures Delete(Create(ps, body).catalog, idParam) == Outcome(ps, DeletedReply)
  {
    var key := ParseInt(idParam);
    var qs := Create(ps, body).catalog;
    assert IsFirstMatch(qs, key, |ps|);
    assert FindIndex(qs, key) == |ps|;
    assert RemoveAt(qs, |ps|) == ps;
  }

  /**
   * Repeating an update whose body keeps an id the key matches changes nothing more: the second request
   * finds the same position and writes the same product there.
   */
  lemma UpdateIdempotent(ps: seq<Product>, idParam: string, body: Product)
    requires Matches(body, ParseInt(idParam))
    ensures Update(Update(ps, idParam, body).catalog, idParam, body) == Update(ps, idParam, body)
  {
    var key := ParseInt(idParam);
    var k := FindIndex(ps, key);
    if k != -1 {
      var qs := ps[k := body];
      assert Update(ps, idParam, body) == Outcome(qs, Response(StatusOk, ProductJson(body)));
      assert FindIndex(qs, key) == k by {
        assert IsFirstMatch(qs, key, k);
        FirstMatchIsUnique(qs, key, k, FindIndex(qs, key));
      }
      assert qs[k := body] == qs;
    }
  }

  /** At most one index is the first match. */
  lemma FirstMatchIsUnique(ps: seq<Product>, key: ParsedNumber, i: int, j: int)
    requires IsFirstMatch(ps, key, i)
    requires IsFirstMatch(ps, key, j)
    ensures i == j
  {
  }

  /** Once `k` is the first match, no other index is. */
  lemma FirstMatchIsOnly(ps: seq<Product>, key: ParsedNumber, k: int)
    requires IsFirstMatch(ps, key, k)
    ensures forall j :: IsFirstMatch(ps, key, j) <==> j == k
  {
    forall j | IsFirstMatch(ps, key, j) {
      FirstMatchIsUnique(ps, key, k, j);
    }
  }

  /**
   * The `:id` parameter is read by `parseInt`, so anything after the numeral that is not a further digit
   * is ignored: `/products/2abc/update` updates the product with id 2, and likewise for delete.
   */
  lemma IdParamSuffixIgnored(ps: seq<Product>, n: int, rest: string, body: Product)
    requires rest == [] || !IsDigit(rest[0], 10)
    requires n == 0 ==> rest == [] || (rest[0] != 'x' && rest[0] != 'X')
    ensures Update(ps, ShowInt(n) + rest, body) == Update(ps, ShowInt(n), body)
    ensures Delete(ps, ShowInt(n) + rest) == Delete(ps, ShowInt(n))
  {
    ParseIntOfNumeralPrefix(n, rest);
    ParseIntOfShowInt(n);
  }

  /** Ids are unique, as the initial catalog has them; nothing in the routes keeps it so. */
  predicate UniqueIds(ps: seq<Product>) {
    forall i, j :: 0 <= i < j < |ps| ==> ps[i].id != ps[j].id
  }

  /** Create accepts a product whose id is already taken, after which update and delete see only the first. */
  lemma CreateAllowsDuplicateIds()
    ensures UniqueIds(InitialCatalog)
    ensures !UniqueIds(Create(InitialCatalog, InitialCatalog[0]).catalog)
    ensures CountMatches(Create(InitialCatalog, InitialCatalog[0]).catalog, Int(1)) == 2
  {
    var qs := Create(InitialCatalog, InitialCatalog[0]).catalog;
    assert qs == InitialCatalog + [InitialCatalog[0]];
    assert qs[0].id == qs[3].id;
    CountMatchesOfConcat(InitialCatalog, [InitialCatalog[0]], Int(1));
    assert CountMatches([InitialCatalog[0]], Int(1)) == 1;
    var tail := InitialCatalog[1..];
    assert NoMatch(tail, Int(1));
    NoMatchCountsZero(tail, Int(1));
  }

  lemma {:induction false} ZeroCountNoMatch(ps: seq<Product>, key: ParsedNumber)
    requires CountMatches(ps, key) == 0
    ensures NoMatch(ps, key)
  {
    if ps != [] {
      ZeroCountNoMatch(ps[1..], key);
      assert forall j :: 1 <= j < |ps| ==> ps[j] == ps[1..][j - 1];
    }
  }

  lemma ReplaceCountsMatches(ps: seq<Product>, key: ParsedNumber, k: int, body: Product)
    requires 0 <= k < |ps| && Matches(ps[k], key)
    ensures CountMatches(ps[k := body], key) == CountMatches(ps, key) - 1 + (if Matches(body, key) then 1 else 0)
  {
    var qs := ps[k := body];
    assert ps == ps[..k] + ([ps[k]] + ps[k + 1..]);
    assert qs == ps[..k] + ([body] + ps[k + 1..]);
    CountMatchesOfConcat(ps[..k], [ps[k]] + ps[k + 1..], key);
    CountMatchesOfConcat(ps[..k], [body] + ps[k + 1..], key);
    assert ([ps[k]] + ps[k + 1..])[1..] == ps[k + 1..];
    assert ([body] + ps[k + 1..])[1..] == ps[k + 1..];
  }

  /**
   * A successful update trades the product it replaces for the body: the number of products the key
   * matches drops by one, and grows back by one only if the body carries the same id.
   */
  lemma UpdateCountsMatches(ps: seq<Product>, idParam: string, body: Product)
    requires !NoMatch(ps, ParseInt(idParam))
    ensures CountMatches(Update(ps, idParam, body).catalog, ParseInt(idParam))
         == CountMatches(ps, ParseInt(idParam)) - 1 + (if Matches(body, ParseInt(idParam)) then 1 else 0)
  {
    var key := ParseInt(idParam);
    var k := FindIndex(ps, key);
    assert Update(ps, idParam, body).catalog == ps[k := body];
    ReplaceCountsMatches(ps, key, k, body);
  }

  /**
   * The body replaces the product whole, id included: when the key matched a single product and the body
   * carries another id, the same request sent again finds nothing and answers 404.
   */
  lemma RenumberingUpdateIsNotRepeatable(ps: seq<Product>, idParam: string, body: Product)
    requires CountMatches(ps, ParseInt(idParam)) == 1
    requires !Matches(body, ParseInt(idParam))
    ensures var once := Update(ps, idParam, body);
      && once.response.status == StatusOk
      && Update(once.catalog, idParam, body) == Outcome(once.catalog, NotFoundReply)
  {
    var key := ParseInt(idParam);
    if NoMatch(ps, key) {
      NoMatchCountsZero(ps, key);
    }
    UpdateCountsMatches(ps, idParam, body);
    ZeroCountNoMatch(Update(ps, idParam, body).catalog, key);
  }
}
