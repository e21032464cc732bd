/** `searchController.searchAllProducts`: passes the request query to the
    search service and answers with the found products that are on sale. */
module SearchController {
  import opened Common
  import opened ProductModel

  /** The request's query string, `req.query`. */
  type Query = map<string, string>

  const NoMatch := "No products match the search criteria"
  const NoneAvailable := "No available products match the search criteria"
  const Retrieved := "Product(s) retrieved successfully"
  const InternalError := "Internal server error"

  /** `products.filter(p => p.productStatus === 'available' && p.expiryDate > now)`. */
  function OnSaleOnly(ps: seq<Product>, now: int): (r: seq<Product>)
    ensures |r| <= |ps|
    ensures forall i :: 0 <= i < |r| ==> OnSale(r[i], now) && r[i] in ps
    decreases |ps|
  {
    if ps == [] then []
    else (if OnSale(ps[0], now) then [ps[0]] else []) + OnSaleOnly(ps[1..], now)
  }

  /** Every product on sale is kept. */
  lemma {:induction false} OnSaleOnlyKeepsAll(ps: seq<Product>, now: int, i: nat)
    requires i < |ps| && OnSale(ps[i], now)
    ensures ps[i] in OnSaleOnly(ps, now)
    decreases |ps|
  {
    if i > 0 {
      OnSaleOnlyKeepsAll(ps[1..], now, i - 1);
    }
  }

  /** The filter keeps the order: filtering a concatenation is concatenating
      the filtered parts. */
  lemma {:induction false} OnSaleOnlyConcat(a: seq<Product>, b: seq<Product>, now: int)
    ensures OnSaleOnly(a + b, now) == OnSaleOnly(a, now) + OnSaleOnly(b, now)
    decreases |a|
  {
    if a == [] {
      assert a + b == b;
    } else {
      assert (a + b)[1..] == a[1..] + b;
      OnSaleOnlyConcat(a[1..], b, now);
    }
  }

  /** When every product is on sale, all are kept, in the same order. */
  lemma {:induction false} OnSaleOnlyAll(ps: seq<Product>, now: int)
    requires forall i :: 0 <= i < |ps| ==> OnSale(ps[i], now)
    ensures OnSaleOnly(ps, now) == ps
    decreases |ps|
  {
    if ps != [] {
      OnSaleOnlyAll(ps[1..], now);
    }
  }

  /** Nothing is kept exactly when no product is on sale. */
  lemma OnSaleOnlyEmpty(ps: seq<Product>, now: int)
    ensures OnSaleOnly(ps, now) == [] <==> forall i :: 0 <= i < |ps| ==> !OnSale(ps[i], now)
  {
    if exists i :: 0 <= i < |ps| && OnSale(ps[i], now) {
      var i :| 0 <= i < |ps| && OnSale(ps[i], now);
      OnSaleOnlyKeepsAll(ps, now, i);
    }
  }

  /** The `items` array: each product as its JSON object. */
  function Render(ps: seq<Product>): seq<Json>
  {
    seq(|ps|, i requires 0 <= i < |ps| => JObj(ps[i].json))
  }

  /** The handler: the search service is called with the query. */
  function SearchAllProducts(query: Query, service: Query -> Attempt<seq<Product>>, now: int): Reply
  {
    match service(query)
    case Threw(_) => MessageReply(500, InternalError)
    case Ok(ps) =>
      if ps == [] then MessageReply(404, NoMatch)
      else
        var items := OnSaleOnly(ps, now);
        if items == [] then Reply(404, map["status" := JNum(404.0), "message" := JStr(NoneAvailable)])
        else Reply(200, map["status" := JNum(200.0), "message" := JStr(Retrieved), "items" := JArr(Render(items))])
  }

  /** The reply depends on the service only through its answer for the
      request's own query: the query is passed on unchanged. */
  lemma QueryPassedThrough(query: Query, s1: Query -> Attempt<seq<Product>>, s2: Query -> Attempt<seq<Product>>, now: int)
    requires s1(query) == s2(query)
    ensures SearchAllProducts(query, s1, now) == SearchAllProducts(query, s2, now)
  {
  }

  /** A service that throws gives 500. */
  lemma SearchFailure(query: Query, service: Query -> Attempt<seq<Product>>, now: int)
    requires service(query).Threw?
    ensures SearchAllProducts(query, service, now) == MessageReply(500, InternalError)
  {
  }

  /** No products found: 404 with a message and no `status` field. */
  lemma NothingFound(query: Query, service: Query -> Attempt<seq<Product>>, now: int)
    requires service(query) == Ok([])
    ensures SearchAllProducts(query, service, now) == MessageReply(404, NoMatch)
    ensures "status" !in SearchAllProducts(query, service, now).body
  {
  }

  /** Products found but none on sale: the other 404, which carries a
      `status` field. */
  lemma NothingOnSale(query: Query, service: Query -> Attempt<seq<Product>>, now: int)
    requires service(query).Ok? && service(query).value != []
    requires forall i :: 0 <= i < |service(query).value| ==> !OnSale(service(query).value[i], now)
    ensures SearchAllProducts(query, service, now) ==
      Reply(404, map["status" := JNum(404.0), "message" := JStr(NoneAvailable)])
  {
    OnSaleOnlyEmpty(service(query).value, now);
  }

  /** Success: 200, and the items are exactly the products on sale, in the
      order the service gave them. */
  lemma SearchSuccess(query: Query, service: Query -> Attempt<seq<Product>>, now: int, i: nat)
    requires service(query).Ok? && i < |service(query).value| && OnSale(service(query).value[i], now)
    ensures SearchAllProducts(query, service, now) ==
      Reply(200, map["status" := JNum(200.0), "message" := JStr(Retrieved),
                     "items" := JArr(Render(OnSaleOnly(service(query).value, now)))])
  {
    OnSaleOnlyKeepsAll(service(query).value, now, i);
  }

  /** When every product found is on sale, all are returned in order. */
  lemma AllOnSaleReturned(query: Query, service: Query -> Attempt<seq<Product>>, now: int)
    requires service(query).Ok? && service(query).value != []
    requires forall i :: 0 <= i < |service(query).value| ==> OnSale(service(query).value[i], now)
    ensures SearchAllProducts(query, service, now) ==
      Reply(200, map["status" := JNum(200.0), "message" := JStr(Retrieved), "items" := JArr(Render(service(query).value))])
  {
    OnSaleOnlyAll(service(query).value, now);
  }

  /** The mixed case of the tests: one product unavailable but unexpired, the
      other available but expired. */
  lemma MixedNothingOnSale(query: Query, service: Query -> Attempt<seq<Product>>, now: int, a: Product, b: Product)
    requires service(query) == Ok([a, b])
    requires a.productStatus == "unavailable" && a.expiryDate > now
    requires b.productStatus == "available" && b.expiryDate < now
    ensures SearchAllProducts(query, service, now) ==
      Reply(404, map["status" := JNum(404.0), "message" := JStr(NoneAvailable)])
  {
    NothingOnSale(query, service, now);
  }
}
