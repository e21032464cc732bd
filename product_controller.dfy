/** `ProductController.listSingleUserProduct`: a buyer's view of one product.
    The product lookup (`Product.findByPk`) is an input. */
module ProductController {
  import opened Common
  import opened ProductModel

  const NotFound := "Product not found"
  const Unavailable := "Product is currently unavailable"
  const Expired := "Product has expired"
  const Retrieved := "Product details retrieved successfully by buyer"
  const InternalError := "Internal server error"

  function Sum(rs: seq<int>): int
    decreases |rs|
  {
    if rs == [] then 0 else rs[0] + Sum(rs[1..])
  }

  /** The mean of the ratings. */
  function Mean(rs: seq<int>): real
    requires |rs| > 0
  {
    Sum(rs) as real / |rs| as real
  }

  /** The `averageRating` field. With no reviews there is no mean; the model
      puts `null` there. */
  function AverageRating(rs: seq<int>): Json
  {
    if rs == [] then JNull else JNum(Mean(rs))
  }

  /** `{ status, error }`. */
  function ErrorReply(status: nat, error: string): Reply
  {
    Reply(status, map["status" := JNum(status as real), "error" := JStr(error)])
  }

  /** The product's JSON with `averageRating` added. */
  function Item(p: Product): map<string, Json>
  {
    p.json["averageRating" := AverageRating(p.ratings)]
  }

  /** The handler: not found, then not available, then expired; otherwise
      the product with its mean rating. */
  function ListSingleUserProduct(found: Attempt<Option<Product>>, now: int): Reply
  {
    match found
    case Threw(_) => ErrorReply(500, InternalError)
    case Ok(None) => ErrorReply(404, NotFound)
    case Ok(Some(p)) =>
      if p.productStatus != "available" then ErrorReply(404, Unavailable)
      else if p.expiryDate <= now then ErrorReply(404, Expired)
      else Reply(200, map["status" := JNum(200.0), "message" := JStr(Retrieved), "item" := JObj(Item(p))])
  }

  /** The check order: a product that is not available is reported
      unavailable whatever its expiry date; an available one past its expiry
      is reported expired. */
  lemma ChecksInOrder(p: Product, now: int)
    ensures p.productStatus != "available" ==> ListSingleUserProduct(Ok(Some(p)), now) == ErrorReply(404, Unavailable)
    ensures p.productStatus == "available" && p.expiryDate <= now ==>
      ListSingleUserProduct(Ok(Some(p)), now) == ErrorReply(404, Expired)
    ensures ListSingleUserProduct(Ok(None), now) == ErrorReply(404, NotFound)
    ensures forall e :: ListSingleUserProduct(Threw(e), now) == ErrorReply(500, InternalError)
  {
  }

  /** The detail view and the search filter agree: a product is shown exactly
      when it is on sale. */
  lemma DetailShownIffOnSale(p: Product, now: int)
    ensures ListSingleUserProduct(Ok(Some(p)), now).status == 200 <==> OnSale(p, now)
  {
  }

  /** A product on sale is answered with 200, the success message and the
      item. The item is the product's JSON unchanged, extended only with
      `averageRating`, which is the mean rating when there are reviews. */
  lemma ItemExtendsProduct(p: Product, now: int)
    requires OnSale(p, now)
    ensures var r := ListSingleUserProduct(Ok(Some(p)), now);
      r.status == 200 && r.body.Keys == {"status", "message", "item"} &&
      r.body["status"] == JNum(200.0) && r.body["message"] == JStr(Retrieved) &&
      r.body["item"].JObj? &&
      var item := r.body["item"].fields;
      item.Keys == p.json.Keys + {"averageRating"} &&
      (forall k :: k in p.json && k != "averageRating" ==> item[k] == p.json[k]) &&
      (|p.ratings| > 0 ==> item["averageRating"] == JNum(Mean(p.ratings)))
  {
  }

  /** Ratings 4 and 5 average 4.5. */
  lemma MeanExample(rs: seq<int>)
    requires rs == [4, 5]
    ensures Mean(rs) == 4.5
  {
    assert Sum(rs) == 9 by {
      assert rs[1..] == [5];
      assert Sum([5]) == 5 by { assert [5][1..] == []; }
    }
  }

  lemma {:induction false} SumBounds(rs: seq<int>, lo: real, hi: real)
    requires forall i :: 0 <= i < |rs| ==> lo <= rs[i] as real <= hi
    ensures (|rs| as real) * lo <= Sum(rs) as real <= (|rs| as real) * hi
    decreases |rs|
  {
    if rs != [] {
      SumBounds(rs[1..], lo, hi);
      var m := |rs[1..]| as real;
      assert (|rs| as real) * lo == m * lo + lo;
      assert (|rs| as real) * hi == m * hi + hi;
    }
  }

  /** The mean lies between the lowest and highest possible rating. */
  lemma MeanBounds(rs: seq<int>, lo: int, hi: int)
    requires |rs| > 0
    requires forall i :: 0 <= i < |rs| ==> lo <= rs[i] <= hi
    ensures lo as real <= Mean(rs) <= hi as real
  {
    SumBounds(rs, lo as real, hi as real);
    QuotientBounds(lo as real, Sum(rs) as real, hi as real, |rs| as real);
  }

  lemma QuotientBounds(lo: real, total: real, hi: real, n: real)
    requires n > 0.0 && n * lo <= total <= n * hi
    ensures lo <= total / n <= hi
  {
  }
}
