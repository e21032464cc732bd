/** A product as the search and detail controllers see it. The database
    model and its queries are not part of this model: products arrive as
    values. */
module ProductModel {
  import opened Common

  /** Status, expiry date (milliseconds since the epoch), the ratings of its
      reviews, and the object `toJSON()` gives. */
  datatype Product = Product(productStatus: string, expiryDate: int, ratings: seq<int>, json: map<string, Json>)

  /** A product buyers may see: status `available` and an expiry date later
      than now. */
  predicate OnSale(p: Product, now: int)
  {
    p.productStatus == "available" && p.expiryDate > now
  }
}
