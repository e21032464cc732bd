/** `checkCartMiddleware`: a buyer's request goes on only when the buyer's
    active cart is found. The cart query (`Cart.findOne`) is an input. */
module CartMiddleware {
  import opened Common

  datatype Cart = Cart(id: nat, buyerId: nat, status: string)

  /** `next()`, a 404 reply without `next`, or `next(error)`. */
  datatype CartDecision = Continue | NotFound(status: nat) | Forward(error: string)

  function CheckCart(lookup: Attempt<Option<Cart>>): CartDecision
  {
    match lookup
    case Ok(Some(_)) => Continue
    case Ok(None) => NotFound(404)
    case Threw(e) => Forward(e)
  }

  /** The arguments of the calls of `next` for a decision; `None` is `next()`. */
  function NextCalls(d: CartDecision): seq<Option<string>>
  {
    match d
    case Continue => [None]
    case NotFound(_) => []
    case Forward(e) => [Some(e)]
  }

  /** `next` is called at most once: with no argument exactly when a cart was
      found, with the error exactly when the query threw, and not at all
      when there is no cart. */
  lemma NextCalledAtMostOnce(lookup: Attempt<Option<Cart>>)
    ensures |NextCalls(CheckCart(lookup))| <= 1
    ensures NextCalls(CheckCart(lookup)) == [None] <==> lookup.Ok? && lookup.value.Some?
    ensures NextCalls(CheckCart(lookup)) == [] <==> lookup == Ok(None)
    ensures lookup.Threw? <==> |NextCalls(CheckCart(lookup))| == 1 && NextCalls(CheckCart(lookup))[0].Some?
    ensures lookup.Threw? ==> NextCalls(CheckCart(lookup)) == [Some(lookup.message)]
  {
  }
}
