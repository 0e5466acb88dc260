/**
 * The cart store as the pages see it. Its implementation is not part of
 * this model, so the store records the calls the pages make on it, in order.
 */
module Cart {
  import opened Types

  /** `addToCart(product)` and `clearCart()`. */
  datatype CartCall = Add(product: Product) | Clear

  class CartStore {
    var calls: seq<CartCall>

    constructor ()
      ensures calls == []
    {
      calls := [];
    }

    method AddToCart(p: Product)
      modifies this
      ensures calls == old(calls) + [Add(p)]
    {
      calls := calls + [Add(p)];
    }

    method ClearCart()
      modifies this
      ensures calls == old(calls) + [Clear]
    {
      calls := calls + [Clear];
    }
  }
}
