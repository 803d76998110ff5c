/** The part of the shared cart context that the panels read and write: the
    two panel flags, and a record of the cart-store operations the panels
    request. The store's own handling of those requests is not modelled; the
    cart lines, the subtotal and the item count reach the panels as inputs. */
module CartProvider {

  /** What the cart panel reads of one cart line besides its display fields. */
  datatype CartLine = CartLine(id: string, quantity: int)

  /** A call into the cart store, with its arguments. */
  datatype CartRequest =
    | UpdateQuantity(id: string, quantity: int)
    | RemoveItem(id: string)
    | ClearCart

  /** A snapshot of the shared context. */
  datatype ContextState = ContextState(
    isCartOpen: bool,
    isCheckoutOpen: bool,
    requests: seq<CartRequest>)

  /** Both panels closed and nothing requested yet. */
  const InitialContext: ContextState := ContextState(false, false, [])

  /** The context after one more request to the cart store. */
  function Requested(s: ContextState, request: CartRequest): (r: ContextState)
    ensures r.isCartOpen == s.isCartOpen && r.isCheckoutOpen == s.isCheckoutOpen
    ensures |r.requests| == |s.requests| + 1 && r.requests[..|s.requests|] == s.requests
    ensures r.requests[|s.requests|] == request
  {
    s.(requests := s.requests + [request])
  }

  /** The shared context object that every component holds a reference to. */
  class CartContext {
    var isCartOpen: bool
    var isCheckoutOpen: bool
    var requests: seq<CartRequest>

    function State(): ContextState
      reads this
    {
      ContextState(isCartOpen, isCheckoutOpen, requests)
    }

    constructor ()
      ensures State() == InitialContext
    {
      isCartOpen := false;
      isCheckoutOpen := false;
      requests := [];
    }
  }
}
