/** The sliding cart panel: which parts of the panel are drawn for the given
    cart lines and subtotal, and what each of its buttons asks of the shared
    context and of the cart store. */
module SlideCart {
  import opened Strings
  import opened CartProvider

  /** The subtotal, in rupees, from which delivery is free. */
  const FreeDeliveryThreshold: real := 499.0

  /** The totals footer, with the Clear and Checkout buttons, needs a line. */
  predicate ShowsFooter(items: seq<CartLine>) {
    |items| > 0
  }

  /** "Your cart is empty" takes the place of the list. */
  predicate ShowsEmptyCart(items: seq<CartLine>) {
    |items| == 0
  }

  /** The "(n item/items)" count beside the panel's title. */
  predicate ShowsCount(items: seq<CartLine>) {
    |items| > 0
  }

  function CountNoun(items: seq<CartLine>): string {
    ItemNoun(|items|)
  }

  /** The "Add ₹X more for free delivery" hint, inside the footer. */
  predicate ShowsAddMoreHint(items: seq<CartLine>, subtotal: real) {
    ShowsFooter(items) && subtotal > 0.0 && subtotal < FreeDeliveryThreshold
  }

  /** The "You qualify for free delivery!" banner, inside the footer. */
  predicate ShowsFreeDeliveryBanner(items: seq<CartLine>, subtotal: real) {
    ShowsFooter(items) && subtotal >= FreeDeliveryThreshold
  }

  /** The amount the hint asks for: what is missing to reach the threshold. */
  function AddMoreAmount(items: seq<CartLine>, subtotal: real): (amount: real)
    requires ShowsAddMoreHint(items, subtotal)
    ensures 0.0 < amount < FreeDeliveryThreshold
    ensures subtotal + amount == FreeDeliveryThreshold
  {
    FreeDeliveryThreshold - subtotal
  }

  /** The request of the "−" button of a line. */
  function DecreaseRequest(line: CartLine): CartRequest {
    UpdateQuantity(line.id, line.quantity - 1)
  }

  /** The request of the "+" button of a line. */
  function IncreaseRequest(line: CartLine): CartRequest {
    UpdateQuantity(line.id, line.quantity + 1)
  }

  /** The request of the bin button of a line. */
  function RemoveRequest(line: CartLine): CartRequest {
    RemoveItem(line.id)
  }

  /** The backdrop and the close button both close the panel. */
  function CartDismissed(s: ContextState): (r: ContextState)
    ensures !r.isCartOpen && r.isCheckoutOpen == s.isCheckoutOpen && r.requests == s.requests
  {
    s.(isCartOpen := false)
  }

  /** The Checkout button hands over from the cart panel to checkout. It is
      drawn in the footer only. */
  function CheckoutClicked(s: ContextState, items: seq<CartLine>): (r: ContextState)
    ensures r.requests == s.requests
    ensures ShowsFooter(items) ==> !r.isCartOpen && r.isCheckoutOpen
    ensures !ShowsFooter(items) ==> r == s
  {
    if ShowsFooter(items) then s.(isCartOpen := false, isCheckoutOpen := true) else s
  }

  /** The Clear button asks the store to clear the cart. It is drawn in the
      footer only. */
  function ClearClicked(s: ContextState, items: seq<CartLine>): (r: ContextState)
    ensures ShowsFooter(items) ==> r == Requested(s, ClearCart)
    ensures !ShowsFooter(items) ==> r == s
  {
    if ShowsFooter(items) then Requested(s, ClearCart) else s
  }

  /** The "−" button of line `k`. */
  function DecreaseClicked(s: ContextState, items: seq<CartLine>, k: int): (r: ContextState)
    ensures 0 <= k < |items| ==> r == Requested(s, UpdateQuantity(items[k].id, items[k].quantity - 1))
    ensures !(0 <= k < |items|) ==> r == s
  {
    if 0 <= k < |items| then Requested(s, DecreaseRequest(items[k])) else s
  }

  /** The "+" button of line `k`. */
  function IncreaseClicked(s: ContextState, items: seq<CartLine>, k: int): (r: ContextState)
    ensures 0 <= k < |items| ==> r == Requested(s, UpdateQuantity(items[k].id, items[k].quantity + 1))
    ensures !(0 <= k < |items|) ==> r == s
  {
    if 0 <= k < |items| then Requested(s, IncreaseRequest(items[k])) else s
  }

  /** The bin button of line `k`. */
  function RemoveClicked(s: ContextState, items: seq<CartLine>, k: int): (r: ContextState)
    ensures 0 <= k < |items| ==> r == Requested(s, RemoveItem(items[k].id))
    ensures !(0 <= k < |items|) ==> r == s
  {
    if 0 <= k < |items| then Requested(s, RemoveRequest(items[k])) else s
  }

  /** The panel's body: the list with its footer, or the empty-cart message,
      never both; the title count is drawn with the list and is singular
      exactly for one line. */
  lemma PanelBodyRules(items: seq<CartLine>)
    ensures ShowsFooter(items) <==> !ShowsEmptyCart(items)
    ensures ShowsCount(items) <==> items != []
    ensures CountNoun(items) == "item" <==> |items| == 1
  {
  }

  /** At most one delivery banner is drawn; with the footer drawn and a
      positive subtotal exactly one is; at 499 delivery is free and at 498 the
      hint asks for one more rupee. */
  lemma DeliveryBannerRules(items: seq<CartLine>, subtotal: real)
    ensures !(ShowsAddMoreHint(items, subtotal) && ShowsFreeDeliveryBanner(items, subtotal))
    ensures ShowsAddMoreHint(items, subtotal) || ShowsFreeDeliveryBanner(items, subtotal) <==>
            ShowsFooter(items) && subtotal > 0.0
    ensures ShowsFooter(items) ==> ShowsFreeDeliveryBanner(items, 499.0)
    ensures ShowsFooter(items) ==> !ShowsFreeDeliveryBanner(items, 498.0) && AddMoreAmount(items, 498.0) == 1.0
  {
  }

  /** Each line's buttons ask for exactly one store call, about that line's id
      only: "−" for one less, "+" for one more, the bin for removal; the panel
      flags are untouched. */
  lemma LineButtonRequests(s: ContextState, items: seq<CartLine>, k: int)
    requires 0 <= k < |items|
    ensures DecreaseClicked(s, items, k) ==
            s.(requests := s.requests + [UpdateQuantity(items[k].id, items[k].quantity - 1)])
    ensures IncreaseClicked(s, items, k) ==
            s.(requests := s.requests + [UpdateQuantity(items[k].id, items[k].quantity + 1)])
    ensures RemoveClicked(s, items, k) == s.(requests := s.requests + [RemoveItem(items[k].id)])
  {
  }

  /** Clear asks for clearCart once and changes nothing else; with no line
      (no footer) neither Clear nor Checkout can be clicked. */
  lemma FooterButtonRules(s: ContextState, items: seq<CartLine>)
    ensures ShowsFooter(items) ==> ClearClicked(s, items) == s.(requests := s.requests + [ClearCart])
    ensures !ShowsFooter(items) ==> ClearClicked(s, items) == s && CheckoutClicked(s, items) == s
  {
  }

  method ClickBackdrop(cart: CartContext)
    modifies cart
    ensures cart.State() == CartDismissed(old(cart.State()))
  {
    cart.isCartOpen := false;
  }

  method ClickClose(cart: CartContext)
    modifies cart
    ensures cart.State() == CartDismissed(old(cart.State()))
  {
    cart.isCartOpen := false;
  }

  method ClickCheckout(cart: CartContext, items: seq<CartLine>)
    modifies cart
    ensures cart.State() == CheckoutClicked(old(cart.State()), items)
  {
    if |items| > 0 {
      cart.isCartOpen := false;
      cart.isCheckoutOpen := true;
    }
  }

  method ClickClear(cart: CartContext, items: seq<CartLine>)
    modifies cart
    ensures cart.State() == ClearClicked(old(cart.State()), items)
  {
    if |items| > 0 {
      cart.requests := cart.requests + [ClearCart];
    }
  }

  method ClickDecrease(cart: CartContext, items: seq<CartLine>, k: int)
    modifies cart
    ensures cart.State() == DecreaseClicked(old(cart.State()), items, k)
  {
    if 0 <= k < |items| {
      cart.requests := cart.requests + [UpdateQuantity(items[k].id, items[k].quantity - 1)];
    }
  }

  method ClickIncrease(cart: CartContext, items: seq<CartLine>, k: int)
    modifies cart
    ensures cart.State() == IncreaseClicked(old(cart.State()), items, k)
  {
    if 0 <= k < |items| {
      cart.requests := cart.requests + [UpdateQuantity(items[k].id, items[k].quantity + 1)];
    }
  }

  method ClickRemove(cart: CartContext, items: seq<CartLine>, k: int)
    modifies cart
    ensures cart.State() == RemoveClicked(old(cart.State()), items, k)
  {
    if 0 <= k < |items| {
      cart.requests := cart.requests + [RemoveItem(items[k].id)];
    }
  }
}
