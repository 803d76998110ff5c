/** The checkout modal: payment choice, the two-stage timed order placement
    (processing, then a success screen that dwells before resetting), and the
    ways to dismiss the modal. The two `setTimeout` callbacks are events of
    their own; a timer is pending from the moment it is scheduled until it
    fires. */
module CheckoutModal {
  import opened CartProvider

  datatype PaymentMethod = Card | Cash | Digital

  /** The two scheduled callbacks of an order placement. */
  datatype Timer = ProcessingTimer | DwellTimer

  /** The modal's own state, and the timers it has scheduled. */
  datatype ModalState = ModalState(
    paymentMethod: PaymentMethod,
    isProcessing: bool,
    isComplete: bool,
    pending: multiset<Timer>)

  /** Everything the modal reads or writes: the shared context and its own state. */
  datatype Session = Session(ctx: ContextState, modal: ModalState)

  /** Card payment, neither processing nor complete, no timer. */
  const InitialModal: ModalState := ModalState(Card, false, false, multiset{})

  /** The modal's invariant: at most one timer chain is under way, and the
      pending timer is the one that matches the flags. */
  predicate Consistent(m: ModalState) {
    if m.isProcessing then !m.isComplete && m.pending == multiset{ProcessingTimer}
    else if m.isComplete then m.pending == multiset{DwellTimer}
    else m.pending == multiset{}
  }

  /** The modal draws nothing while checkout is closed. */
  predicate IsRendered(s: Session) {
    s.ctx.isCheckoutOpen
  }

  /** The success screen replaces the form once the order is complete. */
  predicate ShowsSuccess(s: Session) {
    IsRendered(s) && s.modal.isComplete
  }

  /** The form, with its "Back to cart" and close buttons, the payment
      buttons and the place-order button, is drawn whenever the order is not
      complete, also while it is processing. */
  predicate ShowsForm(s: Session) {
    IsRendered(s) && !s.modal.isComplete
  }

  /** The place-order button is drawn with the form and disabled while processing. */
  predicate PlaceOrderEnabled(s: Session) {
    ShowsForm(s) && !s.modal.isProcessing
  }

  /** The mock card form is drawn with the form when card payment is chosen. */
  predicate ShowsCardForm(s: Session) {
    ShowsForm(s) && s.modal.paymentMethod == Card
  }

  /** A click on "Place Order": processing starts and the first timer is
      scheduled. A click on a disabled or absent button does nothing. */
  function PlaceOrderClicked(s: Session): (r: Session)
    ensures Consistent(s.modal) ==> Consistent(r.modal)
    ensures r.ctx == s.ctx && r.modal.paymentMethod == s.modal.paymentMethod
  {
    if PlaceOrderEnabled(s)
    then s.(modal := s.modal.(isProcessing := true, pending := s.modal.pending + multiset{ProcessingTimer}))
    else s
  }

  /** The first timer fires: processing ends, the order is complete and the
      dwell timer is scheduled, whether or not checkout is still open. */
  function ProcessingTimerFired(s: Session): (r: Session)
    ensures Consistent(s.modal) ==> Consistent(r.modal)
    ensures r.ctx == s.ctx && r.modal.paymentMethod == s.modal.paymentMethod
    ensures ProcessingTimer !in s.modal.pending ==> r == s
  {
    if ProcessingTimer in s.modal.pending
    then s.(modal := s.modal.(isProcessing := false, isComplete := true,
                              pending := s.modal.pending - multiset{ProcessingTimer} + multiset{DwellTimer}))
    else s
  }

  /** The dwell timer fires: the cart is cleared, the order is no longer
      complete and checkout closes. */
  function DwellTimerFired(s: Session): (r: Session)
    ensures Consistent(s.modal) ==> Consistent(r.modal)
    ensures r.ctx.isCartOpen == s.ctx.isCartOpen && r.modal.paymentMethod == s.modal.paymentMethod
    ensures s.ctx.requests <= r.ctx.requests
    ensures DwellTimer !in s.modal.pending ==> r == s
  {
    if DwellTimer in s.modal.pending
    then Session(
      s.ctx.(isCheckoutOpen := false, requests := s.ctx.requests + [ClearCart]),
      s.modal.(isComplete := false, pending := s.modal.pending - multiset{DwellTimer}))
    else s
  }

  /** A click on the backdrop closes checkout unless an order is processing
      or complete. */
  function BackdropClicked(s: Session): (r: Session)
    ensures r.modal == s.modal && r.ctx.isCartOpen == s.ctx.isCartOpen && r.ctx.requests == s.ctx.requests
    ensures !(IsRendered(s) && !s.modal.isProcessing && !s.modal.isComplete) ==> r == s
  {
    if IsRendered(s) && !s.modal.isProcessing && !s.modal.isComplete
    then s.(ctx := s.ctx.(isCheckoutOpen := false))
    else s
  }

  /** "Back to cart": checkout closes and the cart panel opens. The button
      checks neither processing nor completion; it is drawn with the form. */
  function BackToCartClicked(s: Session): (r: Session)
    ensures r.modal == s.modal && r.ctx.requests == s.ctx.requests
    ensures ShowsForm(s) ==> !r.ctx.isCheckoutOpen && r.ctx.isCartOpen
    ensures !ShowsForm(s) ==> r == s
  {
    if ShowsForm(s)
    then s.(ctx := s.ctx.(isCheckoutOpen := false, isCartOpen := true))
    else s
  }

  /** The close button: checkout closes. Like "Back to cart" it is drawn with
      the form, processing or not. */
  function CloseClicked(s: Session): (r: Session)
    ensures r.modal == s.modal && r.ctx.requests == s.ctx.requests && r.ctx.isCartOpen == s.ctx.isCartOpen
    ensures ShowsForm(s) ==> !r.ctx.isCheckoutOpen
    ensures !ShowsForm(s) ==> r == s
  {
    if ShowsForm(s)
    then s.(ctx := s.ctx.(isCheckoutOpen := false))
    else s
  }

  /** A click on one of the three payment buttons. The buttons stay live
      while an order is processing; the choice does not touch the order. */
  function PaymentMethodChosen(s: Session, choice: PaymentMethod): (r: Session)
    ensures r.ctx == s.ctx
    ensures r.modal.isProcessing == s.modal.isProcessing && r.modal.isComplete == s.modal.isComplete
    ensures r.modal.pending == s.modal.pending
    ensures ShowsForm(s) ==> r.modal.paymentMethod == choice
    ensures !ShowsForm(s) ==> r == s
    ensures Consistent(s.modal) ==> Consistent(r.modal)
  {
    if ShowsForm(s)
    then s.(modal := s.modal.(paymentMethod := choice))
    else s
  }

  /** What the invariant gives: never processing and complete at once, and at
      most one timer pending, the one that matches the flags. */
  lemma ConsistentFlags(m: ModalState)
    requires Consistent(m)
    ensures !(m.isProcessing && m.isComplete)
    ensures |m.pending| <= 1
    ensures ProcessingTimer in m.pending <==> m.isProcessing
    ensures DwellTimer in m.pending <==> m.isComplete
  {
  }

  /** Placing an order from an idle open checkout sets processing and starts
      exactly one timer chain, touching nothing else. */
  lemma PlaceOrderFromIdle(s: Session)
    requires Consistent(s.modal) && IsRendered(s) && !s.modal.isProcessing && !s.modal.isComplete
    ensures PlaceOrderClicked(s) ==
            s.(modal := s.modal.(isProcessing := true, pending := multiset{ProcessingTimer}))
  {
  }

  /** Placing an order is not possible while processing (the button is
      disabled), once complete (the button is gone) or with checkout closed
      (nothing is drawn): the click changes nothing, so no second order. */
  lemma PlaceOrderGuard(s: Session)
    requires !IsRendered(s) || s.modal.isProcessing || s.modal.isComplete
    ensures PlaceOrderClicked(s) == s
  {
  }

  /** The first timer turns processing into complete and schedules the dwell timer. */
  lemma ProcessingCompletes(s: Session)
    requires Consistent(s.modal) && s.modal.isProcessing
    ensures ProcessingTimerFired(s) ==
            s.(modal := s.modal.(isProcessing := false, isComplete := true, pending := multiset{DwellTimer}))
  {
  }

  /** The dwell timer requests clearCart, closes checkout and returns the
      modal's flags and timers to their initial values; only the chosen
      payment method is kept. */
  lemma DwellResets(s: Session)
    requires Consistent(s.modal) && s.modal.isComplete
    ensures DwellTimerFired(s).modal == InitialModal.(paymentMethod := s.modal.paymentMethod)
    ensures DwellTimerFired(s).ctx ==
            s.ctx.(isCheckoutOpen := false, requests := s.ctx.requests + [ClearCart])
  {
  }

  /** The backdrop closes an open checkout exactly when no order is
      processing or complete; otherwise nothing changes. */
  lemma BackdropRule(s: Session)
    requires IsRendered(s)
    ensures !BackdropClicked(s).ctx.isCheckoutOpen <==> !s.modal.isProcessing && !s.modal.isComplete
    ensures BackdropClicked(s).ctx.isCheckoutOpen ==> BackdropClicked(s) == s
  {
  }

  /** Dismissal is only partly guarded: while an order is processing, "Back
      to cart" and the close button still close checkout, and the pending
      timer is left in place to fire later. */
  lemma DismissWhileProcessing(s: Session)
    requires IsRendered(s) && s.modal.isProcessing && !s.modal.isComplete
    ensures !CloseClicked(s).ctx.isCheckoutOpen && CloseClicked(s).modal == s.modal
    ensures !BackToCartClicked(s).ctx.isCheckoutOpen && BackToCartClicked(s).ctx.isCartOpen
    ensures BackToCartClicked(s).modal == s.modal
    ensures BackdropClicked(s) == s
  {
  }

  /** The success screen cannot be dismissed: none of the three closing
      controls changes anything while the order is complete. */
  lemma SuccessNotDismissable(s: Session)
    requires s.modal.isComplete
    ensures BackdropClicked(s) == s && BackToCartClicked(s) == s && CloseClicked(s) == s
  {
  }

  /** Card payment is the initial choice; with the form drawn, the card form
      shows exactly when card is chosen, and a payment button sets the choice. */
  lemma PaymentRules(s: Session, choice: PaymentMethod)
    ensures InitialModal.paymentMethod == Card
    ensures ShowsForm(s) ==> (ShowsCardForm(s) <==> s.modal.paymentMethod == Card)
    ensures ShowsForm(s) ==> PaymentMethodChosen(s, choice).modal.paymentMethod == choice
    ensures ShowsForm(s) ==> (ShowsCardForm(PaymentMethodChosen(s, choice)) <==> choice == Card)
  {
  }

  /** The modal component. It stays mounted while checkout is closed, so its
      state and its pending timers outlive a dismissal. */
  class Modal {
    const cart: CartContext
    var paymentMethod: PaymentMethod
    var isProcessing: bool
    var isComplete: bool
    var pending: multiset<Timer>

    function State(): Session
      reads this, cart
    {
      Session(cart.State(), ModalState(paymentMethod, isProcessing, isComplete, pending))
    }

    ghost predicate Valid()
      reads this
    {
      Consistent(ModalState(paymentMethod, isProcessing, isComplete, pending))
    }

    constructor (cart: CartContext)
      ensures this.cart == cart
      ensures Valid() && State().modal == InitialModal
    {
      this.cart := cart;
      paymentMethod := Card;
      isProcessing := false;
      isComplete := false;
      pending := multiset{};
    }

    /** The place-order button; it reacts only when drawn and enabled. */
    method ClickPlaceOrder()
      requires Valid()
      modifies this
      ensures Valid() && State() == PlaceOrderClicked(old(State()))
    {
      if cart.isCheckoutOpen && !isComplete && !isProcessing {
        isProcessing := true;
        pending := pending + multiset{ProcessingTimer};
      }
    }

    method ProcessingTimerFires()
      requires Valid()
      modifies this
      ensures Valid() && State() == ProcessingTimerFired(old(State()))
    {
      if ProcessingTimer in pending {
        isProcessing := false;
        isComplete := true;
        pending := pending - multiset{ProcessingTimer} + multiset{DwellTimer};
      }
    }

    method DwellTimerFires()
      requires Valid()
      modifies this, cart
      ensures Valid() && State() == DwellTimerFired(old(State()))
    {
      if DwellTimer in pending {
        cart.requests := cart.requests + [ClearCart];
        isComplete := false;
        cart.isCheckoutOpen := false;
        pending := pending - multiset{DwellTimer};
      }
    }

    method ClickBackdrop()
      requires Valid()
      modifies cart
      ensures Valid() && State() == BackdropClicked(old(State()))
    {
      if cart.isCheckoutOpen && !isProcessing && !isComplete {
        cart.isCheckoutOpen := false;
      }
    }

    method ClickBackToCart()
      requires Valid()
      modifies cart
      ensures Valid() && State() == BackToCartClicked(old(State()))
    {
      if cart.isCheckoutOpen && !isComplete {
        cart.isCheckoutOpen := false;
        cart.isCartOpen := true;
      }
    }

    method ClickClose()
      requires Valid()
      modifies cart
      ensures Valid() && State() == CloseClicked(old(State()))
    {
      if cart.isCheckoutOpen && !isComplete {
        cart.isCheckoutOpen := false;
      }
    }

    method ChoosePaymentMethod(choice: PaymentMethod)
      requires Valid()
      modifies this
      ensures Valid() && State() == PaymentMethodChosen(old(State()), choice)
    {
      if cart.isCheckoutOpen && !isComplete {
        paymentMethod := choice;
      }
    }
  }
}
