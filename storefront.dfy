/** The page that puts the components side by side: every click and timer
    event that reaches the shared context or the checkout modal, and what
    holds over any sequence of them. */
module Storefront {
  import opened CartProvider
  import opened CheckoutModal
  import SlideCart
  import SiteHeader
  import MenuGrid

  /** The events that change the panels, the modal or the store requests. */
  datatype Event =
    | PlaceOrder
    | ProcessingTimerFires
    | DwellTimerFires
    | CheckoutBackdrop
    | BackToCart
    | CloseCheckout
    | ChoosePayment(choice: PaymentMethod)
    | CartBackdrop
    | CloseCart
    | CartCheckout
    | ClearButton
    | DecreaseButton(line: int)
    | IncreaseButton(line: int)
    | RemoveButton(line: int)
    | HeaderCartButton

  /** One event, with the cart lines the store holds when it happens. */
  datatype Input = Input(items: seq<CartLine>, event: Event)

  const InitialSession: Session := Session(InitialContext, InitialModal)

  /** The effect of one event; every event keeps the modal's invariant and
      only ever appends to the store requests. */
  function Step(s: Session, input: Input): (r: Session)
    ensures Consistent(s.modal) ==> Consistent(r.modal)
    ensures s.ctx.requests <= r.ctx.requests
  {
    var items := input.items;
    match input.event
    case PlaceOrder => PlaceOrderClicked(s)
    case ProcessingTimerFires => ProcessingTimerFired(s)
    case DwellTimerFires => DwellTimerFired(s)
    case CheckoutBackdrop => BackdropClicked(s)
    case BackToCart => BackToCartClicked(s)
    case CloseCheckout => CloseClicked(s)
    case ChoosePayment(choice) => PaymentMethodChosen(s, choice)
    case CartBackdrop => s.(ctx := SlideCart.CartDismissed(s.ctx))
    case CloseCart => s.(ctx := SlideCart.CartDismissed(s.ctx))
    case CartCheckout => s.(ctx := SlideCart.CheckoutClicked(s.ctx, items))
    case ClearButton => s.(ctx := SlideCart.ClearClicked(s.ctx, items))
    case DecreaseButton(k) => s.(ctx := SlideCart.DecreaseClicked(s.ctx, items, k))
    case IncreaseButton(k) => s.(ctx := SlideCart.IncreaseClicked(s.ctx, items, k))
    case RemoveButton(k) => s.(ctx := SlideCart.RemoveClicked(s.ctx, items, k))
    case HeaderCartButton => s.(ctx := SiteHeader.CartButtonClicked(s.ctx))
  }

  /** The events in order, the first first. */
  function Run(s: Session, inputs: seq<Input>): Session
    decreases |inputs|
  {
    if inputs == [] then s else Run(Step(s, inputs[0]), inputs[1..])
  }

  /** Any sequence of events keeps the modal's invariant and only appends to
      the store requests. */
  lemma {:induction false} RunKeepsConsistent(s: Session, inputs: seq<Input>)
    requires Consistent(s.modal)
    ensures Consistent(Run(s, inputs).modal)
    ensures s.ctx.requests <= Run(s, inputs).ctx.requests
    decreases |inputs|
  {
    if inputs != [] {
      RunKeepsConsistent(Step(s, inputs[0]), inputs[1..]);
    }
  }

  /** From the first render on, whatever the user clicks and whenever the
      timers fire, an order is never processing and complete at once and at
      most one timer is pending. */
  lemma NeverProcessingAndComplete(inputs: seq<Input>)
    ensures !(Run(InitialSession, inputs).modal.isProcessing && Run(InitialSession, inputs).modal.isComplete)
    ensures |Run(InitialSession, inputs).modal.pending| <= 1
  {
    RunKeepsConsistent(InitialSession, inputs);
    ConsistentFlags(Run(InitialSession, inputs).modal);
  }

  /** Checkout is open and an order can be placed. */
  predicate ReadyToOrder(s: Session) {
    s.ctx.isCheckoutOpen && Consistent(s.modal) && !s.modal.isProcessing && !s.modal.isComplete
  }

  /** Running two event sequences one after the other. */
  lemma {:induction false} RunAppend(s: Session, a: seq<Input>, b: seq<Input>)
    ensures Run(s, a + b) == Run(Run(s, a), b)
    decreases |a|
  {
    if a != [] {
      assert (a + b)[0] == a[0] && (a + b)[1..] == a[1..] + b;
      RunAppend(Step(s, a[0]), a[1..], b);
    } else {
      assert a + b == b;
    }
  }

  /** One event. */
  lemma RunOne(s: Session, input: Input)
    ensures Run(s, [input]) == Step(s, input)
  {
    assert [input][1..] == [];
  }

  /** The order lifecycle: placing the order starts processing; the first
      timer shows the success screen; the dwell timer asks the store to clear
      the cart, closes checkout and leaves the modal as it started, with the
      payment choice kept. */
  lemma OrderLifecycle(s: Session, items: seq<CartLine>)
    requires ReadyToOrder(s)
    ensures var p := Step(s, Input(items, PlaceOrder));
      p.modal.isProcessing && p.ctx == s.ctx && !PlaceOrderEnabled(p)
    ensures var c := Run(s, [Input(items, PlaceOrder), Input(items, ProcessingTimerFires)]);
      ShowsSuccess(c) && !c.modal.isProcessing && c.ctx == s.ctx
    ensures var d := Run(s, [Input(items, PlaceOrder), Input(items, ProcessingTimerFires), Input(items, DwellTimerFires)]);
      d.modal == InitialModal.(paymentMethod := s.modal.paymentMethod) &&
      d.ctx == s.ctx.(isCheckoutOpen := false, requests := s.ctx.requests + [ClearCart])
  {
    var p := Step(s, Input(items, PlaceOrder));
    var c := Step(p, Input(items, ProcessingTimerFires));
    var d := Step(c, Input(items, DwellTimerFires));
    PlaceOrderFromIdle(s);
    ProcessingCompletes(p);
    DwellResets(c);
    RunOne(c, Input(items, DwellTimerFires));
    RunOne(p, Input(items, ProcessingTimerFires));
    RunAppend(p, [Input(items, ProcessingTimerFires)], [Input(items, DwellTimerFires)]);
    assert [Input(items, PlaceOrder), Input(items, ProcessingTimerFires)][1..] == [Input(items, ProcessingTimerFires)];
    assert [Input(items, PlaceOrder), Input(items, ProcessingTimerFires), Input(items, DwellTimerFires)][1..] ==
           [Input(items, ProcessingTimerFires)] + [Input(items, DwellTimerFires)];
  }

  /** A second click on "Place Order" right after the first changes nothing:
      one order, one timer chain. */
  lemma NoDoubleOrder(s: Session, items: seq<CartLine>)
    requires ReadyToOrder(s)
    ensures Run(s, [Input(items, PlaceOrder), Input(items, PlaceOrder)]) == Step(s, Input(items, PlaceOrder))
    ensures Step(s, Input(items, PlaceOrder)).modal.pending == multiset{ProcessingTimer}
  {
    var p := Step(s, Input(items, PlaceOrder));
    PlaceOrderFromIdle(s);
    PlaceOrderGuard(p);
    RunOne(p, Input(items, PlaceOrder));
    assert [Input(items, PlaceOrder), Input(items, PlaceOrder)][1..] == [Input(items, PlaceOrder)];
  }

  /** Closing checkout while the order is processing does not stop it: the
      timers still fire, the store is still asked to clear the cart, and the
      modal ends where it started. */
  lemma ClosedWhileProcessing(s: Session, items: seq<CartLine>)
    requires ReadyToOrder(s)
    ensures var x := Run(s, [Input(items, PlaceOrder), Input(items, CloseCheckout)]);
      !x.ctx.isCheckoutOpen && x.modal.isProcessing && x.modal.pending == multiset{ProcessingTimer}
    ensures var d := Run(s, [Input(items, PlaceOrder), Input(items, CloseCheckout),
                             Input(items, ProcessingTimerFires), Input(items, DwellTimerFires)]);
      d.modal == InitialModal.(paymentMethod := s.modal.paymentMethod) &&
      d.ctx == s.ctx.(isCheckoutOpen := false, requests := s.ctx.requests + [ClearCart])
  {
    var p := Step(s, Input(items, PlaceOrder));
    var x := Step(p, Input(items, CloseCheckout));
    var c := Step(x, Input(items, ProcessingTimerFires));
    PlaceOrderFromIdle(s);
    DismissWhileProcessing(p);
    ProcessingCompletes(x);
    DwellResets(c);
    var first := [Input(items, PlaceOrder), Input(items, CloseCheckout)];
    var rest := [Input(items, ProcessingTimerFires), Input(items, DwellTimerFires)];
    RunAppend(s, [Input(items, PlaceOrder)], [Input(items, CloseCheckout)]);
    RunOne(s, Input(items, PlaceOrder));
    RunOne(p, Input(items, CloseCheckout));
    assert [Input(items, PlaceOrder)] + [Input(items, CloseCheckout)] == first;
    RunAppend(x, [Input(items, ProcessingTimerFires)], [Input(items, DwellTimerFires)]);
    RunOne(x, Input(items, ProcessingTimerFires));
    RunOne(c, Input(items, DwellTimerFires));
    assert [Input(items, ProcessingTimerFires)] + [Input(items, DwellTimerFires)] == rest;
    RunAppend(s, first, rest);
    assert first + rest == [Input(items, PlaceOrder), Input(items, CloseCheckout),
                            Input(items, ProcessingTimerFires), Input(items, DwellTimerFires)];
  }

  /** Going back to the cart while the order is processing and checking out
      again reopens the modal with the order still processing and the
      place-order button still disabled. */
  lemma ReopenedWhileProcessing(s: Session, items: seq<CartLine>)
    requires ReadyToOrder(s) && items != []
    ensures var r := Run(s, [Input(items, PlaceOrder), Input(items, BackToCart), Input(items, CartCheckout)]);
      r.ctx.isCheckoutOpen && !r.ctx.isCartOpen && r.modal.isProcessing && !PlaceOrderEnabled(r) &&
      r.ctx.requests == s.ctx.requests
  {
    var p := Step(s, Input(items, PlaceOrder));
    var b := Step(p, Input(items, BackToCart));
    PlaceOrderFromIdle(s);
    DismissWhileProcessing(p);
    RunAppend(s, [Input(items, PlaceOrder)], [Input(items, BackToCart), Input(items, CartCheckout)]);
    RunOne(s, Input(items, PlaceOrder));
    RunAppend(p, [Input(items, BackToCart)], [Input(items, CartCheckout)]);
    RunOne(p, Input(items, BackToCart));
    RunOne(b, Input(items, CartCheckout));
    assert [Input(items, BackToCart)] + [Input(items, CartCheckout)] == [Input(items, BackToCart), Input(items, CartCheckout)];
    assert [Input(items, PlaceOrder)] + [Input(items, BackToCart), Input(items, CartCheckout)] ==
           [Input(items, PlaceOrder), Input(items, BackToCart), Input(items, CartCheckout)];
  }

  /** A category id other than "all" that starts with a lower-case letter is
      headed by its name when that name is the id capitalised. */
  lemma CapitalisedHeading(id: string, name: string)
    requires id != MenuGrid.AllCategories && id != [] && 'a' <= id[0] <= 'z'
    requires |name| == |id| && name[0] as int == id[0] as int - 32 && name[1..] == id[1..]
    ensures MenuGrid.Heading(id) == name
  {
    assert id != MenuGrid.AllCategories;
    assert name == [name[0]] + name[1..];
  }

  /** The menu heading of every category other than "all" is that category's
      name in the category bar; "all" is headed "Full Menu". */
  lemma HeadingsMatchCategoryNames(k: int)
    requires 0 <= k < |SiteHeader.Categories|
    ensures k == 0 ==> MenuGrid.Heading(SiteHeader.Categories[k].id) == "Full Menu"
    ensures k > 0 ==> MenuGrid.Heading(SiteHeader.Categories[k].id) == SiteHeader.Categories[k].name
  {
    var c := SiteHeader.Categories[k];
    if k > 0 {
      CapitalisedHeading(c.id, c.name);
    }
  }
}
