# Burger Babai storefront: menu filter, cart panel, header and checkout

This project models the client-side logic of the Burger Babai food-delivery
page, a Next.js/React storefront. The model covers four components:

- **Menu grid.** This part is pure. It selects the "Popular Near You" dishes. It filters the full
  menu first by the active category and then by the search box. It decides whether the popular
  section is drawn, and it builds the heading, the "n item/items" label and the "No dishes found"
  message.
- **Checkout modal.** This part is a class. It holds the payment choice, the processing and
  complete flags and the scheduled timers. Each handler is one method: place order, the two
  `setTimeout` callbacks, the backdrop, "Back to cart", the close button and the payment buttons.
- **Slide-out cart panel.** This part is pure rules plus handler methods. The rules cover when the
  footer, the empty-cart message, the count label and the two free-delivery banners are drawn. The
  handlers are the store calls made by the "−", "+", bin and Clear buttons, the checkout hand-off
  and closing the panel.
- **Site header and category bar.** The cart button and its badge, the mobile-menu toggle and the
  seven category buttons with their highlight.

The cart store (`cart-provider`) is not part of this model. The shared context carries the two
panel flags, `isCartOpen` and `isCheckoutOpen`. Every store call the panels make
(`updateQuantity`, `removeItem`, `clearCart`) is appended to a request log, with the arguments the
model tracks: the line id and the new quantity, and no argument for `clearCart`.
The cart lines, the subtotal and the item count reach the components as inputs.

JavaScript's `trim`, `toLowerCase`, `includes` and `Array.prototype.filter` are modelled in
`Strings` and `Arrays`. `Filter` is specified by `SelectsInOrder`, which says the result keeps
exactly the passing elements, each as often as in the input, in input order. The lemmas prove
that `Filter` meets this specification and is the only list that does.

The two timer callbacks of an order placement are events of their own, `ProcessingTimer` and
`DwellTimer`. Each is pending from the moment it is scheduled until it fires. The modal invariant
`Consistent` says that at most one is pending and that it matches the flags. A click on a control
that is not drawn, or is disabled, changes nothing. `Storefront` puts every event that changes
the panel flags, the checkout modal or the store requests into one step function. It proves that
any sequence of those events keeps the invariant, and it proves the lifecycle scenarios.

Dismissal is only partly guarded in the code. Only the backdrop checks "not processing and not
complete". The "Back to cart" and close buttons are drawn with the form, so they also work while
an order is processing. The modal stays mounted after checkout closes, so the pending timers
still fire, and the dwell timer still asks the store to clear the cart. The model follows the
code: `DismissWhileProcessing`, `ClosedWhileProcessing` and `ReopenedWhileProcessing` state this
behaviour.

## Model

| member | source | states |
|---|---|---|
| Strings.TrimStart | food-delivery-app/components/menu-grid.tsx:26 | the result is the suffix left after a blank prefix, and it does not start with white space |
| Strings.TrimEnd | food-delivery-app/components/menu-grid.tsx:26 | the result is the prefix left before a blank suffix, and it does not end with white space |
| Strings.Trim | food-delivery-app/components/menu-grid.tsx:26 | `trim` leaves no white space at either end, and leaves nothing exactly when the string is blank |
| Strings.TrimIsInnerSlice | food-delivery-app/components/menu-grid.tsx:26 | `trim`'s result is the slice of the input between a blank front and a blank back |
| Strings.SliceOfSuffix | food-delivery-app/components/menu-grid.tsx:26 | the front and back of a suffix are slices of the whole string |
| Strings.HasText | food-delivery-app/components/menu-grid.tsx:26 | truthiness of `s.trim()`; specified by `Trim` (empty iff blank) and `HasTextExamples` |
| Strings.ToLower | food-delivery-app/components/menu-grid.tsx:27 | lower-casing keeps the length, turns each ASCII capital into its own lower-case letter (code point + 32), keeps every other character, and leaves no ASCII capital |
| Strings.Contains | food-delivery-app/components/menu-grid.tsx:30-32 | `includes`; specified by `ContainsIffOccurs` (holds iff the part occurs at some offset) |
| Strings.TrimParts | food-delivery-app/components/menu-grid.tsx:39 | trimming the start, then the end, gives clean ends and is empty exactly for blank input |
| Strings.TrimmedAway | food-delivery-app/components/menu-grid.tsx:39 | if trimming leaves nothing, the string was all white space |
| Strings.ContainsIffOccurs | food-delivery-app/components/menu-grid.tsx:30-32 | `includes` holds exactly when the part occurs at some offset |
| Strings.SliceOfTail | food-delivery-app/components/menu-grid.tsx:30-32 | a slice that starts after the first character is the same slice of the tail, one offset earlier |
| Strings.HasTextExamples | food-delivery-app/components/menu-grid.tsx:26 | `""` and a run of spaces, tabs and newlines are falsy after trim; `" a "` is not |
| Arrays.Filter | food-delivery-app/components/menu-grid.tsx:15 | `filter` never lengthens a list, and every element it keeps comes from the input and passes the test |
| Arrays.SubsequenceMultiset | food-delivery-app/components/menu-grid.tsx:19-37 | a subsequence holds no element more often than the list it is taken from |
| Arrays.FilterSelects | food-delivery-app/components/menu-grid.tsx:15 | `filter` keeps exactly the passing elements, each as often as in the input, in input order |
| Arrays.SelectsUnique | food-delivery-app/components/menu-grid.tsx:15 | any list that selects the passing elements in order equals `filter`'s result |
| Arrays.FilterMembership | food-delivery-app/components/menu-grid.tsx:23 | an element of the input is kept if and only if it passes |
| Arrays.FilterKeepsAll | food-delivery-app/components/menu-grid.tsx:20 | when every element passes, `filter` returns the input unchanged |
| Arrays.FilterFusion | food-delivery-app/components/menu-grid.tsx:22-34 | filtering twice equals one filter by both tests |
| Arrays.FilterSameTest | food-delivery-app/components/menu-grid.tsx:22-34 | two tests that agree everywhere give the same result |
| MenuGrid.PopularItems | food-delivery-app/components/menu-grid.tsx:14-17 | every listed dish is on the menu and marked popular; `PopularItemsExact` and `PopularItemsUnique` pin the list down |
| MenuGrid.MatchesQuery | food-delivery-app/components/menu-grid.tsx:29-33 | the search test on one dish; specified by `FilteredItemsMembership` |
| MenuGrid.FilteredItems | food-delivery-app/components/menu-grid.tsx:19-37 | every listed dish is on the menu and passes the category and search tests; `FilteredItemsExact` and `FilteredItemsUnique` pin the list down |
| MenuGrid.ShowPopular | food-delivery-app/components/menu-grid.tsx:39 | whether the popular section is drawn; specified by `ShowPopularRule` and `PopularShownWithWholeMenu` |
| MenuGrid.CountNoun | food-delivery-app/components/menu-grid.tsx:69 | the "item"/"items" noun; specified by `ResultLabels` |
| MenuGrid.ShowsNoDishes | food-delivery-app/components/menu-grid.tsx:73 | whether "No dishes found" is drawn; specified by `ResultLabels` |
| MenuGrid.PopularItemsExact | food-delivery-app/components/menu-grid.tsx:14-17 | `popularItems` holds exactly the dishes marked popular, with multiplicity, in menu order |
| MenuGrid.PopularItemsUnique | food-delivery-app/components/menu-grid.tsx:14-17 | no other list selects the popular dishes in menu order |
| MenuGrid.FilteredItemsOnePass | food-delivery-app/components/menu-grid.tsx:19-37 | the category stage then the search stage equals one filter by "in category and matches search" |
| MenuGrid.FilteredItemsExact | food-delivery-app/components/menu-grid.tsx:19-37 | `filteredItems` is a subsequence of the menu in which every dish passes both tests and every passing dish is kept, as often as on the menu |
| MenuGrid.FilteredItemsUnique | food-delivery-app/components/menu-grid.tsx:19-37 | no other list selects the passing dishes in menu order |
| MenuGrid.FilteredItemsMembership | food-delivery-app/components/menu-grid.tsx:22-34 | a menu dish is listed iff its category is the active one (any, for "all") and, when the trimmed query has text, the lower-cased untrimmed query occurs in its lower-cased name, description or category |
| MenuGrid.BlankQueryFiltersNothing | food-delivery-app/components/menu-grid.tsx:20-26 | a blank query applies no text filter: "all" gives the whole menu, and any category gives what the empty query gives |
| MenuGrid.PopularShownWithWholeMenu | food-delivery-app/components/menu-grid.tsx:39 | whenever the popular section is drawn, the full menu lists every dish |
| MenuGrid.ShowPopularRule | food-delivery-app/components/menu-grid.tsx:39 | `showPopular` holds iff the category is "all" and the query is blank; it holds for the page's first inputs, `""` and "all" |
| MenuGrid.Heading | food-delivery-app/components/menu-grid.tsx:64-66 | for a category other than "all", the heading keeps the length and tail of the id and upper-cases its first character |
| MenuGrid.BurgerMatches | food-delivery-app/components/menu-grid.tsx:26-32 | "burger" has text and matches a dish named "Burger" |
| MenuGrid.SpacedBurgerMisses | food-delivery-app/components/menu-grid.tsx:26-32 | " burger" has text but, because it is not trimmed, matches nothing in that dish |
| MenuGrid.SingleDishListing | food-delivery-app/components/menu-grid.tsx:19-37 | on a one-dish menu under "all", the listing is that dish when it passes the search, and nothing otherwise |
| MenuGrid.LeadingSpaceIsSearched | food-delivery-app/components/menu-grid.tsx:27 | the query is matched untrimmed: "burger" lists the dish and " burger" lists nothing |
| MenuGrid.ResultLabels | food-delivery-app/components/menu-grid.tsx:69-73 | the label is "item" iff one dish is listed and "items" otherwise; "No dishes found" is drawn iff none is listed |
| CartProvider.Requested | food-delivery-app/components/slide-cart.tsx:13-15 | a store call is appended to the log; the flags and the earlier calls are untouched |
| CheckoutModal.PlaceOrderClicked | food-delivery-app/components/checkout-modal.tsx:36-38 | placing an order keeps the invariant and touches neither the context nor the payment choice |
| CheckoutModal.ProcessingTimerFired | food-delivery-app/components/checkout-modal.tsx:38-41 | the first timer keeps the invariant and touches neither the context nor the payment choice; with no processing timer pending (no order placed) it changes nothing |
| CheckoutModal.DwellTimerFired | food-delivery-app/components/checkout-modal.tsx:41-45 | the dwell timer keeps the invariant, leaves the cart panel flag and the payment choice alone, and only appends store calls; with no dwell timer pending it changes nothing, so no `clearCart` without an order |
| CheckoutModal.BackdropClicked | food-delivery-app/components/checkout-modal.tsx:56 | the backdrop changes only `isCheckoutOpen`; when it is not drawn (checkout closed) or an order is processing or complete, it changes nothing |
| CheckoutModal.BackToCartClicked | food-delivery-app/components/checkout-modal.tsx:79-82 | with the form drawn (processing or not), "Back to cart" closes checkout and opens the cart; otherwise nothing changes; the modal state and the store calls are never touched |
| CheckoutModal.CloseClicked | food-delivery-app/components/checkout-modal.tsx:90-91 | with the form drawn (processing or not), the close button closes checkout; otherwise nothing changes; it never changes anything but `isCheckoutOpen` |
| CheckoutModal.PaymentMethodChosen | food-delivery-app/components/checkout-modal.tsx:161-163 | with the form drawn, a payment button sets the choice; otherwise nothing changes; it never touches the context, the processing and complete flags or the pending timers, so a running order goes on |
| CheckoutModal.ConsistentFlags | food-delivery-app/components/checkout-modal.tsx:33-47 | under the invariant, the order is never processing and complete at once, at most one timer is pending, and each timer is pending iff its flag is set |
| CheckoutModal.PlaceOrderFromIdle | food-delivery-app/components/checkout-modal.tsx:36-38 | from an idle, open checkout, place order sets `isProcessing` and starts exactly one timer chain, changing nothing else |
| CheckoutModal.PlaceOrderGuard | food-delivery-app/components/checkout-modal.tsx:229-231 | with checkout closed, while processing or once complete, a place-order click changes nothing |
| CheckoutModal.ProcessingCompletes | food-delivery-app/components/checkout-modal.tsx:38-41 | the first timer clears `isProcessing`, sets `isComplete` and schedules the dwell timer |
| CheckoutModal.DwellResets | food-delivery-app/components/checkout-modal.tsx:41-45 | the dwell timer requests `clearCart`, closes checkout and returns the flags and timers to their initial values, keeping the payment choice |
| CheckoutModal.BackdropRule | food-delivery-app/components/checkout-modal.tsx:56 | the backdrop closes an open checkout iff nothing is processing or complete; otherwise nothing changes |
| CheckoutModal.DismissWhileProcessing | food-delivery-app/components/checkout-modal.tsx:73-96 | while processing, "Back to cart" and the close button still close checkout (Back also opens the cart), the pending timer is kept, and the backdrop does nothing |
| CheckoutModal.SuccessNotDismissable | food-delivery-app/components/checkout-modal.tsx:63-73 | on the success screen, none of the three closing controls changes anything |
| CheckoutModal.PaymentRules | food-delivery-app/components/checkout-modal.tsx:179 | payment starts as card; with the form drawn, the card form shows iff card is chosen, and a payment button sets the choice |
| CheckoutModal.Modal.constructor | food-delivery-app/components/checkout-modal.tsx:32-34 | the modal starts with card payment, not processing, not complete and no timer |
| CheckoutModal.Modal.ClickPlaceOrder | food-delivery-app/components/checkout-modal.tsx:229-231 | the handler's new state is `PlaceOrderClicked` of the old one, and the invariant is kept |
| CheckoutModal.Modal.ProcessingTimerFires | food-delivery-app/components/checkout-modal.tsx:38-41 | the callback's new state is `ProcessingTimerFired` of the old one, and the invariant is kept |
| CheckoutModal.Modal.DwellTimerFires | food-delivery-app/components/checkout-modal.tsx:41-45 | the callback's new state, shared context included, is `DwellTimerFired` of the old one, and the invariant is kept |
| CheckoutModal.Modal.ClickBackdrop | food-delivery-app/components/checkout-modal.tsx:56 | the handler's new state is `BackdropClicked` of the old one |
| CheckoutModal.Modal.ClickBackToCart | food-delivery-app/components/checkout-modal.tsx:79-82 | the handler's new state is `BackToCartClicked` of the old one |
| CheckoutModal.Modal.ClickClose | food-delivery-app/components/checkout-modal.tsx:90-91 | the handler's new state is `CloseClicked` of the old one |
| CheckoutModal.Modal.ChoosePaymentMethod | food-delivery-app/components/checkout-modal.tsx:163 | the handler's new state is `PaymentMethodChosen` of the old one, and the invariant is kept |
| CheckoutModal.Consistent | food-delivery-app/components/checkout-modal.tsx:33-47 | the modal invariant; its consequences are `ConsistentFlags`, and `Storefront.RunKeepsConsistent` shows every run keeps it |
| CheckoutModal.IsRendered | food-delivery-app/components/checkout-modal.tsx:49 | the modal draws nothing while checkout is closed; used by `PlaceOrderGuard` and `BackdropRule` |
| CheckoutModal.ShowsSuccess | food-delivery-app/components/checkout-modal.tsx:63-72 | the success screen; specified by `SuccessNotDismissable` and `Storefront.OrderLifecycle` |
| CheckoutModal.ShowsForm | food-delivery-app/components/checkout-modal.tsx:73-96 | the form with Back, X and the payment buttons; specified by `DismissWhileProcessing`, `SuccessNotDismissable` and the Back, Close and payment contracts |
| CheckoutModal.PlaceOrderEnabled | food-delivery-app/components/checkout-modal.tsx:229-231 | the place-order button is drawn and not disabled; specified by `PlaceOrderGuard` and `Storefront.NoDoubleOrder` |
| CheckoutModal.ShowsCardForm | food-delivery-app/components/checkout-modal.tsx:179 | the mock card form; specified by `PaymentRules` |
| SlideCart.AddMoreAmount | food-delivery-app/components/slide-cart.tsx:136-140 | when the hint is drawn, the amount lies strictly between 0 and 499 and brings the subtotal to exactly 499 |
| SlideCart.CartDismissed | food-delivery-app/components/slide-cart.tsx:31 | the backdrop and the close button close the cart panel and change nothing else |
| SlideCart.CheckoutClicked | food-delivery-app/components/slide-cart.tsx:183-186 | Checkout closes the cart and opens checkout; no store call is made; with no line (no footer) nothing changes |
| SlideCart.PanelBodyRules | food-delivery-app/components/slide-cart.tsx:49-66 | the footer is drawn iff the empty-cart message is not; the title count is drawn iff there are lines, and is singular iff there is exactly one |
| SlideCart.DeliveryBannerRules | food-delivery-app/components/slide-cart.tsx:136-144 | the two banners are never both drawn; with the footer and a positive subtotal exactly one is; 499 qualifies, and 498 asks for 1 more |
| SlideCart.LineButtonRequests | food-delivery-app/components/slide-cart.tsx:101-118 | "−" requests `updateQuantity(id, quantity - 1)`, "+" requests `updateQuantity(id, quantity + 1)` and the bin requests `removeItem(id)`, each for that line only, with the flags untouched |
| SlideCart.FooterButtonRules | food-delivery-app/components/slide-cart.tsx:175-186 | Clear requests `clearCart` once and changes nothing else; with no line, neither Clear nor Checkout can act |
| SlideCart.CountNoun | food-delivery-app/components/slide-cart.tsx:51 | the "item"/"items" noun of the panel title; specified by `PanelBodyRules` (singular iff exactly one line) |
| SlideCart.ShowsFooter | food-delivery-app/components/slide-cart.tsx:133 | the totals footer; specified by `PanelBodyRules` and `FooterButtonRules` |
| SlideCart.ShowsEmptyCart | food-delivery-app/components/slide-cart.tsx:66 | the empty-cart message; specified by `PanelBodyRules` |
| SlideCart.ShowsCount | food-delivery-app/components/slide-cart.tsx:49 | the title count; specified by `PanelBodyRules` |
| SlideCart.ShowsAddMoreHint | food-delivery-app/components/slide-cart.tsx:136 | the add-more hint; specified by `DeliveryBannerRules` and `AddMoreAmount` |
| SlideCart.ShowsFreeDeliveryBanner | food-delivery-app/components/slide-cart.tsx:144 | the free-delivery banner; specified by `DeliveryBannerRules` |
| SlideCart.ClearClicked | food-delivery-app/components/slide-cart.tsx:177 | with the footer drawn, Clear appends `clearCart` and changes nothing else; with no line it changes nothing |
| SlideCart.DecreaseClicked | food-delivery-app/components/slide-cart.tsx:101 | for an existing line, "−" appends `updateQuantity(id, quantity - 1)` for that line and nothing else; for no such line it changes nothing |
| SlideCart.IncreaseClicked | food-delivery-app/components/slide-cart.tsx:111 | for an existing line, "+" appends `updateQuantity(id, quantity + 1)` for that line and nothing else; for no such line it changes nothing |
| SlideCart.RemoveClicked | food-delivery-app/components/slide-cart.tsx:118 | for an existing line, the bin appends `removeItem(id)` for that line and nothing else; for no such line it changes nothing |
| SlideCart.ClickBackdrop | food-delivery-app/components/slide-cart.tsx:31 | the handler's new context is `CartDismissed` of the old one |
| SlideCart.ClickClose | food-delivery-app/components/slide-cart.tsx:56 | the handler's new context is `CartDismissed` of the old one |
| SlideCart.ClickCheckout | food-delivery-app/components/slide-cart.tsx:183-186 | the handler's new context is `CheckoutClicked` of the old one |
| SlideCart.ClickClear | food-delivery-app/components/slide-cart.tsx:177 | the handler's new context is `ClearClicked` of the old one |
| SlideCart.ClickDecrease | food-delivery-app/components/slide-cart.tsx:101 | the handler's new context is `DecreaseClicked` of the old one |
| SlideCart.ClickIncrease | food-delivery-app/components/slide-cart.tsx:111 | the handler's new context is `IncreaseClicked` of the old one |
| SlideCart.ClickRemove | food-delivery-app/components/slide-cart.tsx:118 | the handler's new context is `RemoveClicked` of the old one |
| SiteHeader.CartButtonClicked | food-delivery-app/components/site-header.tsx:52 | the cart button opens the cart panel and changes nothing else |
| SiteHeader.CategoryListShape | food-delivery-app/components/site-header.tsx:106-114 | there are seven categories, "all" is first, and the ids are pairwise distinct |
| SiteHeader.AtMostOneHighlighted | food-delivery-app/components/site-header.tsx:126 | at most one category button is highlighted |
| SiteHeader.ClickedCategoryHighlighted | food-delivery-app/components/site-header.tsx:123-126 | after a click on a button, exactly that button is highlighted |
| SiteHeader.BadgeRule | food-delivery-app/components/site-header.tsx:58 | the badge is drawn iff `totalItems` is at least one, so not for an empty cart |
| SiteHeader.ShowsBadge | food-delivery-app/components/site-header.tsx:58 | the badge; specified by `BadgeRule` |
| SiteHeader.IsHighlighted | food-delivery-app/components/site-header.tsx:126 | the highlight test; specified by `AtMostOneHighlighted` and `ClickedCategoryHighlighted` |
| SiteHeader.CategoryClicked | food-delivery-app/components/site-header.tsx:123 | a click on a button makes a category active under which that button is highlighted |
| SiteHeader.Header.ShowsMobileSearch | food-delivery-app/components/site-header.tsx:77 | the mobile search block; specified by `ToggleMobileMenu` |
| SiteHeader.Header.constructor | food-delivery-app/components/site-header.tsx:15 | the mobile menu starts closed |
| SiteHeader.Header.ClickCart | food-delivery-app/components/site-header.tsx:52 | the handler's new context is `CartButtonClicked` of the old one |
| SiteHeader.Header.ToggleMobileMenu | food-delivery-app/components/site-header.tsx:67-77 | the toggle flips `mobileMenuOpen`, and the mobile search block is drawn iff it is open |
| Storefront.Step | food-delivery-app/app/page.tsx:17-30 | every event that changes the panel flags, the checkout modal or the store requests keeps the modal invariant and only appends store calls |
| Storefront.Run | food-delivery-app/app/page.tsx:17-30 | the events in order; specified by `RunKeepsConsistent` and `RunAppend` |
| Storefront.RunKeepsConsistent | food-delivery-app/components/checkout-modal.tsx:33-47 | any event sequence keeps the modal invariant and only appends store calls |
| Storefront.NeverProcessingAndComplete | food-delivery-app/components/checkout-modal.tsx:33-47 | from the first render, after any events, the order is never processing and complete at once, and at most one timer is pending |
| Storefront.RunAppend | food-delivery-app/app/page.tsx:17-30 | running two event sequences in turn equals running their concatenation |
| Storefront.RunOne | food-delivery-app/app/page.tsx:17-30 | a one-event run is one step |
| Storefront.OrderLifecycle | food-delivery-app/components/checkout-modal.tsx:36-47 | place order, then the first timer, then the dwell timer: processing, then the success screen, then one `clearCart` request, checkout closed and the modal reset except for the payment choice |
| Storefront.NoDoubleOrder | food-delivery-app/components/checkout-modal.tsx:229-231 | a second place-order click right after the first changes nothing, so exactly one timer is pending |
| Storefront.ClosedWhileProcessing | food-delivery-app/components/checkout-modal.tsx:49-96 | closing checkout mid-order leaves the order processing; the timers still fire, the cart is still cleared and the modal ends reset |
| Storefront.ReopenedWhileProcessing | food-delivery-app/components/checkout-modal.tsx:79-82 | back to cart mid-order, then Checkout, reopens the modal still processing with place order disabled and no store call made |
| Storefront.CapitalisedHeading | food-delivery-app/components/menu-grid.tsx:64-66 | an id other than "all" that starts with a lower-case letter is headed by its capitalised form |
| Storefront.HeadingsMatchCategoryNames | food-delivery-app/components/menu-grid.tsx:64-66 | "all" is headed "Full Menu", and every other category's heading is its label in the category bar |

## Left out

- The cart store (`cart-provider`) is not part of this model.
  - Its handling of `addItem`, `updateQuantity`, `removeItem` and `clearCart` is not modelled; the panels' calls are only logged.
  - Its subtotal, tax, delivery-fee, total and `totalItems` arithmetic is not modelled; those values are inputs.
  - The initial values of `isCartOpen` and `isCheckoutOpen` are taken to be false.
- SlideCart.ClearClicked: the Clear button passes `clearCart` itself as the click handler, so the store receives the React click event as an argument. The dwell timer calls `clearCart()` with none. The log records both as `ClearCart` and does not record the event argument.
- The food card's "Add" button only forwards `addItem` to the store, so it is not modelled.
- The 3D food scene, the hero section, the footer and the layout are not modelled. They are rendering, animation, fonts, metadata and analytics.
- The 2000 ms and 3000 ms delays are not modelled. The timers are discrete events that may fire at any point in an event sequence.
- `toFixed(0)` currency formatting, images, aria labels, the "Processing..." button text, CSS classes and the mock card form's default values are not modelled.
- While the cart panel is closed, it is hidden by a CSS translation, but its buttons stay in the document. The model treats them as clickable whenever their lines or footer are drawn.
- The search box's `onSearchChange` and the category bar's `onCategoryChange` are not modelled as events. The query and the active category are arbitrary inputs of `FilteredItems`. The page's first values, `""` and "all", are `InitialSearchQuery` and `InitialCategory`.
- Strings.ToLower: only ASCII letters are mapped. JavaScript's full Unicode case mapping is not modelled.
- MenuGrid.Heading: only ASCII letters are upper-cased, for the same reason.
- SlideCart.AddMoreAmount: the subtotal is an exact real number. IEEE-754 double rounding is not modelled.
- The menu data (`lib/menu-data`) is not part of this model. The menu is an arbitrary sequence of dishes.
