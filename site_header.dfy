/** The site header and the category bar under it: the cart button and its
    badge, the mobile menu toggle, and the category buttons with their
    highlight. */
module SiteHeader {
  import opened CartProvider

  datatype Category = Category(id: string, name: string)

  /** The category bar, in the order it is drawn. */
  const Categories: seq<Category> := [
    Category("all", "All"),
    Category("burgers", "Burgers"),
    Category("pizzas", "Pizzas"),
    Category("indian", "Indian"),
    Category("italian", "Italian"),
    Category("beverages", "Beverages"),
    Category("crushers", "Crushers")
  ]

  /** The cart button opens the cart panel. */
  function CartButtonClicked(s: ContextState): (r: ContextState)
    ensures r.isCartOpen && r.isCheckoutOpen == s.isCheckoutOpen && r.requests == s.requests
  {
    s.(isCartOpen := true)
  }

  /** The item-count badge on the cart button. */
  predicate ShowsBadge(totalItems: int) {
    totalItems > 0
  }

  /** Whether category button `k` is drawn highlighted. */
  predicate IsHighlighted(activeCategory: string, k: int)
    requires 0 <= k < |Categories|
  {
    Categories[k].id == activeCategory
  }

  /** The category a click on button `k` makes active. */
  function CategoryClicked(k: int): (active: string)
    requires 0 <= k < |Categories|
    ensures IsHighlighted(active, k)
  {
    Categories[k].id
  }

  /** Seven categories, "all" first, no id twice. */
  lemma CategoryListShape()
    ensures |Categories| == 7 && Categories[0].id == "all"
    ensures forall i, j :: 0 <= i < j < |Categories| ==> Categories[i].id != Categories[j].id
  {
  }

  /** At most one category button is highlighted at any time. */
  lemma AtMostOneHighlighted(activeCategory: string, i: int, j: int)
    requires 0 <= i < |Categories| && 0 <= j < |Categories|
    requires IsHighlighted(activeCategory, i) && IsHighlighted(activeCategory, j)
    ensures i == j
  {
    CategoryListShape();
  }

  /** After a click on button `k`, exactly that button is highlighted. */
  lemma ClickedCategoryHighlighted(k: int, j: int)
    requires 0 <= k < |Categories| && 0 <= j < |Categories|
    ensures IsHighlighted(CategoryClicked(k), j) <==> j == k
  {
    CategoryListShape();
  }

  /** The badge is drawn exactly for a positive item count. */
  lemma BadgeRule(totalItems: int)
    ensures ShowsBadge(totalItems) <==> totalItems >= 1
    ensures !ShowsBadge(0)
  {
  }

  /** The header component, with its own mobile-menu flag. */
  class Header {
    const cart: CartContext
    var mobileMenuOpen: bool

    constructor (cart: CartContext)
      ensures this.cart == cart && !mobileMenuOpen
    {
      this.cart := cart;
      mobileMenuOpen := false;
    }

    /** The mobile search block is drawn while the mobile menu is open. */
    predicate ShowsMobileSearch()
      reads this
    {
      mobileMenuOpen
    }

    method ClickCart()
      modifies cart
      ensures cart.State() == CartButtonClicked(old(cart.State()))
    {
      cart.isCartOpen := true;
    }

    method ToggleMobileMenu()
      modifies this
      ensures mobileMenuOpen == !old(mobileMenuOpen)
      ensures ShowsMobileSearch() <==> !old(ShowsMobileSearch())
    {
      mobileMenuOpen := !mobileMenuOpen;
    }
  }
}
