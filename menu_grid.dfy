/** The menu grid: the "Popular Near You" list, the category and search filter
    of the full menu, and the labels drawn around them. Everything here is a
    pure function of the menu, the active category and the search query. */
module MenuGrid {
  import opened Strings
  import opened Arrays

  /** A dish of the menu, as far as the grid reads it. */
  datatype MenuItem = MenuItem(
    id: string,
    name: string,
    description: string,
    price: real,
    category: string,
    popular: bool)

  /** The category id that switches the category filter off. */
  const AllCategories: string := "all"

  /** The page's inputs when it first renders: an empty search box and the
      "all" category. */
  const InitialSearchQuery: string := ""
  const InitialCategory: string := AllCategories

  /** The "Popular Near You" list: every dish in it is on the menu and marked
      popular. */
  function PopularItems(menu: seq<MenuItem>): (r: seq<MenuItem>)
    ensures |r| <= |menu|
    ensures forall item :: item in r ==> item in menu && item.popular
  {
    Filter(menu, (item: MenuItem) => item.popular)
  }

  /** The search test on one dish: the (already lower-cased) query occurs in
      its lower-cased name, description or category. */
  predicate MatchesQuery(item: MenuItem, query: string) {
    Contains(ToLower(item.name), query) ||
    Contains(ToLower(item.description), query) ||
    Contains(ToLower(item.category), query)
  }

  /** The two-stage pipeline of the full menu: the category filter unless the
      category is "all", then the search filter when the trimmed query has
      text. The query is lower-cased but not trimmed before matching. */
  function FilteredItems(menu: seq<MenuItem>, activeCategory: string, searchQuery: string): (r: seq<MenuItem>)
    ensures |r| <= |menu|
    ensures forall item :: item in r ==> item in menu && IsListed(item, activeCategory, searchQuery)
  {
    var items :=
      if activeCategory != AllCategories
      then Filter(menu, (item: MenuItem) => item.category == activeCategory)
      else menu;
    if HasText(searchQuery)
    then
      var query := ToLower(searchQuery);
      Filter(items, (item: MenuItem) => MatchesQuery(item, query))
    else items
  }

  /** Whether a dish passes the category choice. */
  predicate InCategory(item: MenuItem, activeCategory: string) {
    activeCategory == AllCategories || item.category == activeCategory
  }

  /** Whether a dish passes the search box. */
  predicate MatchesSearch(item: MenuItem, searchQuery: string) {
    !HasText(searchQuery) || MatchesQuery(item, ToLower(searchQuery))
  }

  /** Whether a dish is listed under the full menu: a one-pass statement of
      both filters together. */
  predicate IsListed(item: MenuItem, activeCategory: string, searchQuery: string) {
    InCategory(item, activeCategory) && MatchesSearch(item, searchQuery)
  }

  /** Whether the "Popular Near You" section is drawn. */
  predicate ShowPopular(activeCategory: string, searchQuery: string) {
    activeCategory == AllCategories && !HasText(searchQuery)
  }

  /** The heading of the full menu: "Full Menu" for "all", otherwise the
      category id with its first character upper-cased. */
  function Heading(activeCategory: string): (h: string)
    ensures activeCategory != AllCategories ==>
      |h| == |activeCategory| &&
      (h != [] ==> h[0] == UpperChar(activeCategory[0]) && h[1..] == activeCategory[1..])
  {
    if activeCategory == AllCategories then "Full Menu"
    else if activeCategory == [] then []
    else [UpperChar(activeCategory[0])] + activeCategory[1..]
  }

  /** The noun beside the number of listed dishes. */
  function CountNoun(items: seq<MenuItem>): string {
    ItemNoun(|items|)
  }

  /** Whether "No dishes found" is drawn instead of the grid. */
  predicate ShowsNoDishes(items: seq<MenuItem>) {
    |items| == 0
  }

  /** The popular list holds exactly the dishes marked popular, each as often
      as on the menu, in menu order; no other list does. */
  lemma PopularItemsExact(menu: seq<MenuItem>)
    ensures SelectsInOrder(PopularItems(menu), menu, (item: MenuItem) => item.popular)
  {
    FilterSelects(menu, (item: MenuItem) => item.popular);
  }

  /** No other list selects the popular dishes in menu order. */
  lemma PopularItemsUnique(menu: seq<MenuItem>, r: seq<MenuItem>)
    requires SelectsInOrder(r, menu, (item: MenuItem) => item.popular)
    ensures r == PopularItems(menu)
  {
    SelectsUnique(r, menu, (item: MenuItem) => item.popular);
  }

  /** The two-stage pipeline equals one filter by IsListed. */
  lemma FilteredItemsOnePass(menu: seq<MenuItem>, activeCategory: string, searchQuery: string)
    ensures FilteredItems(menu, activeCategory, searchQuery) ==
            Filter(menu, (item: MenuItem) => IsListed(item, activeCategory, searchQuery))
  {
    var listed := (item: MenuItem) => IsListed(item, activeCategory, searchQuery);
    var byCategory := (item: MenuItem) => item.category == activeCategory;
    var query := ToLower(searchQuery);
    var bySearch := (item: MenuItem) => MatchesQuery(item, query);
    if activeCategory != AllCategories {
      if HasText(searchQuery) {
        FilterFusion(menu, byCategory, bySearch, listed);
      } else {
        FilterSameTest(menu, byCategory, listed);
      }
    } else {
      if HasText(searchQuery) {
        FilterSameTest(menu, bySearch, listed);
      } else {
        FilterKeepsAll(menu, listed);
      }
    }
  }

  /** The full menu lists exactly the dishes that pass both the category and
      the search test, each as often as on the menu, in menu order: nothing is
      added and nothing that passes is dropped. */
  lemma FilteredItemsExact(menu: seq<MenuItem>, activeCategory: string, searchQuery: string)
    ensures SelectsInOrder(FilteredItems(menu, activeCategory, searchQuery), menu,
                           (item: MenuItem) => IsListed(item, activeCategory, searchQuery))
  {
    FilteredItemsOnePass(menu, activeCategory, searchQuery);
    FilterSelects(menu, (item: MenuItem) => IsListed(item, activeCategory, searchQuery));
  }

  /** No other list selects the listed dishes in menu order. */
  lemma FilteredItemsUnique(menu: seq<MenuItem>, activeCategory: string, searchQuery: string, r: seq<MenuItem>)
    requires SelectsInOrder(r, menu, (item: MenuItem) => IsListed(item, activeCategory, searchQuery))
    ensures r == FilteredItems(menu, activeCategory, searchQuery)
  {
    FilteredItemsOnePass(menu, activeCategory, searchQuery);
    SelectsUnique(r, menu, (item: MenuItem) => IsListed(item, activeCategory, searchQuery));
  }

  /** Soundness and completeness of the filter, one dish at a time: a dish of
      the menu is listed exactly when it is in the chosen category (any, for
      "all") and, when the trimmed query has text, the lower-cased untrimmed
      query occurs in its lower-cased name, description or category. */
  lemma FilteredItemsMembership(menu: seq<MenuItem>, activeCategory: string, searchQuery: string, item: MenuItem)
    requires item in menu
    ensures item in FilteredItems(menu, activeCategory, searchQuery) <==>
            (activeCategory == AllCategories || item.category == activeCategory) &&
            (HasText(searchQuery) ==> MatchesQuery(item, ToLower(searchQuery)))
  {
    FilteredItemsOnePass(menu, activeCategory, searchQuery);
    FilterMembership(menu, (item: MenuItem) => IsListed(item, activeCategory, searchQuery), item);
  }

  /** A blank query filters nothing by text: under "all" the whole menu is
      listed, and under another category exactly that category's dishes. */
  lemma BlankQueryFiltersNothing(menu: seq<MenuItem>, activeCategory: string, searchQuery: string)
    requires !HasText(searchQuery)
    ensures FilteredItems(menu, AllCategories, searchQuery) == menu
    ensures FilteredItems(menu, activeCategory, searchQuery) ==
            FilteredItems(menu, activeCategory, InitialSearchQuery)
  {
    HasTextExamples();
  }

  /** Whenever the popular section is drawn, the full menu lists every dish. */
  lemma PopularShownWithWholeMenu(menu: seq<MenuItem>, activeCategory: string, searchQuery: string)
    requires ShowPopular(activeCategory, searchQuery)
    ensures FilteredItems(menu, activeCategory, searchQuery) == menu
  {
  }

  /** The popular section is drawn exactly for the "all" category with a
      blank query; the first render is such a case. */
  lemma ShowPopularRule(activeCategory: string, searchQuery: string)
    ensures ShowPopular(activeCategory, searchQuery) <==>
            activeCategory == AllCategories && IsBlank(searchQuery)
    ensures ShowPopular(InitialCategory, InitialSearchQuery)
  {
    HasTextExamples();
  }

  /** The dish the leading-space example searches for. */
  const SampleBurger: MenuItem := MenuItem("b1", "Burger", "Juicy", 199.0, "burgers", true)

  /** The query "burger" finds the sample dish by its name. */
  lemma BurgerMatches()
    ensures HasText("burger") && MatchesQuery(SampleBurger, ToLower("burger"))
  {
    assert !IsBlank("burger") by { assert !IsWhitespace("burger"[0]); }
    assert ToLower("Burger") == "burger";
    assert ToLower("burger") == "burger";
    assert "burger" <= "burger";
  }

  /** The query " burger" has text but occurs nowhere in the sample dish. */
  lemma SpacedBurgerMisses()
    ensures HasText(" burger") && !MatchesQuery(SampleBurger, ToLower(" burger"))
  {
    assert !IsBlank(" burger") by { assert !IsWhitespace(" burger"[1]); }
    var q := ToLower(" burger");
    assert q == " burger";
    assert ToLower("Burger") == "burger";
    assert ToLower("Juicy") == "juicy";
    assert ToLower("burgers") == "burgers";
    ContainsIffOccurs("burger", q);
    ContainsIffOccurs("juicy", q);
    ContainsIffOccurs("burgers", q);
    assert !OccursAt("burgers", q, 0) by { assert "burgers"[0] != q[0]; }
  }

  /** The query is matched untrimmed: a dish named "Burger" in category
      "burgers" is found by "burger" but not by " burger", although both
      queries have text. */
  lemma LeadingSpaceIsSearched()
    ensures FilteredItems([SampleBurger], AllCategories, "burger") == [SampleBurger]
    ensures FilteredItems([SampleBurger], AllCategories, " burger") == []
  {
    SingleDishListing("burger");
    SingleDishListing(" burger");
    BurgerMatches();
    SpacedBurgerMisses();
  }

  /** On a one-dish menu the full menu is that dish or nothing. */
  lemma SingleDishListing(searchQuery: string)
    ensures FilteredItems([SampleBurger], AllCategories, searchQuery) ==
            if MatchesSearch(SampleBurger, searchQuery) then [SampleBurger] else []
  {
    var menu := [SampleBurger];
    assert menu[1..] == [];
    FilteredItemsOnePass(menu, AllCategories, searchQuery);
  }

  /** The count label says "item" exactly for one listed dish, and the
      "No dishes found" message is drawn exactly when none is listed. */
  lemma ResultLabels(items: seq<MenuItem>)
    ensures CountNoun(items) == "item" <==> |items| == 1
    ensures CountNoun(items) == "items" <==> |items| != 1
    ensures ShowsNoDishes(items) <==> items == []
  {
  }
}
