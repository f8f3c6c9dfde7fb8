/**
 * The shared marketplace page
 * (business-platform/backup/frontend-2025-10-04_12-27-42/src/pages/Marketplace.tsx):
 * three tabs (supplier products, open merchant orders, shipping services),
 * a category list drawn from all three, a search, a sort selector, and the
 * favourite hearts. A shipping company sees only the services tab.
 *
 * The lists are loaded from the browser store by `LocalStorage`; here they
 * are the page's fields, and a reload replaces them. Dates are given as
 * their millisecond values.
 */
module MarketplacePage {
  import opened Common

  datatype Tab = Products | Orders | Services

  datatype MarketItem = MarketItem(
    id: string, name: string, description: string, category: string, price: real,
    providerRating: Option<real>, createdAt: real, kind: string)

  datatype MerchantOrder = MerchantOrder(
    id: string, title: string, description: string, category: string, budget: real,
    merchantRating: Option<real>, createdAt: real, status: string)

  /** A stored shipping service; its category may be missing. */
  datatype ShippingService = ShippingService(
    id: string, name: string, description: string, category: Option<string>, pricePerKg: real,
    rating: Option<real>)

  /** The first entry of the category list, which selects everything. */
  const AllLabel := "الكل"
  /** The category a service without one is listed under. */
  const DefaultServiceCategory := "خدمة شحن"

  // ---------------------------------------------------------------------
  // Tabs
  // ---------------------------------------------------------------------

  /** `getVisibleTabs`; `None` is a visitor who is not signed in. */
  function VisibleTabs(role: Option<string>): (r: seq<Tab>)
    ensures |r| > 0
  {
    if role == Some("shipping_company") then [Services] else [Products, Orders, Services]
  }

  /** A shipping company sees the services tab only; everybody else sees
    * all three tabs. */
  lemma VisibleTabsSpec(role: Option<string>, t: Tab)
    ensures Services in VisibleTabs(role)
    ensures role == Some("shipping_company") ==> (t in VisibleTabs(role) <==> t == Services)
    ensures role != Some("shipping_company") ==> t in VisibleTabs(role)
  {
  }

  /** The effect that keeps the active tab visible. */
  function ResetTab(active: Tab, role: Option<string>): (r: Tab)
    ensures r in VisibleTabs(role)
  {
    if active in VisibleTabs(role) then active else VisibleTabs(role)[0]
  }

  /** A visible tab stays; a hidden one gives way to the first visible tab,
    * which for a shipping company is the services tab; resetting twice is
    * resetting once. */
  lemma ResetTabSpec(active: Tab, role: Option<string>)
    ensures active in VisibleTabs(role) ==> ResetTab(active, role) == active
    ensures active !in VisibleTabs(role) ==> ResetTab(active, role) == VisibleTabs(role)[0]
    ensures role == Some("shipping_company") ==> ResetTab(active, role) == Services
    ensures ResetTab(ResetTab(active, role), role) == ResetTab(active, role)
  {
  }

  // ---------------------------------------------------------------------
  // Categories
  // ---------------------------------------------------------------------

  function ServiceCategory(s: ShippingService): string {
    OrElse(s.category, DefaultServiceCategory)
  }

  /** The categories of all items, orders and services, in that order. */
  function CategoryPool(items: seq<MarketItem>, orders: seq<MerchantOrder>, services: seq<ShippingService>): seq<string> {
    seq(|items|, k requires 0 <= k < |items| => items[k].category)
    + seq(|orders|, k requires 0 <= k < |orders| => orders[k].category)
    + seq(|services|, k requires 0 <= k < |services| => ServiceCategory(services[k]))
  }

  /** The pool holds the category of every item, order and service, and
    * nothing else. */
  lemma CategoryPoolSpec(items: seq<MarketItem>, orders: seq<MerchantOrder>, services: seq<ShippingService>)
    ensures var r := CategoryPool(items, orders, services);
      && (forall k :: 0 <= k < |items| ==> items[k].category in r)
      && (forall k :: 0 <= k < |orders| ==> orders[k].category in r)
      && (forall k :: 0 <= k < |services| ==> ServiceCategory(services[k]) in r)
      && (forall c :: c in r ==>
            (exists k :: 0 <= k < |items| && items[k].category == c) ||
            (exists k :: 0 <= k < |orders| && orders[k].category == c) ||
            (exists k :: 0 <= k < |services| && ServiceCategory(services[k]) == c))
  {
    var r := CategoryPool(items, orders, services);
    forall k | 0 <= k < |items| ensures items[k].category in r {
      assert r[k] == items[k].category;
    }
    forall k | 0 <= k < |orders| ensures orders[k].category in r {
      assert r[|items| + k] == orders[k].category;
    }
    forall k | 0 <= k < |services| ensures ServiceCategory(services[k]) in r {
      assert r[|items| + |orders| + k] == ServiceCategory(services[k]);
    }
  }

  function NonEmpty(): string -> bool {
    (c: string) => c != ""
  }

  /** `getAllCategories`: "all" first, then every non-empty category once,
    * in order of first appearance. */
  function AllCategories(items: seq<MarketItem>, orders: seq<MerchantOrder>, services: seq<ShippingService>): seq<string> {
    [AllLabel] + Filter(Distinct(CategoryPool(items, orders, services)), NonEmpty())
  }

  /** The list opens with "all", offers exactly the non-empty categories in
    * use, each once, and always offers every service's category. */
  lemma AllCategoriesSpec(items: seq<MarketItem>, orders: seq<MerchantOrder>, services: seq<ShippingService>)
    ensures var r := AllCategories(items, orders, services);
      && r[0] == AllLabel
      && (forall c :: c in r[1..] <==> c != "" && c in CategoryPool(items, orders, services))
      && NoDuplicates(r[1..])
      && (forall k :: 0 <= k < |services| ==> ServiceCategory(services[k]) in r)
  {
    var pool := CategoryPool(items, orders, services);
    var r := AllCategories(items, orders, services);
    CategoryPoolSpec(items, orders, services);
    DistinctSpec(pool);
    assert r[1..] == Filter(Distinct(pool), NonEmpty());
    forall c ensures c in r[1..] <==> c != "" && c in pool {
      FilterMembership(Distinct(pool), NonEmpty(), c);
    }
    assert Pairwise(Distinct(pool), Differ()) by {
      forall i, j | 0 <= i < j < |Distinct(pool)| ensures Differ()(Distinct(pool)[i], Distinct(pool)[j]) {
      }
    }
    FilterPairwise(Distinct(pool), NonEmpty(), Differ());
    forall k | 0 <= k < |services| ensures ServiceCategory(services[k]) in r {
      assert ServiceCategory(services[k]) in r[1..];
    }
  }

  function Differ(): (string, string) -> bool {
    (a: string, b: string) => a != b
  }

  // ---------------------------------------------------------------------
  // The three lists
  // ---------------------------------------------------------------------

  predicate CategoryPasses(selected: string, category: string) {
    selected == AllLabel || category == selected
  }

  function ItemKeeps(q: string, selected: string): MarketItem -> bool {
    (i: MarketItem) => (Matches(i.name, q) || Matches(i.description, q)) && CategoryPasses(selected, i.category)
  }

  /** Orders also have to be open. */
  function OrderKeeps(q: string, selected: string): MerchantOrder -> bool {
    (o: MerchantOrder) =>
      (Matches(o.title, q) || Matches(o.description, q)) && CategoryPasses(selected, o.category) && o.status == "open"
  }

  /** The services test as written: the stored category itself is compared,
    * so a service without one never matches a chosen category. */
  function ServiceKeepsAsWritten(q: string, selected: string): ShippingService -> bool {
    (s: ShippingService) =>
      (Matches(s.name, q) || Matches(s.description, q)) && (selected == AllLabel || s.category == Some(selected))
  }

  /** The services test compared, like the category list, on the category
    * the service is listed under. */
  function ServiceKeeps(q: string, selected: string): ShippingService -> bool {
    (s: ShippingService) => (Matches(s.name, q) || Matches(s.description, q)) && CategoryPasses(selected, ServiceCategory(s))
  }

  /** `rating || 0`. */
  function RatingOrZero(r: Option<real>): real {
    if r.Some? then r.value else 0.0
  }

  function ItemPrice(i: MarketItem): real { i.price }
  function ItemRating(i: MarketItem): real { RatingOrZero(i.providerRating) }
  function ItemTime(i: MarketItem): real { i.createdAt }
  function OrderBudget(o: MerchantOrder): real { o.budget }
  function OrderRating(o: MerchantOrder): real { RatingOrZero(o.merchantRating) }
  function OrderTime(o: MerchantOrder): real { o.createdAt }
  function ServicePrice(s: ShippingService): real { s.pricePerKg }
  function ServiceRating(s: ShippingService): real { RatingOrZero(s.rating) }

  /** The comparators of the sort selector: cheapest first, dearest first,
    * best rated first, and otherwise newest first (services: best rated). */
  function ItemOrder(sortBy: string): (MarketItem, MarketItem) -> bool {
    if sortBy == "price-low" then ByAsc(ItemPrice)
    else if sortBy == "price-high" then ByDesc(ItemPrice)
    else if sortBy == "rating" then ByDesc(ItemRating)
    else ByDesc(ItemTime)
  }

  function OrderOrder(sortBy: string): (MerchantOrder, MerchantOrder) -> bool {
    if sortBy == "price-low" then ByAsc(OrderBudget)
    else if sortBy == "price-high" then ByDesc(OrderBudget)
    else if sortBy == "rating" then ByDesc(OrderRating)
    else ByDesc(OrderTime)
  }

  function ServiceOrder(sortBy: string): (ShippingService, ShippingService) -> bool {
    if sortBy == "price-low" then ByAsc(ServicePrice)
    else if sortBy == "price-high" then ByDesc(ServicePrice)
    else ByDesc(ServiceRating)
  }

  function ProductsShown(items: seq<MarketItem>, q: string, selected: string, sortBy: string): seq<MarketItem> {
    SortBy(Filter(items, ItemKeeps(q, selected)), ItemOrder(sortBy))
  }

  function OrdersShown(orders: seq<MerchantOrder>, q: string, selected: string, sortBy: string): seq<MerchantOrder> {
    SortBy(Filter(orders, OrderKeeps(q, selected)), OrderOrder(sortBy))
  }

  function ServicesShownAsWritten(services: seq<ShippingService>, q: string, selected: string, sortBy: string): seq<ShippingService> {
    SortBy(Filter(services, ServiceKeepsAsWritten(q, selected)), ServiceOrder(sortBy))
  }

  function ServicesShown(services: seq<ShippingService>, q: string, selected: string, sortBy: string): seq<ShippingService> {
    SortBy(Filter(services, ServiceKeeps(q, selected)), ServiceOrder(sortBy))
  }

  /** What `getFilteredItems` returns for each tab. */
  datatype Listing = ProductList(items: seq<MarketItem>) | OrderList(orders: seq<MerchantOrder>) | ServiceList(services: seq<ShippingService>)

  function FilteredItems(tab: Tab, items: seq<MarketItem>, orders: seq<MerchantOrder>, services: seq<ShippingService>,
                         q: string, selected: string, sortBy: string): Listing {
    match tab
    case Products => ProductList(ProductsShown(items, q, selected, sortBy))
    case Orders => OrderList(OrdersShown(orders, q, selected, sortBy))
    case Services => ServiceList(ServicesShownAsWritten(services, q, selected, sortBy))
  }

  /** Sorting a filtered list: it is ordered, it holds exactly what passes
    * the test, each as often as in the input. */
  lemma SortFilterSpec<T(!new)>(xs: seq<T>, p: T -> bool, le: (T, T) -> bool)
    requires Total(le)
    ensures var r := SortBy(Filter(xs, p), le);
      && SortedBy(r, le)
      && multiset(r) == multiset(Filter(xs, p))
      && (forall x :: x in r <==> x in xs && p(x))
  {
    var f := Filter(xs, p);
    var r := SortBy(f, le);
    SortBySpec(f, le);
    forall x ensures x in r <==> x in xs && p(x) {
      assert x in r <==> x in multiset(r);
      assert x in f <==> x in multiset(f);
      FilterMembership(xs, p, x);
    }
  }

  /** The products tab lists exactly the items the search and the category
    * let through, ordered by the chosen sort. */
  lemma ProductsShownSpec(items: seq<MarketItem>, q: string, selected: string, sortBy: string)
    ensures var r := ProductsShown(items, q, selected, sortBy);
      && (forall i :: i in r <==>
            i in items && (Matches(i.name, q) || Matches(i.description, q)) && CategoryPasses(selected, i.category))
      && (sortBy == "price-low" ==> SortedBy(r, ByAsc(ItemPrice)))
      && (sortBy == "price-high" ==> SortedBy(r, ByDesc(ItemPrice)))
      && (sortBy == "rating" ==> SortedBy(r, ByDesc(ItemRating)))
      && (sortBy !in {"price-low", "price-high", "rating"} ==> SortedBy(r, ByDesc(ItemTime)))
  {
    KeyOrderTotal(ItemPrice);
    KeyOrderTotal(ItemRating);
    KeyOrderTotal(ItemTime);
    SortFilterSpec(items, ItemKeeps(q, selected), ItemOrder(sortBy));
  }

  /** The orders tab lists only open orders, exactly those the search and
    * the category let through, ordered by the chosen sort. */
  lemma OrdersShownSpec(orders: seq<MerchantOrder>, q: string, selected: string, sortBy: string)
    ensures var r := OrdersShown(orders, q, selected, sortBy);
      && (forall o :: o in r <==>
            o in orders && (Matches(o.title, q) || Matches(o.description, q)) &&
            CategoryPasses(selected, o.category) && o.status == "open")
      && (forall k :: 0 <= k < |r| ==> r[k].status == "open")
      && (sortBy == "price-low" ==> SortedBy(r, ByAsc(OrderBudget)))
      && (sortBy == "price-high" ==> SortedBy(r, ByDesc(OrderBudget)))
      && (sortBy == "rating" ==> SortedBy(r, ByDesc(OrderRating)))
      && (sortBy !in {"price-low", "price-high", "rating"} ==> SortedBy(r, ByDesc(OrderTime)))
  {
    KeyOrderTotal(OrderBudget);
    KeyOrderTotal(OrderRating);
    KeyOrderTotal(OrderTime);
    SortFilterSpec(orders, OrderKeeps(q, selected), OrderOrder(sortBy));
    var r := OrdersShown(orders, q, selected, sortBy);
    forall k | 0 <= k < |r| ensures r[k].status == "open" {
      assert r[k] in r;
    }
  }

  /** The services tab lists exactly the services the search lets through
    * whose stored category is the chosen one (any, under "all"), cheapest,
    * dearest or best rated first. */
  lemma ServicesShownSpec(services: seq<ShippingService>, q: string, selected: string, sortBy: string)
    ensures var r := ServicesShownAsWritten(services, q, selected, sortBy);
      && (forall s :: s in r <==>
            s in services && (Matches(s.name, q) || Matches(s.description, q)) &&
            (selected == AllLabel || s.category == Some(selected)))
      && (sortBy == "price-low" ==> SortedBy(r, ByAsc(ServicePrice)))
      && (sortBy == "price-high" ==> SortedBy(r, ByDesc(ServicePrice)))
      && (sortBy != "price-low" && sortBy != "price-high" ==> SortedBy(r, ByDesc(ServiceRating)))
  {
    KeyOrderTotal(ServicePrice);
    KeyOrderTotal(ServiceRating);
    SortFilterSpec(services, ServiceKeepsAsWritten(q, selected), ServiceOrder(sortBy));
  }

  /** When every service carries a non-empty category, the stored and the
    * listed category coincide, and the two filters show the same list. */
  lemma AsWrittenAgreesWhenCategorised(services: seq<ShippingService>, q: string, selected: string, sortBy: string)
    requires forall k :: 0 <= k < |services| ==> services[k].category.Some? && services[k].category.value != ""
    ensures ServicesShownAsWritten(services, q, selected, sortBy) == ServicesShown(services, q, selected, sortBy)
  {
    forall s | s in services ensures ServiceKeepsAsWritten(q, selected)(s) == ServiceKeeps(q, selected)(s) {
      var k :| 0 <= k < |services| && services[k] == s;
      assert ServiceCategory(s) == s.category.value;
    }
    FilterAgree(services, ServiceKeepsAsWritten(q, selected), ServiceKeeps(q, selected));
  }

  /** As written, a service without a category is offered under the default
    * shipping category in the list, yet choosing that category hides it. */
  lemma UncategorisedServiceHidden(items: seq<MarketItem>, orders: seq<MerchantOrder>, services: seq<ShippingService>,
                                   k: nat, q: string, sortBy: string)
    requires k < |services| && services[k].category.None?
    ensures DefaultServiceCategory in AllCategories(items, orders, services)
    ensures services[k] !in ServicesShownAsWritten(services, q, DefaultServiceCategory, sortBy)
  {
    AllCategoriesSpec(items, orders, services);
    KeyOrderTotal(ServicePrice);
    KeyOrderTotal(ServiceRating);
    SortFilterSpec(services, ServiceKeepsAsWritten(q, DefaultServiceCategory), ServiceOrder(sortBy));
  }

  /** With the category compared as listed, choosing any offered category
    * with an empty search shows every service listed under it. */
  lemma EveryServiceFoundUnderItsCategory(items: seq<MarketItem>, orders: seq<MerchantOrder>, services: seq<ShippingService>,
                                          k: nat, sortBy: string)
    requires k < |services|
    ensures ServiceCategory(services[k]) in AllCategories(items, orders, services)
    ensures services[k] in ServicesShown(services, "", ServiceCategory(services[k]), sortBy)
  {
    AllCategoriesSpec(items, orders, services);
    KeyOrderTotal(ServicePrice);
    KeyOrderTotal(ServiceRating);
    SortFilterSpec(services, ServiceKeeps("", ServiceCategory(services[k])), ServiceOrder(sortBy));
    EmptyQueryMatches(services[k].name);
  }

  // ---------------------------------------------------------------------
  // The page
  // ---------------------------------------------------------------------

  class Page {
    var role: Option<string>
    var activeTab: Tab
    var favorites: set<string>
    var items: seq<MarketItem>
    var orders: seq<MerchantOrder>
    var services: seq<ShippingService>

    /** The active tab is always one the user may see. */
    predicate Valid()
      reads this
    {
      activeTab in VisibleTabs(role)
    }

    /** Opening the page on the products tab; the effect moves a shipping
      * company to its only tab. */
    constructor (role: Option<string>, items: seq<MarketItem>, orders: seq<MerchantOrder>, services: seq<ShippingService>)
      ensures this.role == role && activeTab == ResetTab(Products, role) && favorites == {}
      ensures this.items == items && this.orders == orders && this.services == services
      ensures Valid()
    {
      this.role := role;
      activeTab := ResetTab(Products, role);
      favorites := {};
      this.items := items;
      this.orders := orders;
      this.services := services;
    }

    /** Clicking a tab, followed by the effect. */
    method SelectTab(t: Tab)
      requires Valid()
      modifies this
      ensures activeTab == ResetTab(t, role)
      ensures t in VisibleTabs(role) ==> activeTab == t
      ensures role == old(role) && favorites == old(favorites)
      ensures items == old(items) && orders == old(orders) && services == old(services)
      ensures Valid()
    {
      activeTab := ResetTab(t, role);
    }

    /** Another user signs in; the effect re-checks the active tab. */
    method ChangeUser(newRole: Option<string>)
      requires Valid()
      modifies this
      ensures role == newRole && activeTab == ResetTab(old(activeTab), newRole)
      ensures favorites == old(favorites)
      ensures items == old(items) && orders == old(orders) && services == old(services)
      ensures Valid()
    {
      role := newRole;
      activeTab := ResetTab(activeTab, newRole);
    }

    /** The `market-updated` and `storage` listeners: the lists are read
      * again. */
    method Reload(newItems: seq<MarketItem>, newOrders: seq<MerchantOrder>, newServices: seq<ShippingService>)
      requires Valid()
      modifies this
      ensures items == newItems && orders == newOrders && services == newServices
      ensures role == old(role) && activeTab == old(activeTab) && favorites == old(favorites)
      ensures Valid()
    {
      items, orders, services := newItems, newOrders, newServices;
    }

    /** `toggleFavorite`: the heart of one item flips, the others stay. */
    method ToggleFavorite(id: string)
      requires Valid()
      modifies this
      ensures favorites == Toggle(old(favorites), id)
      ensures id in favorites <==> id !in old(favorites)
      ensures role == old(role) && activeTab == old(activeTab)
      ensures items == old(items) && orders == old(orders) && services == old(services)
      ensures Valid()
    {
      favorites := Toggle(favorites, id);
    }

    /** The list on screen: the active tab's kind of entry, holding exactly
      * the entries of that kind the search and the category let through
      * (open orders only, and services by their stored category). */
    function Listed(q: string, selected: string, sortBy: string): (r: Listing)
      reads this
      ensures activeTab == Products <==> r.ProductList?
      ensures activeTab == Orders <==> r.OrderList?
      ensures activeTab == Services <==> r.ServiceList?
      ensures r.ProductList? ==> forall i :: i in r.items <==>
        i in items && (Matches(i.name, q) || Matches(i.description, q)) && CategoryPasses(selected, i.category)
      ensures r.OrderList? ==> forall o :: o in r.orders <==>
        o in orders && (Matches(o.title, q) || Matches(o.description, q)) &&
        CategoryPasses(selected, o.category) && o.status == "open"
      ensures r.ServiceList? ==> forall s :: s in r.services <==>
        s in services && (Matches(s.name, q) || Matches(s.description, q)) &&
        (selected == AllLabel || s.category == Some(selected))
    {
      ProductsShownSpec(items, q, selected, sortBy);
      OrdersShownSpec(orders, q, selected, sortBy);
      ServicesShownSpec(services, q, selected, sortBy);
      FilteredItems(activeTab, items, orders, services, q, selected, sortBy)
    }
  }
}
