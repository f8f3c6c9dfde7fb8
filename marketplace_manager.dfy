/**
 * The client-side marketplace of the older front end
 * (business-platform/backup/frontend-2025-10-04_12-27-42/src/utils/marketplaceManager.ts).
 * Three JSON arrays in browser storage (`marketplace_supplier_offers`,
 * `marketplace_merchant_requests`, `marketplace_shipping_services`) are
 * the fields of one `MarketplaceManager`; the writers append to them or
 * replace one element, the readers filter, search, sort and aggregate.
 *
 * Generated ids and ISO timestamps are parameters. Dates compared by the
 * recommendation sort are their millisecond values.
 */
module MarketplaceStore {
  import opened Common

  datatype SupplierInfo = SupplierInfo(
    id: string, name: string, rating: real, verified: bool, responseTime: string, location: string)

  datatype OfferStats = OfferStats(views: int, inquiries: int, orders: int, satisfaction: real)

  datatype SupplierOffer = SupplierOffer(
    id: string, status: string, title: string, description: string, category: string,
    price: real, shippingIncluded: bool, quality: string, certifications: seq<string>,
    supplier: SupplierInfo, stats: OfferStats, createdAt: string, updatedAt: string)

  datatype MerchantInfo = MerchantInfo(
    id: string, name: string, rating: real, verified: bool, location: string, businessType: string)

  /** A supplier's answer to a merchant request; `price` is `offer.price`. */
  datatype SupplierResponse = SupplierResponse(
    id: string, requestId: string, supplierId: string, supplierName: string,
    price: real, quantity: int, status: string, submittedAt: string)

  datatype RequestStats = RequestStats(views: int, offers: int, avgOfferPrice: real)

  datatype MerchantRequest = MerchantRequest(
    id: string, status: string, title: string, description: string, category: string,
    quantity: int, budgetMin: real, budgetMax: real, deliveryDate: int,
    merchant: MerchantInfo, receivedOffers: seq<SupplierResponse>, stats: RequestStats,
    createdAt: string, updatedAt: string)

  datatype ShippingCompany = ShippingCompany(id: string, name: string, rating: real, verified: bool)

  datatype ServiceStats = ServiceStats(
    totalDeliveries: int, onTimeDelivery: real, customerSatisfaction: real, avgDeliveryTime: string)

  datatype ShippingService = ShippingService(
    id: string, status: string, serviceType: string, title: string, description: string,
    coverage: seq<string>, sameDay: bool, nextDay: bool, company: ShippingCompany,
    stats: ServiceStats, createdAt: string, updatedAt: string)

  // ---------------------------------------------------------------------
  // Filters
  // ---------------------------------------------------------------------

  datatype Range = Range(min: real, max: real)

  datatype SupplierCriteria = SupplierCriteria(
    quality: Option<string>, responseTime: Option<string>, certifications: Option<seq<string>>)

  datatype MerchantCriteria = MerchantCriteria(budget: Option<Range>, businessType: Option<string>)

  datatype ShippingCriteria = ShippingCriteria(
    deliverySpeed: Option<string>, serviceType: Option<string>, coverage: Option<string>)

  /** `MarketplaceFilters`; an absent key is `None`. */
  datatype Filters = Filters(
    category: Option<string>, priceRange: Option<Range>, location: Option<string>,
    rating: Option<real>, verified: Option<bool>,
    supplierFilters: Option<SupplierCriteria>, merchantFilters: Option<MerchantCriteria>,
    shippingFilters: Option<ShippingCriteria>)

  /** A text criterion applies only when it is truthy: present and non-empty. */
  predicate Given(o: Option<string>) {
    o.Some? && o.value != ""
  }

  /** A rating criterion of 0 is falsy and so not applied. */
  predicate GivenRating(o: Option<real>) {
    o.Some? && o.value != 0.0
  }

  predicate InRange(x: real, r: Range) {
    r.min <= x <= r.max
  }

  /** `sf.certifications.every(cert => offer.certifications.includes(cert))`. */
  predicate HasAll(required: seq<string>, held: seq<string>) {
    forall i :: 0 <= i < |required| ==> required[i] in held
  }

  predicate OfferPasses(f: Filters, o: SupplierOffer) {
    && (Given(f.category) ==> o.category == f.category.value)
    && (f.priceRange.Some? ==> InRange(o.price, f.priceRange.value))
    && (Given(f.location) ==> Contains(o.supplier.location, f.location.value))
    && (GivenRating(f.rating) ==> o.supplier.rating >= f.rating.value)
    && (f.verified.Some? ==> o.supplier.verified == f.verified.value)
    && (f.supplierFilters.Some? ==>
          var sf := f.supplierFilters.value;
          && (Given(sf.quality) ==> o.quality == sf.quality.value)
          && (Given(sf.responseTime) ==> o.supplier.responseTime == sf.responseTime.value)
          && (sf.certifications.Some? ==> HasAll(sf.certifications.value, o.certifications)))
  }

  /** The budget test `!(min > f.max || max < f.min)`. */
  predicate BudgetPasses(req: MerchantRequest, b: Range) {
    !(req.budgetMin > b.max || req.budgetMax < b.min)
  }

  predicate RequestPasses(f: Filters, r: MerchantRequest) {
    && (Given(f.category) ==> r.category == f.category.value)
    && (Given(f.location) ==> Contains(r.merchant.location, f.location.value))
    && (GivenRating(f.rating) ==> r.merchant.rating >= f.rating.value)
    && (f.verified.Some? ==> r.merchant.verified == f.verified.value)
    && (f.merchantFilters.Some? ==>
          var mf := f.merchantFilters.value;
          && (mf.budget.Some? ==> BudgetPasses(r, mf.budget.value))
          && (Given(mf.businessType) ==> r.merchant.businessType == mf.businessType.value))
  }

  predicate ServicePasses(f: Filters, s: ShippingService) {
    && (Given(f.location) ==> f.location.value in s.coverage)
    && (GivenRating(f.rating) ==> s.company.rating >= f.rating.value)
    && (f.verified.Some? ==> s.company.verified == f.verified.value)
    && (f.shippingFilters.Some? ==>
          var sf := f.shippingFilters.value;
          && (Given(sf.serviceType) ==> s.serviceType == sf.serviceType.value)
          && (Given(sf.deliverySpeed) && sf.deliverySpeed.value == "same_day" ==> s.sameDay)
          && (Given(sf.deliverySpeed) && sf.deliverySpeed.value == "next_day" ==> s.nextDay)
          && (Given(sf.coverage) ==> sf.coverage.value in s.coverage))
  }

  /** `getSupplierOffers(filters?)`. */
  function OffersMatching(offers: seq<SupplierOffer>, f: Option<Filters>): seq<SupplierOffer> {
    if f.None? then offers else Filter(offers, (o: SupplierOffer) => OfferPasses(f.value, o))
  }

  function RequestsMatching(requests: seq<MerchantRequest>, f: Option<Filters>): seq<MerchantRequest> {
    if f.None? then requests else Filter(requests, (r: MerchantRequest) => RequestPasses(f.value, r))
  }

  function ServicesMatching(services: seq<ShippingService>, f: Option<Filters>): seq<ShippingService> {
    if f.None? then services else Filter(services, (s: ShippingService) => ServicePasses(f.value, s))
  }

  /** An offer is returned exactly when it is stored and meets every given
    * criterion: category, inclusive price range, rating at least, verified
    * flag, and every required certification. */
  lemma OffersMatchingSpec(offers: seq<SupplierOffer>, f: Filters, o: SupplierOffer)
    ensures o in OffersMatching(offers, Some(f)) <==>
      && o in offers
      && (Given(f.category) ==> o.category == f.category.value)
      && (f.priceRange.Some? ==> f.priceRange.value.min <= o.price <= f.priceRange.value.max)
      && (GivenRating(f.rating) ==> o.supplier.rating >= f.rating.value)
      && (f.verified.Some? ==> o.supplier.verified == f.verified.value)
      && (f.supplierFilters.Some? && f.supplierFilters.value.certifications.Some? ==>
            forall c :: c in f.supplierFilters.value.certifications.value ==> c in o.certifications)
      && OfferPasses(f, o)
  {
    FilterMembership(offers, (x: SupplierOffer) => OfferPasses(f, x), o);
    if o in offers && OfferPasses(f, o) && f.supplierFilters.Some? && f.supplierFilters.value.certifications.Some? {
      var req := f.supplierFilters.value.certifications.value;
      forall c | c in req ensures c in o.certifications {
        var i :| 0 <= i < |req| && req[i] == c;
      }
    }
  }

  /** Filters that name no criterion keep every stored offer, in order. */
  lemma NoCriteriaKeepsAllOffers(offers: seq<SupplierOffer>)
    ensures OffersMatching(offers, Some(Filters(None, None, None, None, None, None, None, None))) == offers
  {
    FilterKeepsAll(offers, (o: SupplierOffer) => OfferPasses(Filters(None, None, None, None, None, None, None, None), o));
  }

  /** The budget test keeps exactly the requests whose budget interval
    * shares a price with the filter's interval. */
  lemma BudgetOverlap(req: MerchantRequest, b: Range)
    requires req.budgetMin <= req.budgetMax && b.min <= b.max
    ensures BudgetPasses(req, b) <==> exists x: real :: SharedPrice(req, b, x)
  {
    if BudgetPasses(req, b) {
      var x := if req.budgetMin < b.min then b.min else req.budgetMin;
      assert SharedPrice(req, b, x);
    }
  }

  /** `x` is within the request's budget and within the filter's range. */
  predicate SharedPrice(req: MerchantRequest, b: Range, x: real) {
    req.budgetMin <= x <= req.budgetMax && InRange(x, b)
  }

  lemma RequestsMatchingSpec(requests: seq<MerchantRequest>, f: Filters, r: MerchantRequest)
    ensures r in RequestsMatching(requests, Some(f)) <==> r in requests && RequestPasses(f, r)
    ensures r in RequestsMatching(requests, Some(f)) && f.merchantFilters.Some? && f.merchantFilters.value.budget.Some? ==>
      var b := f.merchantFilters.value.budget.value;
      r.budgetMin <= b.max && b.min <= r.budgetMax
  {
    FilterMembership(requests, (x: MerchantRequest) => RequestPasses(f, x), r);
  }

  /** A same-day criterion keeps only same-day services; a criterion on
    * coverage keeps only services covering that area. */
  lemma ServicesMatchingSpec(services: seq<ShippingService>, f: Filters, s: ShippingService)
    ensures s in ServicesMatching(services, Some(f)) <==> s in services && ServicePasses(f, s)
    ensures (s in ServicesMatching(services, Some(f)) && f.shippingFilters.Some? &&
             f.shippingFilters.value.deliverySpeed == Some("same_day")) ==> s.sameDay
  {
    FilterMembership(services, (x: ShippingService) => ServicePasses(f, x), s);
  }

  // ---------------------------------------------------------------------
  // Writers
  // ---------------------------------------------------------------------

  /** The offer `addSupplierOffer` stores: the caller's fields, a fresh id,
    * both timestamps, and zero counters with satisfaction 5. */
  function NewOffer(draft: SupplierOffer, id: string, now: string): (o: SupplierOffer)
    ensures o.id == id && o.createdAt == now && o.updatedAt == now
    ensures o.stats == OfferStats(0, 0, 0, 5.0)
    ensures o.(id := draft.id, createdAt := draft.createdAt, updatedAt := draft.updatedAt, stats := draft.stats) == draft
  {
    draft.(id := id, createdAt := now, updatedAt := now, stats := OfferStats(0, 0, 0, 5.0))
  }

  /** `addMerchantRequest`: no offers received yet. */
  function NewRequest(draft: MerchantRequest, id: string, now: string): (r: MerchantRequest)
    ensures r.id == id && r.receivedOffers == [] && r.stats == RequestStats(0, 0, 0.0)
    ensures StatsAgree(r)
  {
    draft.(id := id, createdAt := now, updatedAt := now, receivedOffers := [], stats := RequestStats(0, 0, 0.0))
  }

  function NewService(draft: ShippingService, id: string, now: string): (s: ShippingService)
    ensures s.id == id && s.stats == ServiceStats(0, 95.0, 4.8, "2-3 أيام")
  {
    draft.(id := id, createdAt := now, updatedAt := now, stats := ServiceStats(0, 95.0, 4.8, "2-3 أيام"))
  }

  /** `Partial<SupplierOffer>`: every key of an offer may be given; `None`
    * is a key the update does not carry. */
  datatype OfferPatch = OfferPatch(
    id: Option<string>, status: Option<string>, title: Option<string>, description: Option<string>,
    category: Option<string>, price: Option<real>, shippingIncluded: Option<bool>,
    quality: Option<string>, certifications: Option<seq<string>>, supplier: Option<SupplierInfo>,
    stats: Option<OfferStats>, createdAt: Option<string>, updatedAt: Option<string>)

  /** `{ ...offer, ...updates, updatedAt }`: the update's keys win, and the
    * timestamp is stamped last. */
  function MergeOffer(o: SupplierOffer, u: OfferPatch, now: string): (r: SupplierOffer)
    ensures r.updatedAt == now
  {
    o.(id := Pick(u.id, o.id), status := Pick(u.status, o.status), title := Pick(u.title, o.title),
       description := Pick(u.description, o.description), category := Pick(u.category, o.category),
       price := Pick(u.price, o.price), shippingIncluded := Pick(u.shippingIncluded, o.shippingIncluded),
       quality := Pick(u.quality, o.quality), certifications := Pick(u.certifications, o.certifications),
       supplier := Pick(u.supplier, o.supplier), stats := Pick(u.stats, o.stats),
       createdAt := Pick(u.createdAt, o.createdAt), updatedAt := now)
  }

  /** Each key the update carries takes its value, each key it leaves out
    * keeps the offer's value, and `updatedAt` is the merge time even when
    * the update carries one. */
  lemma MergeOfferSpec(o: SupplierOffer, u: OfferPatch, now: string)
    ensures var r := MergeOffer(o, u, now);
      && r.id == (if u.id.Some? then u.id.value else o.id)
      && r.status == (if u.status.Some? then u.status.value else o.status)
      && r.title == (if u.title.Some? then u.title.value else o.title)
      && r.description == (if u.description.Some? then u.description.value else o.description)
      && r.category == (if u.category.Some? then u.category.value else o.category)
      && r.price == (if u.price.Some? then u.price.value else o.price)
      && r.shippingIncluded == (if u.shippingIncluded.Some? then u.shippingIncluded.value else o.shippingIncluded)
      && r.quality == (if u.quality.Some? then u.quality.value else o.quality)
      && r.certifications == (if u.certifications.Some? then u.certifications.value else o.certifications)
      && r.supplier == (if u.supplier.Some? then u.supplier.value else o.supplier)
      && r.stats == (if u.stats.Some? then u.stats.value else o.stats)
      && r.createdAt == (if u.createdAt.Some? then u.createdAt.value else o.createdAt)
      && r.updatedAt == now
  {
  }

  /** An update that carries no key only moves the timestamp. */
  lemma EmptyOfferPatch(o: SupplierOffer, now: string)
    ensures MergeOffer(o, OfferPatch(None, None, None, None, None, None, None, None, None, None, None, None, None), now)
            == o.(updatedAt := now)
  {
  }

  /** Merging the same update twice is merging it once. */
  lemma MergeOfferIdempotent(o: SupplierOffer, u: OfferPatch, now: string)
    ensures MergeOffer(MergeOffer(o, u, now), u, now) == MergeOffer(o, u, now)
  {
  }

  function ResponsePrice(r: SupplierResponse): real {
    r.price
  }

  /** The request's counters agree with its received offers: `stats.offers`
    * is their number and `avgOfferPrice` their mean price. */
  predicate StatsAgree(r: MerchantRequest) {
    r.stats.offers == |r.receivedOffers| && r.stats.avgOfferPrice == Mean(r.receivedOffers, ResponsePrice)
  }

  /** `addSupplierResponse` on the found request: the response is pushed,
    * `stats.offers` goes up by one and the average is recomputed over all
    * received offers. */
  function WithResponse(req: MerchantRequest, resp: SupplierResponse): (r: MerchantRequest)
    ensures r.receivedOffers == req.receivedOffers + [resp]
    ensures r.stats.offers == req.stats.offers + 1 && r.stats.views == req.stats.views
    ensures r.stats.avgOfferPrice == Mean(r.receivedOffers, ResponsePrice)
    ensures r.(receivedOffers := req.receivedOffers, stats := req.stats) == req
  {
    var received := req.receivedOffers + [resp];
    req.(receivedOffers := received,
         stats := req.stats.(offers := req.stats.offers + 1,
                             avgOfferPrice := Sum(received, ResponsePrice) / (|received| as real)))
  }

  /** Responding keeps the counters in agreement with the offers. */
  lemma WithResponseKeepsStats(req: MerchantRequest, resp: SupplierResponse)
    requires StatsAgree(req)
    ensures StatsAgree(WithResponse(req, resp))
    ensures WithResponse(req, resp).stats.offers == |req.receivedOffers| + 1
  {
  }

  /** The average offer price lies between the lowest and the highest
    * price offered. */
  lemma AverageWithinOfferedPrices(req: MerchantRequest, resp: SupplierResponse, lo: real, hi: real)
    requires lo <= resp.price <= hi
    requires forall i :: 0 <= i < |req.receivedOffers| ==> lo <= req.receivedOffers[i].price <= hi
    ensures lo <= WithResponse(req, resp).stats.avgOfferPrice <= hi
  {
    var received := req.receivedOffers + [resp];
    assert forall i :: 0 <= i < |received| ==> lo <= ResponsePrice(received[i]) <= hi by {
      forall i | 0 <= i < |received| ensures lo <= ResponsePrice(received[i]) <= hi {
        if i < |req.receivedOffers| { assert received[i] == req.receivedOffers[i]; }
      }
    }
    MeanBetween(received, ResponsePrice, lo, hi);
  }

  predicate AllStatsAgree(requests: seq<MerchantRequest>) {
    forall i :: 0 <= i < |requests| ==> StatsAgree(requests[i])
  }

  predicate RequestHasId(id: string, r: MerchantRequest) {
    r.id == id
  }

  predicate OfferHasId(id: string, o: SupplierOffer) {
    o.id == id
  }

  // ---------------------------------------------------------------------
  // smartSearch
  // ---------------------------------------------------------------------

  datatype SearchType = AllTypes | OffersOnly | RequestsOnly | ServicesOnly

  datatype SearchResults = SearchResults(
    offers: seq<SupplierOffer>, requests: seq<MerchantRequest>, services: seq<ShippingService>)

  /** `type === 'all' || type === want || !type`. */
  predicate Searches(t: Option<SearchType>, want: SearchType) {
    t.None? || t.value == AllTypes || t.value == want
  }

  predicate OfferMatches(o: SupplierOffer, q: string) {
    Matches(o.title, q) || Matches(o.description, q) || Matches(o.category, q) || Matches(o.supplier.name, q)
  }

  predicate RequestMatches(r: MerchantRequest, q: string) {
    Matches(r.title, q) || Matches(r.description, q) || Matches(r.category, q) || Matches(r.merchant.name, q)
  }

  predicate ServiceMatches(s: ShippingService, q: string) {
    Matches(s.title, q) || Matches(s.description, q) || Matches(s.company.name, q)
    || exists k :: 0 <= k < |s.coverage| && Matches(s.coverage[k], q)
  }

  function SmartSearch(offers: seq<SupplierOffer>, requests: seq<MerchantRequest>,
                       services: seq<ShippingService>, query: string, t: Option<SearchType>): SearchResults
  {
    SearchResults(
      if Searches(t, OffersOnly) then Filter(offers, (o: SupplierOffer) => OfferMatches(o, query)) else [],
      if Searches(t, RequestsOnly) then Filter(requests, (r: MerchantRequest) => RequestMatches(r, query)) else [],
      if Searches(t, ServicesOnly) then Filter(services, (s: ShippingService) => ServiceMatches(s, query)) else [])
  }

  /** Each list holds exactly the stored items of its kind whose searched
    * fields contain the query, ignoring case, and stays empty when the
    * type selects another kind. */
  lemma SmartSearchSpec(offers: seq<SupplierOffer>, requests: seq<MerchantRequest>,
                        services: seq<ShippingService>, query: string, t: Option<SearchType>,
                        o: SupplierOffer, r: MerchantRequest, s: ShippingService)
    ensures var res := SmartSearch(offers, requests, services, query, t);
      && (o in res.offers <==> Searches(t, OffersOnly) && o in offers && OfferMatches(o, query))
      && (r in res.requests <==> Searches(t, RequestsOnly) && r in requests && RequestMatches(r, query))
      && (s in res.services <==> Searches(t, ServicesOnly) && s in services && ServiceMatches(s, query))
  {
    FilterMembership(offers, (x: SupplierOffer) => OfferMatches(x, query), o);
    FilterMembership(requests, (x: MerchantRequest) => RequestMatches(x, query), r);
    FilterMembership(services, (x: ShippingService) => ServiceMatches(x, query), s);
  }

  /** An empty query over all types returns everything stored. */
  lemma EmptySearchFindsAll(offers: seq<SupplierOffer>, requests: seq<MerchantRequest>, services: seq<ShippingService>)
    ensures SmartSearch(offers, requests, services, "", None) == SearchResults(offers, requests, services)
  {
    forall o | o in offers ensures OfferMatches(o, "") { EmptyQueryMatches(o.title); }
    forall r | r in requests ensures RequestMatches(r, "") { EmptyQueryMatches(r.title); }
    forall s | s in services ensures ServiceMatches(s, "") { EmptyQueryMatches(s.title); }
    FilterKeepsAll(offers, (o: SupplierOffer) => OfferMatches(o, ""));
    FilterKeepsAll(requests, (r: MerchantRequest) => RequestMatches(r, ""));
    FilterKeepsAll(services, (s: ShippingService) => ServiceMatches(s, ""));
  }

  // ---------------------------------------------------------------------
  // Recommendations
  // ---------------------------------------------------------------------

  predicate ActiveRequest(r: MerchantRequest) {
    r.status == "active"
  }

  predicate ActiveOffer(o: SupplierOffer) {
    o.status == "active"
  }

  function BudgetMax(r: MerchantRequest): real {
    r.budgetMax
  }

  function DeliveryTime(r: MerchantRequest): real {
    r.deliveryDate as real
  }

  function SupplierRating(o: SupplierOffer): real {
    o.supplier.rating
  }

  function OfferPrice(o: SupplierOffer): real {
    o.price
  }

  /** Suppliers see active requests, largest budget first, earlier delivery
    * date first among equal budgets; at most ten. */
  function ForSupplier(requests: seq<MerchantRequest>): seq<MerchantRequest> {
    Take(SortBy(Filter(requests, ActiveRequest), DescThenAsc(BudgetMax, DeliveryTime)), 10)
  }

  /** Merchants see active offers, best-rated supplier first, cheaper first
    * among equal ratings; at most ten. */
  function ForMerchant(offers: seq<SupplierOffer>): seq<SupplierOffer> {
    Take(SortBy(Filter(offers, ActiveOffer), DescThenAsc(SupplierRating, OfferPrice)), 10)
  }

  lemma ForSupplierSpec(requests: seq<MerchantRequest>)
    ensures var r := ForSupplier(requests);
      && |r| == (if Count(requests, ActiveRequest) < 10 then Count(requests, ActiveRequest) else 10)
      && SortedBy(r, DescThenAsc(BudgetMax, DeliveryTime))
      && (forall x :: x in r ==> x in requests && ActiveRequest(x))
  {
    var active := Filter(requests, ActiveRequest);
    DescThenAscOrders(BudgetMax, DeliveryTime);
    TopOrdered(active, DescThenAsc(BudgetMax, DeliveryTime), 10);
    CountBounded(requests, ActiveRequest);
  }

  /** No active request left out of the ten ranks above one included. */
  lemma ForSupplierIsTop(requests: seq<MerchantRequest>, i: nat, y: MerchantRequest)
    requires i < |ForSupplier(requests)|
    requires y in requests && ActiveRequest(y) && y !in ForSupplier(requests)
    ensures var x := ForSupplier(requests)[i];
      x.budgetMax > y.budgetMax || (x.budgetMax == y.budgetMax && x.deliveryDate <= y.deliveryDate)
  {
    DescThenAscOrders(BudgetMax, DeliveryTime);
    FilterMembership(requests, ActiveRequest, y);
    TakeSortedIsTop(Filter(requests, ActiveRequest), DescThenAsc(BudgetMax, DeliveryTime), 10, y, i);
    var x := ForSupplier(requests)[i];
    assert DescThenAsc(BudgetMax, DeliveryTime)(x, y);
    assert BudgetMax(x) > BudgetMax(y) || (BudgetMax(x) == BudgetMax(y) && DeliveryTime(x) <= DeliveryTime(y));
  }

  lemma ForMerchantSpec(offers: seq<SupplierOffer>)
    ensures var r := ForMerchant(offers);
      && |r| == (if Count(offers, ActiveOffer) < 10 then Count(offers, ActiveOffer) else 10)
      && SortedBy(r, DescThenAsc(SupplierRating, OfferPrice))
      && (forall x :: x in r ==> x in offers && ActiveOffer(x))
  {
    var active := Filter(offers, ActiveOffer);
    DescThenAscOrders(SupplierRating, OfferPrice);
    TopOrdered(active, DescThenAsc(SupplierRating, OfferPrice), 10);
    CountBounded(offers, ActiveOffer);
  }

  /** No active offer left out of the ten ranks above one included. */
  lemma ForMerchantIsTop(offers: seq<SupplierOffer>, i: nat, y: SupplierOffer)
    requires i < |ForMerchant(offers)|
    requires y in offers && ActiveOffer(y) && y !in ForMerchant(offers)
    ensures var x := ForMerchant(offers)[i];
      x.supplier.rating > y.supplier.rating || (x.supplier.rating == y.supplier.rating && x.price <= y.price)
  {
    DescThenAscOrders(SupplierRating, OfferPrice);
    FilterMembership(offers, ActiveOffer, y);
    TakeSortedIsTop(Filter(offers, ActiveOffer), DescThenAsc(SupplierRating, OfferPrice), 10, y, i);
    var x := ForMerchant(offers)[i];
    assert DescThenAsc(SupplierRating, OfferPrice)(x, y);
    assert SupplierRating(x) > SupplierRating(y) || (SupplierRating(x) == SupplierRating(y) && OfferPrice(x) <= OfferPrice(y));
  }

  /** A recommendation is a request or an offer. */
  datatype Listing = RequestListing(request: MerchantRequest) | OfferListing(offer: SupplierOffer)

  predicate NeedsShipping(o: SupplierOffer) {
    o.status == "active" && !o.shippingIncluded
  }

  function AsRequestListings(rs: seq<MerchantRequest>): (r: seq<Listing>)
    ensures |r| == |rs| && forall i :: 0 <= i < |rs| ==> r[i] == RequestListing(rs[i])
  {
    seq(|rs|, i requires 0 <= i < |rs| => RequestListing(rs[i]))
  }

  function AsOfferListings(os: seq<SupplierOffer>): (r: seq<Listing>)
    ensures |r| == |os| && forall i :: 0 <= i < |os| ==> r[i] == OfferListing(os[i])
  {
    seq(|os|, i requires 0 <= i < |os| => OfferListing(os[i]))
  }

  /** Shipping companies see active requests, then active offers whose
    * price excludes shipping; at most ten, unsorted. */
  function ForShipping(requests: seq<MerchantRequest>, offers: seq<SupplierOffer>): seq<Listing> {
    Take(AsRequestListings(Filter(requests, ActiveRequest)) + AsOfferListings(Filter(offers, NeedsShipping)), 10)
  }

  lemma ForShippingSpec(requests: seq<MerchantRequest>, offers: seq<SupplierOffer>)
    ensures var r := ForShipping(requests, offers);
      && |r| <= 10
      && forall i :: 0 <= i < |r| ==>
           (r[i].RequestListing? && r[i].request in requests && ActiveRequest(r[i].request))
           || (r[i].OfferListing? && r[i].offer in offers && NeedsShipping(r[i].offer))
  {
    var a := Filter(requests, ActiveRequest);
    var b := Filter(offers, NeedsShipping);
    var all := AsRequestListings(a) + AsOfferListings(b);
    forall i | 0 <= i < |all|
      ensures (all[i].RequestListing? && all[i].request in requests && ActiveRequest(all[i].request))
           || (all[i].OfferListing? && all[i].offer in offers && NeedsShipping(all[i].offer))
    {
      if i < |a| {
        assert all[i] == RequestListing(a[i]) && a[i] in a;
      } else {
        assert all[i] == OfferListing(b[i - |a|]) && b[i - |a|] in b;
      }
    }
  }

  /** `getRecommendations(userId, userType)`; any other type gets nothing. */
  function Recommendations(userType: string, requests: seq<MerchantRequest>, offers: seq<SupplierOffer>): (r: seq<Listing>)
    ensures userType != "supplier" && userType != "merchant" && userType != "shipping" ==> r == []
    ensures |r| <= 10
  {
    if userType == "supplier" then AsRequestListings(ForSupplier(requests))
    else if userType == "merchant" then AsOfferListings(ForMerchant(offers))
    else if userType == "shipping" then ForShipping(requests, offers)
    else []
  }

  // ---------------------------------------------------------------------
  // getMarketplaceStats
  // ---------------------------------------------------------------------

  datatype CategoryStats = CategoryStats(category: string, offers: nat, requests: nat, avgPrice: real)

  datatype MarketplaceStats = MarketplaceStats(
    totalOffers: nat, totalRequests: nat, totalServices: nat, activeUsers: nat,
    totalTransactions: nat, avgResponseTime: string, successRate: real,
    categoriesData: seq<CategoryStats>)

  function OfferCategory(o: SupplierOffer): string { o.category }
  function RequestCategory(r: MerchantRequest): string { r.category }

  /** `Array.from(new Set([...offer categories, ...request categories]))`. */
  function Categories(offers: seq<SupplierOffer>, requests: seq<MerchantRequest>): seq<string> {
    Distinct(AllCategories(offers, requests))
  }

  function CategoryData(c: string, offers: seq<SupplierOffer>, requests: seq<MerchantRequest>): CategoryStats {
    var inOffers := Filter(offers, (o: SupplierOffer) => o.category == c);
    var inRequests := Filter(requests, (r: MerchantRequest) => r.category == c);
    CategoryStats(c, |inOffers|, |inRequests|, Mean(inOffers, OfferPrice))
  }

  function Stats(offers: seq<SupplierOffer>, requests: seq<MerchantRequest>, services: seq<ShippingService>): MarketplaceStats {
    var cats := Categories(offers, requests);
    MarketplaceStats(
      |offers|, |requests|, |services|, 150, 1250, "2.5 ساعة", 87.5,
      seq(|cats|, i requires 0 <= i < |cats| => CategoryData(cats[i], offers, requests)))
  }

  function AllCategories(offers: seq<SupplierOffer>, requests: seq<MerchantRequest>): seq<string> {
    MapSeq(offers, OfferCategory) + MapSeq(requests, RequestCategory)
  }

  predicate Listed(c: string, offers: seq<SupplierOffer>, requests: seq<MerchantRequest>) {
    (exists k :: 0 <= k < |offers| && offers[k].category == c)
    || (exists k :: 0 <= k < |requests| && requests[k].category == c)
  }

  lemma ListedIffInAll(c: string, offers: seq<SupplierOffer>, requests: seq<MerchantRequest>)
    ensures c in AllCategories(offers, requests) <==> Listed(c, offers, requests)
  {
    var all := AllCategories(offers, requests);
    if c in all {
      var k :| 0 <= k < |all| && all[k] == c;
      if k >= |offers| { assert requests[k - |offers|].category == c; }
    }
    if exists k :: 0 <= k < |offers| && offers[k].category == c {
      var k :| 0 <= k < |offers| && offers[k].category == c;
      assert all[k] == c;
    }
    if exists k :: 0 <= k < |requests| && requests[k].category == c {
      var k :| 0 <= k < |requests| && requests[k].category == c;
      assert all[|offers| + k] == c;
    }
  }

  /** The totals are the list lengths and the category rows are distinct:
    * exactly the categories some offer or request carries. */
  lemma StatsCategories(offers: seq<SupplierOffer>, requests: seq<MerchantRequest>, services: seq<ShippingService>, c: string)
    ensures var s := Stats(offers, requests, services);
      && s.totalOffers == |offers| && s.totalRequests == |requests| && s.totalServices == |services|
      && (forall i, j :: 0 <= i < j < |s.categoriesData| ==> s.categoriesData[i].category != s.categoriesData[j].category)
      && ((exists i :: 0 <= i < |s.categoriesData| && s.categoriesData[i].category == c) <==> Listed(c, offers, requests))
  {
    var cats := Categories(offers, requests);
    var s := Stats(offers, requests, services);
    DistinctSpec(AllCategories(offers, requests));
    ListedIffInAll(c, offers, requests);
    assert forall i :: 0 <= i < |cats| ==> s.categoriesData[i].category == cats[i];
    if exists i :: 0 <= i < |cats| && s.categoriesData[i].category == c {
      var i :| 0 <= i < |cats| && s.categoriesData[i].category == c;
      assert cats[i] in cats;
    }
    if c in cats {
      var i :| 0 <= i < |cats| && cats[i] == c;
      assert s.categoriesData[i].category == c;
    }
  }

  /** Every category row counts at least one offer or request, and a row
    * with no offers has average price 0. */
  lemma StatsRows(offers: seq<SupplierOffer>, requests: seq<MerchantRequest>, services: seq<ShippingService>, i: nat)
    requires i < |Stats(offers, requests, services).categoriesData|
    ensures var row := Stats(offers, requests, services).categoriesData[i];
      && row.offers + row.requests > 0
      && (row.offers == 0 ==> row.avgPrice == 0.0)
  {
    var cats := Categories(offers, requests);
    var ci := cats[i];
    DistinctSpec(AllCategories(offers, requests));
    assert ci in cats;
    ListedIffInAll(ci, offers, requests);
    if exists k :: 0 <= k < |offers| && offers[k].category == ci {
      var k :| 0 <= k < |offers| && offers[k].category == ci;
      FilterMembership(offers, (o: SupplierOffer) => o.category == ci, offers[k]);
    } else {
      var k :| 0 <= k < |requests| && requests[k].category == ci;
      FilterMembership(requests, (r: MerchantRequest) => r.category == ci, requests[k]);
    }
  }

  /** A category's average price lies between its cheapest and its dearest
    * offer. */
  lemma CategoryAverageWithinPrices(c: string, offers: seq<SupplierOffer>, requests: seq<MerchantRequest>, lo: real, hi: real)
    requires exists k :: 0 <= k < |offers| && offers[k].category == c
    requires forall k :: 0 <= k < |offers| && offers[k].category == c ==> lo <= offers[k].price <= hi
    ensures lo <= CategoryData(c, offers, requests).avgPrice <= hi
  {
    var p := (o: SupplierOffer) => o.category == c;
    var inOffers := Filter(offers, p);
    var k :| 0 <= k < |offers| && offers[k].category == c;
    FilterMembership(offers, p, offers[k]);
    forall i | 0 <= i < |inOffers| ensures lo <= OfferPrice(inOffers[i]) <= hi {
      assert inOffers[i] in inOffers;
      var j :| 0 <= j < |offers| && offers[j] == inOffers[i];
    }
    MeanBetween(inOffers, OfferPrice, lo, hi);
  }

  // ---------------------------------------------------------------------
  // The manager
  // ---------------------------------------------------------------------

  class MarketplaceManager {
    var offers: seq<SupplierOffer>
    var requests: seq<MerchantRequest>
    var services: seq<ShippingService>

    /** Every stored request's counters agree with its received offers. */
    predicate Valid()
      reads this
    {
      AllStatsAgree(requests)
    }

    constructor ()
      ensures offers == [] && requests == [] && services == []
      ensures Valid()
    {
      offers, requests, services := [], [], [];
    }

    /** `addSupplierOffer`: one offer appended. */
    method AddSupplierOffer(draft: SupplierOffer, id: string, now: string) returns (o: SupplierOffer)
      modifies this
      ensures o == NewOffer(draft, id, now)
      ensures offers == old(offers) + [o]
      ensures requests == old(requests) && services == old(services)
    {
      o := NewOffer(draft, id, now);
      offers := offers + [o];
    }

    /** `addMerchantRequest`: one request appended, with no offers yet. */
    method AddMerchantRequest(draft: MerchantRequest, id: string, now: string) returns (r: MerchantRequest)
      modifies this
      ensures r == NewRequest(draft, id, now)
      ensures requests == old(requests) + [r]
      ensures offers == old(offers) && services == old(services)
      ensures old(Valid()) ==> Valid()
    {
      r := NewRequest(draft, id, now);
      requests := requests + [r];
    }

    /** `addShippingService`: one service appended with the default stats. */
    method AddShippingService(draft: ShippingService, id: string, now: string) returns (s: ShippingService)
      modifies this
      ensures s == NewService(draft, id, now)
      ensures services == old(services) + [s]
      ensures offers == old(offers) && requests == old(requests)
    {
      s := NewService(draft, id, now);
      services := services + [s];
    }

    /** `updateSupplierOffer`: `null` and no write for an unknown id;
      * otherwise the first offer with the id is merged. */
    method UpdateSupplierOffer(id: string, u: OfferPatch, now: string) returns (r: Option<SupplierOffer>)
      modifies this
      ensures r.None? <==> forall k :: 0 <= k < |old(offers)| ==> old(offers)[k].id != id
      ensures r.None? ==> offers == old(offers)
      ensures r.Some? ==>
        var i := FirstIndex(old(offers), (o: SupplierOffer) => OfferHasId(id, o)).value;
        && r.value == MergeOffer(old(offers)[i], u, now)
        && offers == old(offers)[i := r.value]
      ensures requests == old(requests) && services == old(services)
    {
      var i := FirstIndex(offers, (o: SupplierOffer) => OfferHasId(id, o));
      if i.None? {
        return None;
      }
      var merged := MergeOffer(offers[i.value], u, now);
      offers := offers[i.value := merged];
      r := Some(merged);
    }

    /** `addSupplierResponse`: `null` and no write for an unknown request. */
    method AddSupplierResponse(requestId: string, draft: SupplierResponse, id: string, now: string)
      returns (r: Option<SupplierResponse>)
      modifies this
      ensures r.None? <==> forall k :: 0 <= k < |old(requests)| ==> old(requests)[k].id != requestId
      ensures r.None? ==> requests == old(requests)
      ensures r.Some? ==>
        var i := FirstIndex(old(requests), (x: MerchantRequest) => RequestHasId(requestId, x)).value;
        && r.value == draft.(id := id, submittedAt := now)
        && requests == old(requests)[i := WithResponse(old(requests)[i], r.value)]
      ensures offers == old(offers) && services == old(services)
      ensures old(Valid()) ==> Valid()
    {
      var i := FirstIndex(requests, (x: MerchantRequest) => RequestHasId(requestId, x));
      if i.None? {
        return None;
      }
      var resp := draft.(id := id, submittedAt := now);
      var before := requests;
      requests := requests[i.value := WithResponse(requests[i.value], resp)];
      if AllStatsAgree(before) {
        WithResponseKeepsStats(before[i.value], resp);
      }
      r := Some(resp);
    }

    /** `clearAllData`: the three arrays are removed. */
    method ClearAllData()
      modifies this
      ensures offers == [] && requests == [] && services == []
      ensures Valid()
    {
      offers, requests, services := [], [], [];
    }
  }

}
