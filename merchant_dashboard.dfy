/**
 * The merchant's dashboard (frontend/src/pages/MerchantDashboard.tsx):
 * favourite market items, new purchase orders built from the order form
 * (their budget and seven-day deadline), publishing an order to the shared
 * market at most once, cancelling an order, and the open-orders figure.
 * The partner handlers are in `Partners`.
 *
 * The dashboard's page state and the local-storage lists it writes
 * (`business_merchant_orders`, `merchant_published_orders`, the market items
 * and `business_shipping_jobs`) are the fields of one `Dashboard` object.
 * Generated ids, ISO timestamps and today's day number are parameters.
 */
module MerchantDashboard {
  import opened Common

  // ---------------------------------------------------------------------
  // Order lines and the budget
  // ---------------------------------------------------------------------

  /** A product line of the order form; `None` is a missing value or one
    * `Number(...)` turns into NaN. */
  datatype RawLine = RawLine(productId: Option<string>, name: Option<string>, price: Option<real>, quantity: Option<real>)

  datatype OrderLine = OrderLine(productId: string, name: string, price: real, quantity: real)

  /** `Number(x) || 0`. */
  function OrZero(x: Option<real>): real {
    if x.Some? then x.value else 0.0
  }

  /** `Number(x) || 1`: missing, NaN and 0 all give 1. */
  function OrOne(x: Option<real>): (r: real)
    ensures r != 0.0
  {
    if x.Some? && x.value != 0.0 then x.value else 1.0
  }

  function NormalizeLine(r: RawLine): OrderLine {
    OrderLine(OrElse(r.productId, ""), OrElse(r.name, "منتج"), OrZero(r.price), OrOne(r.quantity))
  }

  /** One term of the budget `reduce`: `(Number(price) || 0) * (Number(quantity) || 1)`. */
  function LineAmount(l: OrderLine): real {
    l.price * (if l.quantity != 0.0 then l.quantity else 1.0)
  }

  /** A missing price adds nothing and a missing quantity counts once. */
  lemma LineAmountSpec(r: RawLine)
    ensures LineAmount(NormalizeLine(r)) == OrZero(r.price) * OrOne(r.quantity)
    ensures r.price.None? ==> LineAmount(NormalizeLine(r)) == 0.0
    ensures r.price.Some? && r.quantity.None? ==> LineAmount(NormalizeLine(r)) == r.price.value
  {
  }

  /** The budget: the sum of the line amounts when there are lines,
    * otherwise `Number(value || 0) || 0`. */
  function Budget(lines: Option<seq<OrderLine>>, value: Option<real>): real {
    if lines.Some? && |lines.value| > 0 then Sum(lines.value, LineAmount) else OrZero(value)
  }

  /** Lines with non-negative prices and quantities give a non-negative
    * budget, and without lines the form's value is the budget. */
  lemma BudgetSpec(lines: Option<seq<OrderLine>>, value: Option<real>)
    ensures (lines.None? || lines.value == []) ==> Budget(lines, value) == OrZero(value)
    ensures (lines.Some? && lines.value != [] &&
             (forall i :: 0 <= i < |lines.value| ==> lines.value[i].price >= 0.0 && lines.value[i].quantity >= 0.0)) ==>
            Budget(lines, value) >= 0.0
  {
    if lines.Some? && lines.value != [] &&
      (forall i :: 0 <= i < |lines.value| ==> lines.value[i].price >= 0.0 && lines.value[i].quantity >= 0.0) {
      forall x | x in lines.value ensures LineAmount(x) >= 0.0 {
        var i :| 0 <= i < |lines.value| && lines.value[i] == x;
        var q := if x.quantity != 0.0 then x.quantity else 1.0;
        assert q >= 0.0 && x.price >= 0.0;
      }
      SumNonNegative(lines.value, LineAmount);
    }
  }

  // ---------------------------------------------------------------------
  // New orders
  // ---------------------------------------------------------------------

  /** The fields of the order form `handleAddOrder` reads. */
  datatype OrderForm = OrderForm(
    publishToMarketplace: bool,
    title: Option<string>, marketTitle: Option<string>, packageDescription: Option<string>,
    merchant: Option<string>, details: Option<string>, marketDetails: Option<string>,
    marketQuantity: Option<string>, customerName: Option<string>, customerPhone: Option<string>,
    category: Option<string>, marketCategory: Option<string>,
    products: Option<seq<RawLine>>, originalItemId: Option<string>,
    value: Option<real>, quantity: Option<real>, shippingServiceId: Option<string>)

  datatype MerchantOrder = MerchantOrder(
    id: string, title: string, description: string, category: string, budget: real,
    deadline: int, status: string, merchantId: string, merchantName: string,
    products: Option<seq<OrderLine>>, shippingServiceId: Option<string>,
    publishedAt: Option<string>, createdAt: string)

  /** The lines: the form's product list, else one line for the market item
    * the order was started from, else none. */
  function FormLines(f: OrderForm, selectedName: Option<string>): Option<seq<OrderLine>> {
    if f.products.Some? then
      Some(seq(|f.products.value|, i requires 0 <= i < |f.products.value| => NormalizeLine(f.products.value[i])))
    else if f.originalItemId.Some? && f.originalItemId.value != "" then
      Some([OrderLine(f.originalItemId.value,
                      OrElse(selectedName, OrElse(f.packageDescription, OrElse(f.title, "منتج"))),
                      OrZero(f.value), OrOne(f.quantity))])
    else None
  }

  /** The order `handleAddOrder` hands to `storage.addMerchantOrder`, with
    * the id and creation time storage gives it; `today` is a day number. */
  function NewOrder(f: OrderForm, selectedName: Option<string>, id: string, now: string, today: int): MerchantOrder {
    var lines := FormLines(f, selectedName);
    MerchantOrder(
      id,
      OrElse(f.title, OrElse(f.marketTitle, OrElse(f.packageDescription, "طلب من " + OrElse(f.merchant, "التاجر")))),
      if f.publishToMarketplace then OrElse(f.details, OrElse(f.marketDetails, "كمية: " + OrElse(f.marketQuantity, "1")))
      else "العميل: " + OrElse(f.customerName, "") + " • " + OrElse(f.customerPhone, ""),
      OrElse(f.category, OrElse(f.marketCategory, OrElse(f.merchant, "عام"))),
      Budget(lines, f.value),
      today + 7, "open", "current-merchant", OrElse(f.merchant, "التاجر"),
      lines, if f.shippingServiceId.Some? && f.shippingServiceId.value != "" then f.shippingServiceId else None,
      None, now)
  }

  /** A new order is open, due seven days from today, unpublished, and its
    * budget is the sum of its lines when it has any. */
  lemma NewOrderSpec(f: OrderForm, selectedName: Option<string>, id: string, now: string, today: int)
    ensures var o := NewOrder(f, selectedName, id, now, today);
      && o.status == "open" && o.deadline == today + 7 && o.publishedAt.None?
      && o.id == id && o.products == FormLines(f, selectedName)
      && (o.products.Some? && o.products.value != [] ==> o.budget == Sum(o.products.value, LineAmount))
      && (f.products.Some? ==> |o.products.value| == |f.products.value|)
      && (f.products.None? && (f.originalItemId.None? || f.originalItemId.value == "") ==> o.budget == OrZero(f.value))
  {
  }

  // ---------------------------------------------------------------------
  // Publishing, cancelling, counting
  // ---------------------------------------------------------------------

  /** The market item `publishOrderToMarketplace` adds (stock 1, type
    * product, the merchant as provider), with the id storage gives it. */
  datatype OrderListing = OrderListing(id: string, name: string, price: real, category: string,
                                       description: string, sku: string, providerId: string, providerName: string)

  function ListingOf(o: MerchantOrder, marketItemId: string): OrderListing {
    OrderListing(marketItemId, o.title, o.budget, o.category, o.description, "MKT-" + o.id, o.merchantId, o.merchantName)
  }

  /** A record of `merchant_published_orders`. */
  datatype Publication = Publication(orderId: string, marketItemId: string, publishedAt: string)

  /** A record of `business_shipping_jobs`. */
  datatype ShippingJob = ShippingJob(orderId: string, serviceId: string, createdAt: string)

  predicate IsPublished(published: seq<Publication>, orderId: string) {
    exists k :: 0 <= k < |published| && published[k].orderId == orderId
  }

  function OrderWithId(id: string): MerchantOrder -> bool {
    (o: MerchantOrder) => o.id == id
  }

  /** `orders.map(o => o.id === id ? updated : o)`. */
  function ReplaceWhere(orders: seq<MerchantOrder>, id: string, updated: MerchantOrder): (r: seq<MerchantOrder>)
    ensures |r| == |orders|
    ensures forall i :: 0 <= i < |orders| ==> r[i] == if orders[i].id == id then updated else orders[i]
  {
    if orders == [] then []
    else [if orders[0].id == id then updated else orders[0]] + ReplaceWhere(orders[1..], id, updated)
  }

  predicate IsOpen(o: MerchantOrder) {
    o.status == "open"
  }

  function OpenWith(id: string): MerchantOrder -> bool {
    (o: MerchantOrder) => o.id == id && o.status == "open"
  }

  /** Replacing the orders with an id by one that is not open takes exactly
    * those that were open off the open count. */
  lemma {:induction false} ReplaceOpenCount(orders: seq<MerchantOrder>, id: string, updated: MerchantOrder)
    requires !IsOpen(updated)
    ensures Count(ReplaceWhere(orders, id, updated), IsOpen) + Count(orders, OpenWith(id)) == Count(orders, IsOpen)
  {
    if orders != [] {
      ReplaceOpenCount(orders[1..], id, updated);
      assert ReplaceWhere(orders, id, updated)[1..] == ReplaceWhere(orders[1..], id, updated);
    }
  }

  class Dashboard {
    var favorites: set<string>
    /** The orders on the page. */
    var orders: seq<MerchantOrder>
    /** `business_merchant_orders`. */
    var storedOrders: seq<MerchantOrder>
    /** `merchant_published_orders`. */
    var published: seq<Publication>
    var market: seq<OrderListing>
    var jobs: seq<ShippingJob>

    /** The load effect: the saved orders and favourites. */
    constructor (storedOrders: seq<MerchantOrder>, favorites: set<string>, published: seq<Publication>,
                 market: seq<OrderListing>, jobs: seq<ShippingJob>)
      ensures this.storedOrders == storedOrders && orders == storedOrders && this.favorites == favorites
      ensures this.published == published && this.market == market && this.jobs == jobs
    {
      this.storedOrders := storedOrders;
      orders := storedOrders;
      this.favorites := favorites;
      this.published := published;
      this.market := market;
      this.jobs := jobs;
    }

    /** The "open orders" figure. */
    function ActiveOrders(): nat
      reads this
    {
      Count(orders, IsOpen)
    }

    /** `toggleFavorite`. */
    method ToggleFavorite(itemId: string)
      modifies this`favorites
      ensures favorites == Toggle(old(favorites), itemId)
    {
      favorites := Toggle(favorites, itemId);
    }

    /** `publishOrderToMarketplace`: an order already recorded as published
      * adds nothing; otherwise one market item and one record are added,
      * and the saved order gets `publishedAt`. */
    method PublishOrder(order: MerchantOrder, marketItemId: string, now: string) returns (done: bool)
      modifies this
      ensures done <==> !IsPublished(old(published), order.id)
      ensures !done ==> unchanged(this)
      ensures done ==>
        && market == old(market) + [ListingOf(order, marketItemId)]
        && published == old(published) + [Publication(order.id, marketItemId, now)]
        && favorites == old(favorites) && jobs == old(jobs)
        && var k := FirstIndex(old(storedOrders), OrderWithId(order.id));
           && (k.Some? ==>
                 var updated := old(storedOrders)[k.value].(publishedAt := Some(now));
                 storedOrders == old(storedOrders)[k.value := updated]
                 && orders == ReplaceWhere(old(orders), order.id, updated))
           && (k.None? ==> storedOrders == old(storedOrders) && orders == old(storedOrders))
    {
      if IsPublished(published, order.id) {
        return false;
      }
      market := market + [ListingOf(order, marketItemId)];
      published := published + [Publication(order.id, marketItemId, now)];
      var k := FirstIndex(storedOrders, OrderWithId(order.id));
      if k.Some? {
        var updated := storedOrders[k.value].(publishedAt := Some(now));
        storedOrders := storedOrders[k.value := updated];
        orders := ReplaceWhere(orders, order.id, updated);
      } else {
        orders := storedOrders;
      }
      done := true;
    }

    /** `handleAddOrder`: the order is saved and shown last. A market order
      * is also published (its page copy keeps `publishedAt` empty until the
      * next load); an order with a shipping service gets a shipping job. */
    method AddOrder(f: OrderForm, selectedName: Option<string>, id: string, now: string, today: int,
                    marketItemId: string) returns (saved: MerchantOrder)
      modifies this
      ensures saved == NewOrder(f, selectedName, id, now, today)
      ensures !f.publishToMarketplace ==>
        && storedOrders == old(storedOrders) + [saved] && orders == old(orders) + [saved]
        && published == old(published) && market == old(market) && favorites == old(favorites)
        && jobs == old(jobs) + (if saved.shippingServiceId.Some? then [ShippingJob(id, saved.shippingServiceId.value, now)] else [])
      ensures f.publishToMarketplace ==>
        && |storedOrders| == |old(storedOrders)| + 1 && |orders| >= 1 && orders[|orders| - 1] == saved
        && jobs == old(jobs) && favorites == old(favorites)
        && (IsPublished(old(published), id) ==>
              storedOrders == old(storedOrders) + [saved] && orders == old(orders) + [saved]
              && published == old(published) && market == old(market))
        && (!IsPublished(old(published), id) ==>
              published == old(published) + [Publication(id, marketItemId, now)]
              && market == old(market) + [ListingOf(saved, marketItemId)])
        && (!IsPublished(old(published), id) ==>
              var all := old(storedOrders) + [saved];
              var k := FirstIndex(all, OrderWithId(id));
              && k.Some?
              && var updated := all[k.value].(publishedAt := Some(now));
                 storedOrders == all[k.value := updated] && orders == ReplaceWhere(old(orders), id, updated) + [saved])
      ensures f.publishToMarketplace && !IsPublished(old(published), id)
              && (forall i :: 0 <= i < |old(storedOrders)| ==> old(storedOrders)[i].id != id)
              && (forall i :: 0 <= i < |old(orders)| ==> old(orders)[i].id != id) ==>
        storedOrders == old(storedOrders) + [saved.(publishedAt := Some(now))] && orders == old(orders) + [saved]
    {
      saved := NewOrder(f, selectedName, id, now, today);
      storedOrders := storedOrders + [saved];
      if f.publishToMarketplace {
        ghost var before := storedOrders;
        ghost var shown := orders;
        var _ := PublishOrder(saved, marketItemId, now);
        assert FirstIndex(before, OrderWithId(id)).Some? by {
          assert OrderWithId(id)(before[|before| - 1]);
        }
        if forall i :: 0 <= i < |shown| ==> shown[i].id != id {
          assert ReplaceWhere(shown, id, saved.(publishedAt := Some(now))) == shown;
        }
        orders := orders + [saved];
        return;
      }
      orders := orders + [saved];
      if saved.shippingServiceId.Some? {
        jobs := jobs + [ShippingJob(id, saved.shippingServiceId.value, now)];
      }
    }

    /** `cancelOrder`: the first saved order with the id becomes
      * `cancelled` and replaces that order on the page; an unknown id
      * changes nothing. */
    method CancelOrder(id: string)
      modifies this
      ensures var k := FirstIndex(old(storedOrders), OrderWithId(id));
        && (k.None? ==> storedOrders == old(storedOrders) && orders == old(orders))
        && (k.Some? ==>
              var updated := old(storedOrders)[k.value].(status := "cancelled");
              storedOrders == old(storedOrders)[k.value := updated]
              && orders == ReplaceWhere(old(orders), id, updated))
      ensures FirstIndex(old(storedOrders), OrderWithId(id)).Some? ==>
        ActiveOrders() + Count(old(orders), OpenWith(id)) == old(ActiveOrders())
      ensures favorites == old(favorites) && published == old(published) && market == old(market) && jobs == old(jobs)
    {
      var k := FirstIndex(storedOrders, OrderWithId(id));
      if k.None? {
        return;
      }
      var updated := storedOrders[k.value].(status := "cancelled");
      ReplaceOpenCount(orders, id, updated);
      storedOrders := storedOrders[k.value := updated];
      orders := ReplaceWhere(orders, id, updated);
    }
  }
}
