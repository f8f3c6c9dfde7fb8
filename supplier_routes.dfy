/**
 * The supplier's handlers (business-platform-api/src/routes/supplier.py):
 * creating a quotation with server-computed totals, editing a product
 * through a partial payload, the free-form status updates of quotations and
 * orders, registering a merchant, the inventory report, and per-user
 * settings stored as text.
 *
 * The caller's identity is the supplier profile id the role gate admitted
 * (see `AuthGate.RequireSupplier`); settings use the session's user id.
 */
module SupplierRoutes {
  import opened Common
  import opened BackendModels
  import opened JsonText

  // ---------------------------------------------------------------------
  // create_quotation
  // ---------------------------------------------------------------------

  /** One element of the request's `items`; `None` is a missing key. */
  datatype QuotationItemInput = QuotationItemInput(
    productId: Option<int>, productName: Option<string>, description: Option<string>,
    quantity: Option<int>, unitPrice: Option<real>)

  /** Every line carries the keys the handler indexes directly. */
  predicate CompleteLine(it: QuotationItemInput) {
    it.quantity.Some? && it.unitPrice.Some? && it.productName.Some?
  }

  predicate AllComplete(items: seq<QuotationItemInput>) {
    forall k :: 0 <= k < |items| ==> CompleteLine(items[k])
  }

  function LineAmount(it: QuotationItemInput): real
    requires CompleteLine(it)
  {
    it.quantity.value as real * it.unitPrice.value
  }

  function StoredLine(it: QuotationItemInput): QuotationItem
    requires CompleteLine(it)
  {
    QuotationItem(it.productId, it.productName.value, it.description,
                  it.quantity.value, it.unitPrice.value, LineAmount(it))
  }

  function StoredLines(items: seq<QuotationItemInput>): (r: seq<QuotationItem>)
    requires AllComplete(items)
    ensures |r| == |items|
  {
    seq(|items|, k requires 0 <= k < |items| => StoredLine(items[k]))
  }

  function LineTotalOf(qi: QuotationItem): real { qi.totalPrice }

  /** The total loop of lines 258-260. */
  method QuotationTotal(items: seq<QuotationItemInput>) returns (total: real)
    requires AllComplete(items)
    ensures total == Sum(StoredLines(items), LineTotalOf)
  {
    total := 0.0;
    var i := 0;
    while i < |items|
      invariant 0 <= i <= |items|
      invariant total == Sum(StoredLines(items[..i]), LineTotalOf)
    {
      assert StoredLines(items[..i + 1]) == StoredLines(items[..i]) + [StoredLine(items[i])];
      SumAppend(StoredLines(items[..i]), [StoredLine(items[i])], LineTotalOf);
      total := total + LineAmount(items[i]);
      i := i + 1;
    }
    assert items[..|items|] == items;
  }

  /** Each stored line is quantity times unit price. */
  lemma StoredLineTotals(items: seq<QuotationItemInput>)
    requires AllComplete(items)
    ensures forall k :: 0 <= k < |items| ==>
      StoredLines(items)[k].totalPrice == StoredLines(items)[k].quantity as real * StoredLines(items)[k].unitPrice
  {
  }

  /** The outcome of `create_quotation` before any write. */
  function CreateQuotationCode(title: Option<string>, items: Option<seq<QuotationItemInput>>,
                               validUntil: DateField): int {
    if title.None? || items.None? then 400
    else if !AllComplete(items.value) || validUntil.BadDate? then 500
    else 201
  }

  // ---------------------------------------------------------------------
  // update_product
  // ---------------------------------------------------------------------

  /** The keys of the payload `update_product` looks at; `None` is an
    * absent key, `Some(None)` an explicit null in a nullable column. */
  datatype ProductPatch = ProductPatch(
    name: Option<string>, description: Option<Option<string>>, category: Option<Option<string>>,
    price: Option<real>, stock: Option<int>, minOrder: Option<int>, unit: Option<string>,
    images: Option<seq<string>>, isActive: Option<bool>)

  function ApplyPatch(p: Product, u: ProductPatch, now: int): Product {
    p.(name := Pick(u.name, p.name), description := Pick(u.description, p.description),
       category := Pick(u.category, p.category), price := Pick(u.price, p.price),
       stock := Pick(u.stock, p.stock), minOrder := Pick(u.minOrder, p.minOrder),
       unit := Pick(u.unit, p.unit), images := Pick(u.images, p.images),
       isActive := Pick(u.isActive, p.isActive), updatedAt := now)
  }

  /** Only the keys present in the payload change (plus the timestamp);
    * the id and the owner never do. */
  lemma PatchChangesOnlyGivenKeys(p: Product, u: ProductPatch, now: int)
    ensures var r := ApplyPatch(p, u, now);
      && r.id == p.id && r.supplierId == p.supplierId && r.updatedAt == now
      && (u.name.None? ==> r.name == p.name) && (u.name.Some? ==> r.name == u.name.value)
      && (u.price.None? ==> r.price == p.price) && (u.price.Some? ==> r.price == u.price.value)
      && (u.stock.None? ==> r.stock == p.stock) && (u.stock.Some? ==> r.stock == u.stock.value)
      && (u.isActive.None? ==> r.isActive == p.isActive)
      && (u.isActive.Some? ==> r.isActive == u.isActive.value)
      && r.description == (if u.description.Some? then u.description.value else p.description)
      && r.category == (if u.category.Some? then u.category.value else p.category)
      && r.minOrder == (if u.minOrder.Some? then u.minOrder.value else p.minOrder)
      && r.unit == (if u.unit.Some? then u.unit.value else p.unit)
      && r.images == (if u.images.Some? then u.images.value else p.images)
  {
  }

  /** An empty payload only moves `updated_at`. */
  lemma EmptyPatchTouchesOnlyTimestamp(p: Product, now: int)
    ensures ApplyPatch(p, ProductPatch(None, None, None, None, None, None, None, None, None), now)
            == p.(updatedAt := now)
  {
  }

  /** Sending the same payload twice is the same as sending it once. */
  lemma PatchIdempotent(p: Product, u: ProductPatch, now: int, later: int)
    ensures ApplyPatch(ApplyPatch(p, u, now), u, later) == ApplyPatch(p, u, later)
  {
  }

  // ---------------------------------------------------------------------
  // Status updates
  // ---------------------------------------------------------------------

  /** `update_quotation_status` and `update_order_status`: 404 for a row that
    * is missing or another supplier's, 400 without a `status` key, and
    * otherwise any value is taken. */
  function StatusUpdateCode(owned: bool, status: Option<string>): (c: int)
    ensures c == 200 <==> owned && status.Some?
    ensures c == 404 <==> !owned
  {
    if !owned then 404 else if status.None? then 400 else 200
  }

  // ---------------------------------------------------------------------
  // generate_report
  // ---------------------------------------------------------------------

  datatype ReportData =
    | SalesReport(totalOrders: nat, totalRevenue: real)
    | InventoryReport(totalProducts: nat, lowStock: nat, outOfStock: nat)
    | EmptyReport

  /** A missing key is a 400; a `date_from`/`date_to` that `strptime`
    * rejects raises into a 500 (`DateRejected`). */
  datatype ReportOutcome =
    | MissingField
    | DateRejected
    | Created(reportType: string, title: string, dateFrom: Option<int>, dateTo: Option<int>, data: ReportData)

  function OrderAmount(o: SupplierOrder): real { o.totalAmount }

  function Inventory(products: seq<Product>): ReportData {
    InventoryReport(|products|, Count(products, (p: Product) => p.stock < 10),
                    Count(products, (p: Product) => p.stock == 0))
  }

  /** The report `generate_report` is meant to create, for the supplier's
    * own orders and products (the results of the handler's queries). As
    * written the handler never creates one: see
    * `GenerateReportCodeAsWritten`. */
  function GenerateReport(reportType: Option<string>, title: Option<string>,
                          dateFrom: DateField, dateTo: DateField,
                          orders: seq<SupplierOrder>, products: seq<Product>): (r: ReportOutcome)
    ensures r.MissingField? <==> reportType.None? || title.None?
    ensures r.DateRejected? <==> reportType.Some? && title.Some? && (dateFrom.BadDate? || dateTo.BadDate?)
    ensures r.Created? ==> r.reportType == reportType.value && r.title == title.value
    ensures r.Created? ==> r.dateFrom == DateColumn(dateFrom) && r.dateTo == DateColumn(dateTo)
    ensures r.Created? && reportType == Some("sales") ==>
              r.data == SalesReport(|orders|, Sum(orders, OrderAmount))
    ensures r.Created? && reportType == Some("inventory") ==>
              && r.data == InventoryReport(|products|, Count(products, (p: Product) => p.stock < 10),
                                           Count(products, (p: Product) => p.stock == 0))
              && r.data.outOfStock <= r.data.lowStock <= r.data.totalProducts
    ensures r.Created? && reportType.value != "sales" && reportType.value != "inventory" ==> r.data == EmptyReport
  {
    InventoryCountsNest(products);
    if reportType.None? || title.None? then MissingField
    else if dateFrom.BadDate? || dateTo.BadDate? then DateRejected
    else
      var data :=
        if reportType.value == "sales" then SalesReport(|orders|, Sum(orders, OrderAmount))
        else if reportType.value == "inventory" then Inventory(products)
        else EmptyReport;
      Created(reportType.value, title.value, DateColumn(dateFrom), DateColumn(dateTo), data)
  }

  /** `generate_report` as written. `Report` in the supplier models is a
    * complaint record (reason, description, order, driver): it has no
    * `report_type`, `title`, `date_from` or `date_to` column and no
    * `set_data`, so constructing it with those keywords raises `TypeError`
    * and the handler answers 500. A bad date raises before that, to the
    * same 500. Nothing is ever stored. */
  function GenerateReportCodeAsWritten(reportType: Option<string>, title: Option<string>): (code: int)
    ensures code == 400 <==> reportType.None? || title.None?
    ensures code != 201
  {
    if reportType.None? || title.None? then 400 else 500
  }

  /** The handler as written and `GenerateReport`, the report it is meant to
    * create, agree on the 400; every request the intended handler would
    * answer with a report gets 500 as written. */
  lemma ReportNeverCreated(reportType: Option<string>, title: Option<string>,
                           dateFrom: DateField, dateTo: DateField,
                           orders: seq<SupplierOrder>, products: seq<Product>)
    ensures var r := GenerateReport(reportType, title, dateFrom, dateTo, orders, products);
            && (GenerateReportCodeAsWritten(reportType, title) == 400 <==> r.MissingField?)
            && (r.Created? || r.DateRejected? ==> GenerateReportCodeAsWritten(reportType, title) == 500)
            && (reportType.Some? && title.Some? && !dateFrom.BadDate? && !dateTo.BadDate? ==>
                  r.Created? && GenerateReportCodeAsWritten(reportType, title) == 500)
  {
  }

  /** Out of stock is a case of low stock, so the counts nest. */
  lemma InventoryCountsNest(products: seq<Product>)
    ensures var r := Inventory(products);
            r.outOfStock <= r.lowStock <= r.totalProducts
  {
    CountMonotone(products, (p: Product) => p.stock == 0, (p: Product) => p.stock < 10);
    CountBounded(products, (p: Product) => p.stock < 10);
  }

  /** A further order raises the sales figures by one order and by its
    * amount. */
  lemma NewOrderInSales(orders: seq<SupplierOrder>, o: SupplierOrder)
    ensures Sum(orders + [o], OrderAmount) == Sum(orders, OrderAmount) + o.totalAmount
  {
    SumAppend(orders, [o], OrderAmount);
  }

  /** A newly listed product (stock 0) is counted as both low and out. */
  lemma NewProductCountsInBoth(products: seq<Product>, p: Product)
    requires p.stock == 0
    ensures Inventory(products + [p]).lowStock == Inventory(products).lowStock + 1
    ensures Inventory(products + [p]).outOfStock == Inventory(products).outOfStock + 1
  {
    CountAppend(products, [p], (q: Product) => q.stock < 10);
    CountAppend(products, [p], (q: Product) => q.stock == 0);
  }

  // ---------------------------------------------------------------------
  // Settings: strings as they are, other values as JSON text
  // ---------------------------------------------------------------------

  /** The text `update_settings` stores: strings as they are, anything else
    * through `json.dumps`. */
  function Stored(v: JsonValue): string {
    if v.JString? then v.s else Dumps(v)
  }

  /** What `get_settings` gives back for one setting. */
  datatype Returned =
    | Returns(value: JsonValue)
    | ReturnsUnmodelled   // a float, or a string with an unpaired surrogate

  /** `json.loads(t) if t else None`, and the raw text where `json.loads`
    * raises. */
  function ReadBack(t: string): Returned {
    if t == "" then Returns(JNull)
    else match Loads(t)
      case Raises => Returns(JString(t))
      case Decodes(v) => Returns(v)
      case DecodesUnmodelled => ReturnsUnmodelled
  }

  /** Non-string values (null, booleans, integers, lists and objects) read
    * back as stored. */
  lemma NonStringRoundTrip(v: JsonValue)
    requires !v.JString? && WellFormed(v)
    ensures ReadBack(Stored(v)) == Returns(v)
  {
    LoadsDumps(v);
  }

  /** A string reads back as itself exactly when it is not empty and is not
    * JSON text itself; `"true"` reads back as a boolean, `""` as null. */
  lemma StringRoundTrip(s: string)
    ensures ReadBack(Stored(JString(s))) == Returns(JString(s)) <==> s != "" && Loads(s).Raises?
    ensures ReadBack(Stored(JString("true"))) == Returns(JBool(true))
    ensures ReadBack(Stored(JString(""))) == Returns(JNull)
  {
    if s != "" && Loads(s).Decodes? && Loads(s).value.JString? {
      DecodedStringShorter(s);
    }
    LoadsTrue();
  }

  /** `setting.value` for each member of the payload, applied in order; a
    * key already set is overwritten, a new key is added. */
  function UpsertAll(settings: map<(int, string), string>, user: int,
                     entries: seq<Member>): (r: map<(int, string), string>)
    ensures settings.Keys <= r.Keys
    ensures forall k :: 0 <= k < |entries| ==> (user, entries[k].key) in r
    decreases |entries|
  {
    if entries == [] then settings
    else UpsertAll(settings[(user, entries[0].key) := Stored(entries[0].value)], user, entries[1..])
  }

  /** After the update every sent key holds its value's text; every other
    * setting, including other users', is as before. */
  lemma {:induction false} UpsertAllEffect(settings: map<(int, string), string>, user: int,
                                           entries: seq<Member>, u: int, key: string)
    requires KeysDistinct(entries)
    decreases |entries|
    ensures forall k :: 0 <= k < |entries| ==>
              UpsertAll(settings, user, entries)[(user, entries[k].key)] == Stored(entries[k].value)
    ensures (u != user || forall k :: 0 <= k < |entries| ==> entries[k].key != key) ==>
              ((u, key) in UpsertAll(settings, user, entries) <==> (u, key) in settings) &&
              ((u, key) in settings ==> UpsertAll(settings, user, entries)[(u, key)] == settings[(u, key)])
  {
    if entries != [] {
      var next := settings[(user, entries[0].key) := Stored(entries[0].value)];
      var rest := entries[1..];
      assert KeysDistinct(rest);
      UpsertAllEffect(next, user, rest, u, key);
      UpsertAllEffect(next, user, rest, user, entries[0].key);
      forall k | 0 <= k < |entries|
        ensures UpsertAll(settings, user, entries)[(user, entries[k].key)] == Stored(entries[k].value)
      {
        if k > 0 { assert entries[k] == rest[k - 1]; }
      }
    }
  }

  /** What `update_settings` writes, `get_settings` reads back: every
    * non-string value of a JSON object as sent. */
  lemma SettingsReadBack(settings: map<(int, string), string>, user: int, body: JsonValue, k: int)
    requires body.JObject? && WellFormed(body)
    requires 0 <= k < |body.members| && !body.members[k].value.JString?
    ensures ReadBack(UpsertAll(settings, user, body.members)[(user, body.members[k].key)]) ==
            Returns(body.members[k].value)
  {
    UpsertAllEffect(settings, user, body.members, user, body.members[k].key);
    NonStringRoundTrip(body.members[k].value);
  }

  // ---------------------------------------------------------------------
  // create_merchant
  // ---------------------------------------------------------------------

  datatype UserRecord = UserRecord(email: string, fullName: string, userType: string, isActive: bool)

  datatype MerchantProfile = MerchantProfile(userId: int, storeName: string)

  predicate Truthy(s: Option<string>) { s.Some? && s.value != "" }

  // ---------------------------------------------------------------------
  // The store
  // ---------------------------------------------------------------------

  class SupplierStore {
    var products: map<int, Product>
    var quotations: map<int, Quotation>
    var orders: map<int, SupplierOrder>
    var users: map<int, UserRecord>
    var merchants: map<int, MerchantProfile>
    var settings: map<(int, string), string>

    predicate EmailTaken(e: string)
      reads this
    {
      exists id :: id in users && users[id].email == e
    }

    /** `User.email` is unique; every merchant profile belongs to a user. */
    ghost predicate Valid()
      reads this
    {
      && (forall a, b :: a in users && b in users && a != b ==> users[a].email != users[b].email)
      && (forall m :: m in merchants ==> merchants[m].userId in users)
    }

    constructor (products: map<int, Product>, quotations: map<int, Quotation>,
                 orders: map<int, SupplierOrder>)
      ensures Valid()
      ensures this.products == products && this.quotations == quotations && this.orders == orders
      ensures users == map[] && merchants == map[] && settings == map[]
    {
      this.products := products;
      this.quotations := quotations;
      this.orders := orders;
      users := map[];
      merchants := map[];
      settings := map[];
    }

    /** create_quotation: a `draft` quotation whose total is the sum of its
      * lines. */
    method CreateQuotation(supplier: int, title: Option<string>, items: Option<seq<QuotationItemInput>>,
                           currency: Option<string>, validUntil: DateField, merchantId: Option<int>, id: int, now: int)
      returns (code: int)
      requires id !in quotations
      modifies this`quotations
      ensures code == CreateQuotationCode(title, items, validUntil)
      ensures code != 201 ==> quotations == old(quotations)
      ensures code == 201 ==>
        quotations == old(quotations)[id := Quotation(id, supplier, merchantId, title.value,
                         Sum(StoredLines(items.value), LineTotalOf),
                         if currency.Some? then currency.value else "SAR", DateColumn(validUntil),
                         QuotationCode(Draft), StoredLines(items.value), now)]
    {
      code := CreateQuotationCode(title, items, validUntil);
      if code != 201 {
        return;
      }
      var total := QuotationTotal(items.value);
      quotations := quotations[id := Quotation(id, supplier, merchantId, title.value, total,
                                               if currency.Some? then currency.value else "SAR",
                                               DateColumn(validUntil), QuotationCode(Draft),
                                               StoredLines(items.value), now)];
    }

    /** update_product. */
    method UpdateProduct(supplier: int, productId: int, patch: ProductPatch, now: int)
      returns (code: int)
      modifies this`products
      ensures code == (if productId in old(products) && old(products)[productId].supplierId == supplier
                       then 200 else 404)
      ensures code == 404 ==> products == old(products)
      ensures code == 200 ==>
        products == old(products)[productId := ApplyPatch(old(products)[productId], patch, now)]
    {
      if productId !in products || products[productId].supplierId != supplier {
        return 404;
      }
      products := products[productId := ApplyPatch(products[productId], patch, now)];
      code := 200;
    }

    /** update_quotation_status: the given status, stored as sent, and
      * `updated_at` stamped with `now`. */
    method UpdateQuotationStatus(supplier: int, id: int, status: Option<string>, now: int) returns (code: int)
      modifies this`quotations
      ensures code == StatusUpdateCode(id in old(quotations) && old(quotations)[id].supplierId == supplier, status)
      ensures code != 200 ==> quotations == old(quotations)
      ensures code == 200 ==> quotations == old(quotations)[id := old(quotations)[id].(status := status.value, updatedAt := now)]
    {
      code := StatusUpdateCode(id in quotations && quotations[id].supplierId == supplier, status);
      if code == 200 {
        quotations := quotations[id := quotations[id].(status := status.value, updatedAt := now)];
      }
    }

    /** update_order_status: the given status, stored as sent, and
      * `updated_at` stamped with `now`. */
    method UpdateOrderStatus(supplier: int, id: int, status: Option<string>, now: int) returns (code: int)
      modifies this`orders
      ensures code == StatusUpdateCode(id in old(orders) && old(orders)[id].supplierId == supplier, status)
      ensures code != 200 ==> orders == old(orders)
      ensures code == 200 ==> orders == old(orders)[id := old(orders)[id].(status := status.value, updatedAt := now)]
    {
      code := StatusUpdateCode(id in orders && orders[id].supplierId == supplier, status);
      if code == 200 {
        orders := orders[id := orders[id].(status := status.value, updatedAt := now)];
      }
    }

    /** create_merchant: an active merchant user and its profile. The
      * e-mail is the given one when truthy, else a generated placeholder
      * (which fails the unique constraint, a 500, if already in use). */
    method CreateMerchant(storeName: Option<string>, email: Option<string>, contactName: Option<string>,
                          placeholder: string, userId: int, merchantId: int)
      returns (code: int)
      requires Valid() && userId !in users && merchantId !in merchants
      modifies this`users, this`merchants
      ensures Valid()
      ensures !Truthy(storeName) ==> code == 400
      ensures Truthy(storeName) && Truthy(email) && old(EmailTaken(email.value)) ==> code == 409
      ensures code != 201 ==> users == old(users) && merchants == old(merchants)
      ensures code == 201 <==>
        Truthy(storeName) && !old(EmailTaken(if Truthy(email) then email.value else placeholder))
      ensures code == 201 ==>
        && users == old(users)[userId := UserRecord(if Truthy(email) then email.value else placeholder,
                                                    if Truthy(contactName) then contactName.value else storeName.value,
                                                    "merchant", true)]
        && merchants == old(merchants)[merchantId := MerchantProfile(userId, storeName.value)]
    {
      if !Truthy(storeName) {
        return 400;
      }
      if Truthy(email) && EmailTaken(email.value) {
        return 409;
      }
      var address := if Truthy(email) then email.value else placeholder;
      if EmailTaken(address) {
        return 500;
      }
      users := users[userId := UserRecord(address,
                                          if Truthy(contactName) then contactName.value else storeName.value,
                                          "merchant", true)];
      merchants := merchants[merchantId := MerchantProfile(userId, storeName.value)];
      code := 201;
    }

    /** update_settings: 401 without a session user; 500 with nothing
      * written when the body is not a JSON object (`request.get_json()`
      * fails, or `data.items()` raises); otherwise each member of the
      * object is upserted in turn. */
    method UpdateSettings(user: Option<int>, body: Option<JsonValue>) returns (code: int)
      modifies this`settings
      ensures code == (if user.None? then 401
                       else if body.None? || !body.value.JObject? then 500
                       else 200)
      ensures code != 200 ==> settings == old(settings)
      ensures code == 200 ==> settings == UpsertAll(old(settings), user.value, body.value.members)
    {
      if user.None? {
        return 401;
      }
      if body.None? || !body.value.JObject? {
        return 500;
      }
      var entries := body.value.members;
      var i := 0;
      var current := settings;
      while i < |entries|
        invariant 0 <= i <= |entries|
        invariant UpsertAll(current, user.value, entries[i..]) == UpsertAll(settings, user.value, entries)
      {
        assert entries[i..][1..] == entries[i + 1..];
        current := current[(user.value, entries[i].key) := Stored(entries[i].value)];
        i := i + 1;
      }
      settings := current;
      code := 200;
    }

    /** get_settings for one key: what the client reads back. */
    function ReadSetting(user: int, key: string): Option<Returned>
      reads this
    {
      if (user, key) in settings then Some(ReadBack(settings[(user, key)])) else None
    }
  }
}
