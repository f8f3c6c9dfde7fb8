/**
 * The browser-side store of the supplier front end
 * (frontend/src/utils/localStorage.ts). Every collection is a JSON array
 * kept under its own key; each operation reads the array, changes it and
 * writes it back. A record is a JSON object: a map from field names to
 * values, so `{ ...a, ...b }` is the map union `a + b`.
 *
 * Generated ids (`Date.now` and `Math.random`) and ISO timestamps are
 * parameters.
 */
module LocalStorage {
  import opened Common

  datatype JsVal = Str(s: string) | Num(r: real) | Bool(b: bool) | Null | Nested

  type Record = map<string, JsVal>

  /** What `localStorage.getItem(key)` holds: an array in JSON form, the
    * empty string, or text `JSON.parse` rejects. A missing key is a key
    * absent from the store's map. */
  datatype Slot = Parsed(rows: seq<Record>) | EmptyText | Garbled

  /** The outcome of reading a collection: `JSON.parse` may throw. */
  datatype Load = Rows(rows: seq<Record>) | Throws

  const ProductsKey := "business_products"
  const OrdersKey := "business_orders"
  const DriversKey := "business_drivers"
  const VehiclesKey := "business_vehicles"
  const MarketItemsKey := "business_market_items"
  const MerchantOrdersKey := "business_merchant_orders"
  const ShippingServicesKey := "business_shipping_services"
  const PartnersKey := "supplier_partners"

  /** The keys `clearAll` removes. */
  function AppKeys(): set<string> {
    {ProductsKey, OrdersKey, DriversKey, VehiclesKey, MarketItemsKey,
     MerchantOrdersKey, ShippingServicesKey, PartnersKey}
  }

  /** `raw ? JSON.parse(raw) : []`. */
  function LoadSlot(data: map<string, Slot>, key: string): Load {
    if key !in data then Rows([])
    else match data[key]
      case Parsed(rows) => Rows(rows)
      case EmptyText => Rows([])
      case Garbled => Throws
  }

  predicate HasId(r: Record, id: string) {
    "id" in r && r["id"] == Str(id)
  }

  /** The spread `{ ...fields, id, createdAt }`. */
  function Stamp(fields: Record, id: string, createdAt: string): (r: Record)
    ensures HasId(r, id) && "createdAt" in r && r["createdAt"] == Str(createdAt)
    ensures forall f :: f in fields && f != "id" && f != "createdAt" ==> f in r && r[f] == fields[f]
  {
    fields["id" := Str(id)]["createdAt" := Str(createdAt)]
  }

  // ---------------------------------------------------------------------
  // update* and delete* on one array
  // ---------------------------------------------------------------------

  /** `findIndex` by id and the merge `{ ...rows[i], ...updates }`; `None`
    * when no record has the id. */
  function UpdateById(rows: seq<Record>, id: string, updates: Record): Option<seq<Record>> {
    var i := FirstIndex(rows, (r: Record) => HasId(r, id));
    if i.None? then None else Some(rows[i.value := rows[i.value] + updates])
  }

  /** Only the first record with the id changes, and it changes by taking
    * every updated field; an absent id changes nothing. */
  lemma UpdateByIdSpec(rows: seq<Record>, id: string, updates: Record)
    ensures UpdateById(rows, id, updates).None? <==> forall k :: 0 <= k < |rows| ==> !HasId(rows[k], id)
    ensures UpdateById(rows, id, updates).Some? ==>
      var r := UpdateById(rows, id, updates).value;
      exists i :: 0 <= i < |rows| && HasId(rows[i], id) && (forall j :: 0 <= j < i ==> !HasId(rows[j], id))
        && |r| == |rows|
        && (forall j :: 0 <= j < |rows| && j != i ==> r[j] == rows[j])
        && (forall f :: f in updates ==> f in r[i] && r[i][f] == updates[f])
        && (forall f :: f in rows[i] && f !in updates ==> f in r[i] && r[i][f] == rows[i][f])
  {
    var i := FirstIndex(rows, (r: Record) => HasId(r, id));
    if i.Some? {
      var r := UpdateById(rows, id, updates).value;
      assert HasId(rows[i.value], id);
    }
  }

  function WithoutId(rows: seq<Record>, id: string): seq<Record> {
    Filter(rows, (r: Record) => !HasId(r, id))
  }

  /** `delete*` drops every record with the id, keeps the others, and
    * reports true exactly when one was there. */
  lemma DeleteByIdSpec(rows: seq<Record>, id: string)
    ensures forall r :: r in WithoutId(rows, id) <==> r in rows && !HasId(r, id)
    ensures |WithoutId(rows, id)| != |rows| <==> exists k :: 0 <= k < |rows| && HasId(rows[k], id)
  {
    forall r ensures r in WithoutId(rows, id) <==> r in rows && !HasId(r, id) {
      FilterMembership(rows, (x: Record) => !HasId(x, id), r);
    }
    FilterShortens(rows, (x: Record) => !HasId(x, id));
  }

  // ---------------------------------------------------------------------
  // Partner type labels
  // ---------------------------------------------------------------------

  /** `normalize` of `getPartners`: the three Arabic labels become codes,
    * anything else stays. */
  function NormalizeLabel(t: string): (r: string)
    ensures r != t ==> r == "retailer" || r == "shipping_company" || r == "supplier"
  {
    if t == "تاجر تجزئة" then "retailer"
    else if t == "شركة شحن" then "shipping_company"
    else if t == "مورد" then "supplier"
    else t
  }

  predicate HasArabicType(p: Record) {
    "type" in p && (p["type"] == Str("تاجر تجزئة") || p["type"] == Str("شركة شحن") || p["type"] == Str("مورد"))
  }

  function NormalizePartner(p: Record): Record {
    if "type" in p && p["type"].Str? then p["type" := Str(NormalizeLabel(p["type"].s))] else p
  }

  function NormalizeAll(ps: seq<Record>): (r: seq<Record>)
    ensures |r| == |ps|
  {
    seq(|ps|, k requires 0 <= k < |ps| => NormalizePartner(ps[k]))
  }

  /** Normalising twice is normalising once. */
  lemma NormalizeIdempotent(ps: seq<Record>)
    ensures NormalizeAll(NormalizeAll(ps)) == NormalizeAll(ps)
  {
    forall k | 0 <= k < |ps| ensures NormalizePartner(NormalizePartner(ps[k])) == NormalizePartner(ps[k]) {
      var p := ps[k];
      if "type" in p && p["type"].Str? {
        assert NormalizePartner(p)["type"] == Str(NormalizeLabel(p["type"].s));
      }
    }
  }

  /** Normalisation touches only the `type` field, and only its three
    * Arabic labels. */
  lemma NormalizeTouchesOnlyLabels(ps: seq<Record>)
    ensures forall k :: 0 <= k < |ps| ==> NormalizeAll(ps)[k].Keys == ps[k].Keys
    ensures forall k, f :: 0 <= k < |ps| && f in ps[k] && f != "type" ==> NormalizeAll(ps)[k][f] == ps[k][f]
    ensures (forall k :: 0 <= k < |ps| ==> !HasArabicType(ps[k])) ==> NormalizeAll(ps) == ps
  {
    if forall k :: 0 <= k < |ps| ==> !HasArabicType(ps[k]) {
      forall k | 0 <= k < |ps| ensures NormalizeAll(ps)[k] == ps[k] {
        if "type" in ps[k] && ps[k]["type"].Str? {
          assert NormalizeLabel(ps[k]["type"].s) == ps[k]["type"].s;
          assert ps[k]["type" := ps[k]["type"]] == ps[k];
        }
      }
    }
  }

  /** What `getPartners` returns for the stored slot. */
  function PartnersView(data: map<string, Slot>): seq<Record> {
    if PartnersKey in data && data[PartnersKey].Parsed? then NormalizeAll(data[PartnersKey].rows) else []
  }

  // ---------------------------------------------------------------------
  // getStats
  // ---------------------------------------------------------------------

  predicate FieldIs(r: Record, f: string, v: string) { f in r && r[f] == Str(v) }

  /** Orders as the app writes them: `totalAmount` and `createdAt` set. */
  predicate WellFormedOrders(orders: seq<Record>) {
    forall k :: 0 <= k < |orders| ==>
      "totalAmount" in orders[k] && orders[k]["totalAmount"].Num? &&
      "createdAt" in orders[k] && orders[k]["createdAt"].Str?
  }

  function Amount(r: Record): real {
    if "totalAmount" in r && r["totalAmount"].Num? then r["totalAmount"].r else 0.0
  }

  datatype Stats = Stats(
    totalProducts: nat, activeProducts: nat, totalOrders: nat, todayOrders: nat, pendingOrders: nat,
    totalDrivers: nat, activeDrivers: nat, totalVehicles: nat, activeVehicles: nat,
    totalRevenue: real, todayRevenue: real)

  /** `getStats` over the four arrays. `dayOf` is `new Date(s).toDateString()`
    * and `today` is the current day in that form. */
  function GetStats(products: seq<Record>, orders: seq<Record>, drivers: seq<Record>,
                    vehicles: seq<Record>, dayOf: string -> string, today: string): (s: Stats)
    requires WellFormedOrders(orders)
    ensures s.activeProducts <= s.totalProducts == |products|
    ensures s.todayOrders <= s.totalOrders == |orders| && s.pendingOrders <= s.totalOrders
    ensures s.activeDrivers <= s.totalDrivers && s.activeVehicles <= s.totalVehicles
    ensures s.totalRevenue == Sum(orders, Amount)
    ensures (forall k :: 0 <= k < |orders| ==> Amount(orders[k]) >= 0.0) ==> s.todayRevenue <= s.totalRevenue
  {
    var isToday := (o: Record) => "createdAt" in o && o["createdAt"].Str? && dayOf(o["createdAt"].s) == today;
    var todays := Filter(orders, isToday);
    var active := (p: Record) => FieldIs(p, "status", "active");
    var pending := (o: Record) => FieldIs(o, "status", "جديد") || FieldIs(o, "status", "قيد المراجعة");
    var onDuty := (d: Record) => FieldIs(d, "status", "نشط") || FieldIs(d, "status", "متاح");
    var running := (v: Record) => FieldIs(v, "status", "نشط");
    CountBounded(products, active);
    CountBounded(orders, pending);
    CountBounded(drivers, onDuty);
    CountBounded(vehicles, running);
    PartRevenueAtMost(orders, isToday);
    Stats(|products|, Count(products, active), |orders|, |todays|, Count(orders, pending),
          |drivers|, Count(drivers, onDuty), |vehicles|, Count(vehicles, running),
          Sum(orders, Amount), Sum(todays, Amount))
  }

  lemma PartRevenueAtMost(orders: seq<Record>, p: Record -> bool)
    ensures (forall k :: 0 <= k < |orders| ==> Amount(orders[k]) >= 0.0) ==>
              Sum(Filter(orders, p), Amount) <= Sum(orders, Amount)
  {
    if forall k :: 0 <= k < |orders| ==> Amount(orders[k]) >= 0.0 {
      SumFilterAtMost(orders, p, Amount);
    }
  }

  // ---------------------------------------------------------------------
  // seedData
  // ---------------------------------------------------------------------

  /** The two sample products; `images` is an empty array, held as `Nested`. */
  function SampleProducts(): seq<Record> {
    [map["name" := Str("هاتف ذكي آيفون 15"), "price" := Num(4000.0), "stock" := Num(25.0),
         "category" := Str("إلكترونيات"), "description" := Str("أحدث هاتف ذكي من آبل بتقنيات متطورة"),
         "images" := Nested, "sku" := Str("IP15-001"), "weight" := Str("0.2 كج"),
         "dimensions" := Str("15×7×0.8 سم"), "status" := Str("active")],
     map["name" := Str("لابتوب ديل XPS 13"), "price" := Num(5500.0), "stock" := Num(15.0),
         "category" := Str("إلكترونيات"), "description" := Str("لابتوب عالي الأداء للمحترفين"),
         "images" := Nested, "sku" := Str("DL-XPS13"), "weight" := Str("1.2 كج"),
         "dimensions" := Str("30×21×1.5 سم"), "status" := Str("active")]]
  }

  /** The sample order; its `products` list is held as `Nested`. */
  function SampleOrders(): seq<Record> {
    [map["customerId" := Str("cust001"), "customerName" := Str("أحمد محمد"),
         "customerEmail" := Str("ahmed@example.com"), "customerPhone" := Str("0501234567"),
         "products" := Nested, "totalAmount" := Num(4000.0), "status" := Str("جديد"),
         "priority" := Str("عالية"), "deliveryAddress" := Str("الرياض، حي النرجس، شارع الملك فهد"),
         "deliveryDate" := Str("2024-01-20"), "notes" := Str("توصيل سريع مطلوب")]]
  }

  /** The records `forEach(add*)` appends: each sample stamped with its id. */
  function StampAll(samples: seq<Record>, ids: seq<string>, createdAt: string): (r: seq<Record>)
    requires |ids| == |samples|
    ensures |r| == |samples|
  {
    seq(|samples|, k requires 0 <= k < |samples| => Stamp(samples[k], ids[k], createdAt))
  }

  // ---------------------------------------------------------------------
  // The store
  // ---------------------------------------------------------------------

  datatype UpdateOutcome = Updated(record: Record) | NoSuchId | UpdateThrew

  // ---------------------------------------------------------------------
  // seedMarketData
  // ---------------------------------------------------------------------

  /** The keys `seedMarketData` removes and fills again. */
  function MarketKeys(): set<string> {
    {MarketItemsKey, MerchantOrdersKey, ShippingServicesKey}
  }

  /** A key that was removed, after `rows.forEach(add*)`: an empty list of
    * fixtures writes nothing. */
  function Refilled(data: map<string, Slot>, key: string, rows: seq<Record>): map<string, Slot> {
    if rows == [] then data else data[key := Parsed(rows)]
  }

  /** The store after `seedMarketData` with the given stamped fixtures: the
    * three market keys read back as exactly the fixtures, whatever they
    * held before, and every other key is left as it was. */
  function Reseeded(data: map<string, Slot>, items: seq<Record>, orders: seq<Record>,
                    services: seq<Record>): (r: map<string, Slot>)
    ensures forall k :: k !in MarketKeys() ==> (k in r <==> k in data) && (k in r ==> r[k] == data[k])
    ensures LoadSlot(r, MarketItemsKey) == Rows(items)
    ensures LoadSlot(r, MerchantOrdersKey) == Rows(orders)
    ensures LoadSlot(r, ShippingServicesKey) == Rows(services)
  {
    Refilled(Refilled(Refilled(data - MarketKeys(), MarketItemsKey, items), MerchantOrdersKey, orders),
             ShippingServicesKey, services)
  }

  /** Removing the market keys first, as `resetMarketData` does, changes
    * nothing, and reseeding twice is reseeding once. */
  lemma ReseedForgetsMarket(data: map<string, Slot>, items: seq<Record>, orders: seq<Record>, services: seq<Record>)
    ensures Reseeded(data - MarketKeys(), items, orders, services) == Reseeded(data, items, orders, services)
    ensures Reseeded(Reseeded(data, items, orders, services), items, orders, services)
            == Reseeded(data, items, orders, services)
  {
    var r := Reseeded(data, items, orders, services);
    assert (data - MarketKeys()) - MarketKeys() == data - MarketKeys();
    assert r - MarketKeys() == data - MarketKeys();
  }

  class Storage {
    var data: map<string, Slot>

    constructor (data: map<string, Slot>)
      ensures this.data == data
    {
      this.data := data;
    }

    /** add*: one record appended at the end; the others stay. A stored
      * text `JSON.parse` rejects makes the call throw before any write. */
    method AddRecord(key: string, fields: Record, id: string, createdAt: string) returns (r: Option<Record>)
      modifies this
      ensures LoadSlot(old(data), key).Throws? <==> r.None?
      ensures r.None? ==> data == old(data)
      ensures r.Some? ==>
        && r.value == Stamp(fields, id, createdAt)
        && data == old(data)[key := Parsed(LoadSlot(old(data), key).rows + [r.value])]
    {
      var loaded := LoadSlot(data, key);
      if loaded.Throws? {
        return None;
      }
      var rec := Stamp(fields, id, createdAt);
      data := data[key := Parsed(loaded.rows + [rec])];
      r := Some(rec);
    }

    /** update*: `null` (and no write) for an unknown id. */
    method UpdateRecord(key: string, id: string, updates: Record) returns (r: UpdateOutcome)
      modifies this
      ensures LoadSlot(old(data), key).Throws? <==> r.UpdateThrew?
      ensures !r.Updated? ==> data == old(data)
      ensures r == NoSuchId <==>
        LoadSlot(old(data), key).Rows? && UpdateById(LoadSlot(old(data), key).rows, id, updates).None?
      ensures r.Updated? ==>
        var rows := UpdateById(LoadSlot(old(data), key).rows, id, updates).value;
        && data == old(data)[key := Parsed(rows)]
        && r.record == rows[FirstIndex(LoadSlot(old(data), key).rows, (x: Record) => HasId(x, id)).value]
    {
      var loaded := LoadSlot(data, key);
      if loaded.Throws? {
        return UpdateThrew;
      }
      var i := FirstIndex(loaded.rows, (x: Record) => HasId(x, id));
      if i.None? {
        return NoSuchId;
      }
      var rows := loaded.rows[i.value := loaded.rows[i.value] + updates];
      data := data[key := Parsed(rows)];
      r := Updated(rows[i.value]);
    }

    /** deleteProduct: the filtered array is always written back. */
    method DeleteRecord(key: string, id: string) returns (r: Option<bool>)
      modifies this
      ensures LoadSlot(old(data), key).Throws? <==> r.None?
      ensures r.None? ==> data == old(data)
      ensures r.Some? ==>
        var rows := LoadSlot(old(data), key).rows;
        && data == old(data)[key := Parsed(WithoutId(rows, id))]
        && (r.value <==> exists k :: 0 <= k < |rows| && HasId(rows[k], id))
    {
      var loaded := LoadSlot(data, key);
      if loaded.Throws? {
        return None;
      }
      var filtered := WithoutId(loaded.rows, id);
      DeleteByIdSpec(loaded.rows, id);
      data := data[key := Parsed(filtered)];
      r := Some(|filtered| != |loaded.rows|);
    }

    /** getPartners: unreadable or missing data reads as `[]`; labels are
      * normalised and written back only when that changed something. */
    method GetPartners() returns (r: seq<Record>)
      modifies this
      ensures r == PartnersView(old(data))
      ensures old(PartnersKey in data && data[PartnersKey].Parsed?
                  && NormalizeAll(data[PartnersKey].rows) != data[PartnersKey].rows)
              ==> data == old(data)[PartnersKey := Parsed(r)]
      ensures !old(PartnersKey in data && data[PartnersKey].Parsed?
                   && NormalizeAll(data[PartnersKey].rows) != data[PartnersKey].rows)
              ==> data == old(data)
    {
      if PartnersKey !in data || !data[PartnersKey].Parsed? {
        return [];
      }
      var parsed := data[PartnersKey].rows;
      r := NormalizeAll(parsed);
      if r != parsed {
        data := data[PartnersKey := Parsed(r)];
      }
    }

    /** addPartner: goes through `getPartners`, so unreadable data is
      * replaced by a one-element array. */
    method AddPartner(fields: Record, id: string, createdAt: string) returns (r: Record)
      modifies this
      ensures r == Stamp(fields, id, createdAt)
      ensures data == old(data)[PartnersKey := Parsed(PartnersView(old(data)) + [r])]
    {
      var partners := GetPartners();
      r := Stamp(fields, id, createdAt);
      data := data[PartnersKey := Parsed(partners + [r])];
    }

    /** deletePartner. */
    method DeletePartner(id: string) returns (removed: bool)
      modifies this
      ensures data == old(data)[PartnersKey := Parsed(WithoutId(PartnersView(old(data)), id))]
      ensures removed <==> exists k :: 0 <= k < |PartnersView(old(data))| && HasId(PartnersView(old(data))[k], id)
    {
      var partners := GetPartners();
      var filtered := WithoutId(partners, id);
      DeleteByIdSpec(partners, id);
      data := data[PartnersKey := Parsed(filtered)];
      removed := |filtered| != |partners|;
    }

    /** clearAll: the app's keys go, every other key stays. */
    method ClearAll()
      modifies this
      ensures data == old(data) - AppKeys()
      ensures forall k :: k in AppKeys() ==> k !in data
      ensures forall k :: k in old(data) && k !in AppKeys() ==> k in data && data[k] == old(data)[k]
    {
      data := data - AppKeys();
    }

    /** `rows.forEach(add*)` on a key that was just removed. */
    method FillKey(key: string, rows: seq<Record>)
      requires key !in data
      modifies this
      ensures data == Refilled(old(data), key, rows)
    {
      var i := 0;
      while i < |rows|
        invariant 0 <= i <= |rows|
        invariant data == if i == 0 then old(data) else old(data)[key := Parsed(rows[..i])]
      {
        assert rows[..i + 1] == LoadSlot(data, key).rows + [rows[i]];
        data := data[key := Parsed(LoadSlot(data, key).rows + [rows[i]])];
        i := i + 1;
      }
      assert i == 0 || rows[..i] == rows;
    }

    /** seedMarketData: the three market keys are removed, then each is
      * filled with its fixtures (`items`, `orders`, `services`, stamped
      * with their generated ids). */
    method SeedMarketData(items: seq<Record>, orders: seq<Record>, services: seq<Record>)
      modifies this
      ensures data == Reseeded(old(data), items, orders, services)
    {
      data := data - MarketKeys();
      FillKey(MarketItemsKey, items);
      FillKey(MerchantOrdersKey, orders);
      FillKey(ShippingServicesKey, services);
    }

    /** resetMarketData: the keys removed, then `seedMarketData`, which
      * removes them again; the result is a plain reseed. */
    method ResetMarketData(items: seq<Record>, orders: seq<Record>, services: seq<Record>)
      modifies this
      ensures data == Reseeded(old(data), items, orders, services)
    {
      data := data - MarketKeys();
      SeedMarketData(items, orders, services);
      ReseedForgetsMarket(old(data), items, orders, services);
    }

    /** seedData: samples go only into an empty list, then the market data
      * is reseeded. A products array that does not parse throws before
      * anything is written; an orders array that does not parse throws
      * after the products were seeded; either way the reseed is not
      * reached. */
    method SeedData(productIds: seq<string>, orderIds: seq<string>, createdAt: string,
                    items: seq<Record>, marketOrders: seq<Record>, services: seq<Record>) returns (ok: bool)
      requires |productIds| == |SampleProducts()| && |orderIds| == |SampleOrders()|
      modifies this
      ensures ok <==> LoadSlot(old(data), ProductsKey).Rows? && LoadSlot(old(data), OrdersKey).Rows?
      ensures var ps := LoadSlot(old(data), ProductsKey);
        && (ps.Rows? && ps.rows != [] ==> ProductsKey in old(data) ==> ProductsKey in data && data[ProductsKey] == old(data)[ProductsKey])
        && (ps.Rows? && ps.rows == [] ==> ProductsKey in data && data[ProductsKey] == Parsed(StampAll(SampleProducts(), productIds, createdAt)))
      ensures var os := LoadSlot(old(data), OrdersKey);
        LoadSlot(old(data), ProductsKey).Rows? && os.Rows? ==>
          && (os.rows != [] ==> OrdersKey in old(data) ==> OrdersKey in data && data[OrdersKey] == old(data)[OrdersKey])
          && (os.rows == [] ==> OrdersKey in data && data[OrdersKey] == Parsed(StampAll(SampleOrders(), orderIds, createdAt)))
      ensures ok ==> LoadSlot(data, MarketItemsKey) == Rows(items) && LoadSlot(data, MerchantOrdersKey) == Rows(marketOrders)
                     && LoadSlot(data, ShippingServicesKey) == Rows(services)
      ensures forall k :: k in old(data) && k != ProductsKey && k != OrdersKey && (!ok || k !in MarketKeys()) ==>
                k in data && data[k] == old(data)[k]
    {
      var products := LoadSlot(data, ProductsKey);
      if products.Throws? {
        return false;
      }
      if products.rows == [] {
        data := data[ProductsKey := Parsed(StampAll(SampleProducts(), productIds, createdAt))];
      }
      var orders := LoadSlot(data, OrdersKey);
      if orders.Throws? {
        return false;
      }
      if orders.rows == [] {
        data := data[OrdersKey := Parsed(StampAll(SampleOrders(), orderIds, createdAt))];
      }
      SeedMarketData(items, marketOrders, services);
      ok := true;
    }
  }

  /** Reading the partners a second time writes nothing: the stored array
    * is already normalised. */
  lemma SecondGetPartnersWritesNothing(data: map<string, Slot>)
    requires PartnersKey in data && data[PartnersKey].Parsed?
    ensures NormalizeAll(NormalizeAll(data[PartnersKey].rows)) == NormalizeAll(data[PartnersKey].rows)
    ensures PartnersView(data[PartnersKey := Parsed(NormalizeAll(data[PartnersKey].rows))]) == PartnersView(data)
  {
    NormalizeIdempotent(data[PartnersKey].rows);
  }

  /** Unreadable partner data is lost on the next `addPartner`: only the
    * new partner remains. */
  lemma AddPartnerOverGarbledData(data: map<string, Slot>, fields: Record, id: string, createdAt: string)
    requires PartnersKey in data && data[PartnersKey] == Garbled
    ensures PartnersView(data) + [Stamp(fields, id, createdAt)] == [Stamp(fields, id, createdAt)]
  {
  }
}
