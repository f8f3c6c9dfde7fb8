/**
 * The merchant's side of the order lifecycle
 * (business-platform-api/src/routes/merchant.py): accepting a supplier's
 * quotation, ordering directly, recording payments and keeping favourite
 * suppliers. The tables touched are fields of `MerchantStore`; each handler
 * is a method that returns the HTTP status and rewrites the fields it
 * commits. A handler that fails writes nothing (the source rolls back).
 * The caller's identity is the merchant profile id the role gate admitted.
 */
module MerchantRoutes {
  import opened Common
  import opened BackendModels

  // ---------------------------------------------------------------------
  // accept_quotation
  // ---------------------------------------------------------------------

  /** The status `accept_quotation` answers with: a requested delivery
    * date `strptime` rejects raises after the checks, hence 500. */
  function AcceptCode(quotations: map<int, Quotation>, merchant: int, quotationId: int,
                      deliveryDate: DateField): int {
    if quotationId !in quotations || quotations[quotationId].merchantId != Some(merchant) then 404
    else if quotations[quotationId].status != QuotationCode(Sent) then 400
    else if deliveryDate.BadDate? then 500
    else 201
  }

  function MethodOrDefault(paymentMethod: Option<string>): string {
    if paymentMethod.Some? then paymentMethod.value else "bank_transfer"
  }

  /** The purchase order built from an accepted quotation. */
  function OrderFromQuotation(q: Quotation, merchant: int, orderId: int,
                              paymentMethod: Option<string>, deliveryDate: DateField): PurchaseOrder {
    PurchaseOrder(orderId, merchant, q.supplierId, Some(q.id), q.totalAmount, q.currency,
                  MethodOrDefault(paymentMethod), DateColumn(deliveryDate), OrderPending, PaymentPending)
  }

  function CopyItem(qi: QuotationItem, orderId: int): PurchaseOrderItem {
    PurchaseOrderItem(orderId, qi.productId, qi.productName, qi.description,
                      qi.quantity, qi.unitPrice, qi.totalPrice)
  }

  function CopyItems(items: seq<QuotationItem>, orderId: int): seq<PurchaseOrderItem> {
    seq(|items|, k requires 0 <= k < |items| => CopyItem(items[k], orderId))
  }

  function QuotationLineTotal(qi: QuotationItem): real { qi.totalPrice }
  function OrderLineTotal(oi: PurchaseOrderItem): real { oi.totalPrice }

  /** The copied lines carry the quotation's quantities and prices, one for
    * one, so their totals add up to the same amount. */
  lemma {:induction false} CopiedItemsKeepTotals(items: seq<QuotationItem>, orderId: int)
    ensures |CopyItems(items, orderId)| == |items|
    ensures forall k :: 0 <= k < |items| ==>
              CopyItems(items, orderId)[k].quantity == items[k].quantity &&
              CopyItems(items, orderId)[k].unitPrice == items[k].unitPrice &&
              CopyItems(items, orderId)[k].totalPrice == items[k].totalPrice
    ensures Sum(CopyItems(items, orderId), OrderLineTotal) == Sum(items, QuotationLineTotal)
  {
    if items != [] {
      CopiedItemsKeepTotals(items[1..], orderId);
      assert CopyItems(items, orderId)[1..] == CopyItems(items[1..], orderId);
    }
  }

  /** A quotation whose total equals the sum of its lines (as
    * `create_quotation` leaves it) yields an order with the same property. */
  lemma AcceptedOrderIsConsistent(q: Quotation, merchant: int, orderId: int, pm: Option<string>, d: DateField)
    requires q.totalAmount == Sum(q.items, QuotationLineTotal)
    ensures OrderFromQuotation(q, merchant, orderId, pm, d).totalAmount
            == Sum(CopyItems(q.items, orderId), OrderLineTotal)
  {
    CopiedItemsKeepTotals(q.items, orderId);
  }

  /** Once accepted, the same quotation can never be accepted again. */
  lemma AcceptIsOnce(quotations: map<int, Quotation>, merchant: int, id: int, d: DateField, d2: DateField, now: int)
    requires AcceptCode(quotations, merchant, id, d) == 201
    ensures AcceptCode(quotations[id := quotations[id].(status := QuotationCode(Accepted), updatedAt := now)], merchant, id, d2) == 400
  {
  }

  /** Of the statuses a quotation can be stored with, only `sent` lets a
    * merchant accept it. */
  lemma OnlySentIsAccepted(quotations: map<int, Quotation>, merchant: int, id: int, d: DateField,
                           st: QuotationStatus)
    requires id in quotations && quotations[id].merchantId == Some(merchant)
    requires quotations[id].status == QuotationCode(st) && !d.BadDate?
    ensures AcceptCode(quotations, merchant, id, d) == 201 <==> st == Sent
    ensures st != Sent ==> AcceptCode(quotations, merchant, id, d) == 400
  {
    QuotationCodesDistinct(st, Sent);
  }

  // ---------------------------------------------------------------------
  // create_purchase_order_direct
  // ---------------------------------------------------------------------

  /** One element of the request's `items`: every key may be missing. */
  datatype ItemInput = ItemInput(productId: Option<int>, productName: Option<string>,
                                 description: Option<string>, quantity: Option<real>,
                                 unitPrice: Option<real>)

  /** The request's `items` value: a JSON list, or anything else. */
  datatype ItemsField = ItemList(items: seq<ItemInput>) | NotAList

  function OrZero(x: Option<real>): real { if x.Some? then x.value else 0.0 }

  /** Python `int(x)` on a float: truncation toward zero. */
  function Truncate(r: real): int {
    if r >= 0.0 then r.Floor else -((-r).Floor)
  }

  /** `float(it.get('quantity', 0)) * float(it.get('unit_price', 0))`. */
  function LineTotal(it: ItemInput): real { OrZero(it.quantity) * OrZero(it.unitPrice) }

  /** `int(it.get('quantity', 1))`: the stored quantity defaults to 1. */
  function StoredQuantity(it: ItemInput): int {
    if it.quantity.Some? then Truncate(it.quantity.value) else 1
  }

  /** `product_name`: the given non-empty name, else the product's name when a
    * (truthy) product id is given, else the generic label. `None` when the
    * product row is missing: `.name` on `None` raises. */
  function ItemName(it: ItemInput, productNames: map<int, string>): Option<string> {
    if it.productName.Some? && it.productName.value != "" then Some(it.productName.value)
    else if it.productId.Some? && it.productId.value != 0 then
      (if it.productId.value in productNames then Some(productNames[it.productId.value]) else None)
    else Some("منتج")
  }

  function DirectItem(it: ItemInput, orderId: int, name: string): PurchaseOrderItem {
    PurchaseOrderItem(orderId, it.productId, name, it.description,
                      StoredQuantity(it), OrZero(it.unitPrice), LineTotal(it))
  }

  /** The loop of lines 601-605. */
  method ComputeDirectTotal(items: seq<ItemInput>) returns (total: real)
    ensures total == Sum(items, LineTotal)
  {
    total := 0.0;
    var i := 0;
    while i < |items|
      invariant 0 <= i <= |items|
      invariant total == Sum(items[..i], LineTotal)
    {
      SumAppend(items[..i], [items[i]], LineTotal);
      assert items[..i + 1] == items[..i] + [items[i]];
      total := total + LineTotal(items[i]);
      i := i + 1;
    }
    assert items[..|items|] == items;
  }

  /** The lines a direct order stores, in request order. */
  function DirectItems(items: seq<ItemInput>, orderId: int, productNames: map<int, string>): seq<PurchaseOrderItem>
    requires forall k :: 0 <= k < |items| ==> ItemName(items[k], productNames).Some?
  {
    seq(|items|, k requires 0 <= k < |items| => DirectItem(items[k], orderId, ItemName(items[k], productNames).value))
  }

  /** The server's total is the sum of the stored line totals: both use a
    * missing quantity or price as 0. */
  lemma {:induction false} DirectTotalMatchesLines(items: seq<ItemInput>, orderId: int, names: map<int, string>)
    requires forall k :: 0 <= k < |items| ==> ItemName(items[k], names).Some?
    ensures Sum(DirectItems(items, orderId, names), OrderLineTotal) == Sum(items, LineTotal)
  {
    if items != [] {
      DirectTotalMatchesLines(items[1..], orderId, names);
      assert DirectItems(items, orderId, names)[1..] == DirectItems(items[1..], orderId, names);
    }
  }

  /** ... while a line sent without a quantity is stored with quantity 1 and
    * contributes nothing to the total. */
  lemma MissingQuantityLine(price: real)
    requires price != 0.0
    ensures var it := ItemInput(None, Some("x"), None, None, Some(price));
            StoredQuantity(it) == 1 && LineTotal(it) == 0.0 &&
            StoredQuantity(it) as real * OrZero(it.unitPrice) != LineTotal(it)
  {
  }

  // ---------------------------------------------------------------------
  // create_payment
  // ---------------------------------------------------------------------

  /** The new `payment_status` for a computed `total_paid`. */
  function NextPaymentStatus(current: PaymentStatus, totalPaid: real, orderTotal: real): (s: PaymentStatus)
    ensures s == Paid <==> totalPaid >= orderTotal || (totalPaid <= 0.0 && current == Paid)
    ensures s == Partial <==> (0.0 < totalPaid < orderTotal) || (totalPaid <= 0.0 && totalPaid < orderTotal && current == Partial)
    ensures totalPaid < orderTotal && totalPaid <= 0.0 ==> s == current
  {
    if totalPaid >= orderTotal then Paid
    else if totalPaid > 0.0 then Partial
    else current
  }

  function PaymentAmount(p: Payment): real { p.amount }

  /** The amounts of the order's payments whose status is `completed`. */
  function CompletedPaid(payments: seq<Payment>, orderId: int): real {
    Sum(Filter(payments, (p: Payment) => p.orderId == orderId && p.status == Completed), PaymentAmount)
  }

  /** A payment recorded by the route is `pending`, so it never counts
    * towards the completed sum of a later payment. */
  lemma PendingPaymentNotCounted(payments: seq<Payment>, orderId: int, amount: real, payMethod: string)
    ensures CompletedPaid(payments + [Payment(orderId, amount, payMethod, Pending)], orderId)
            == CompletedPaid(payments, orderId)
  {
    var p := (p: Payment) => p.orderId == orderId && p.status == Completed;
    FilterAppend(payments, [Payment(orderId, amount, payMethod, Pending)], p);
    assert Filter([Payment(orderId, amount, payMethod, Pending)], p) == [];
    assert Filter(payments + [Payment(orderId, amount, payMethod, Pending)], p) == Filter(payments, p);
  }

  /** The status `create_payment` answers with, before any write. */
  function PaymentCode(orders: map<int, PurchaseOrder>, merchant: int, orderId: Option<int>,
                       amount: Option<real>, payMethod: Option<string>): int {
    if orderId.None? || amount.None? || payMethod.None? then 400
    else if orderId.value !in orders || orders[orderId.value].merchantId != merchant then 404
    else 201
  }

  /** `create_payment` as written. Once the order has a completed payment
    * the sum comes back as a `Decimal` (the amount column is
    * `Numeric(12, 2)`), and adding `float(amount)` to a `Decimal` raises
    * `TypeError`: the handler rolls back and answers 500. A zero sum is
    * falsy, so `or 0` turns it into the integer 0 and the addition goes
    * through. */
  function PaymentCodeAsWritten(orders: map<int, PurchaseOrder>, payments: seq<Payment>, merchant: int,
                                orderId: Option<int>, amount: Option<real>, payMethod: Option<string>): (code: int)
    ensures code == 500 <==>
              PaymentCode(orders, merchant, orderId, amount, payMethod) == 201
              && CompletedPaid(payments, orders[orderId.value].id) != 0.0
    ensures code != 500 ==> code == PaymentCode(orders, merchant, orderId, amount, payMethod)
  {
    var c := PaymentCode(orders, merchant, orderId, amount, payMethod);
    if c == 201 && CompletedPaid(payments, orders[orderId.value].id) != 0.0 then 500 else c
  }

  /** The seed data's situation: an order with one completed payment on
    * file. As written a further payment answers 500; the corrected handler
    * records it. */
  lemma PaidOrderAnswers500(po: PurchaseOrder, merchant: int, earlier: real, amount: real, m: string)
    requires po.merchantId == merchant && earlier != 0.0
    ensures var orders := map[po.id := po];
            var payments := [Payment(po.id, earlier, m, Completed)];
            && CompletedPaid(payments, po.id) == earlier
            && PaymentCode(orders, merchant, Some(po.id), Some(amount), Some(m)) == 201
            && PaymentCodeAsWritten(orders, payments, merchant, Some(po.id), Some(amount), Some(m)) == 500
  {
    var payments := [Payment(po.id, earlier, m, Completed)];
    var p := (p: Payment) => p.orderId == po.id && p.status == Completed;
    assert Filter(payments, p) == payments by {
      assert payments[1..] == [];
    }
    assert Sum(payments, PaymentAmount) == earlier by {
      assert payments[1..] == [];
    }
  }

  /** What the handler is meant to do: completed payments count, so once a
    * first payment is completed a second one that covers the rest settles
    * the order. */
  lemma CompletedInstallmentsAccumulate(payments: seq<Payment>, po: PurchaseOrder, current: PaymentStatus,
                                        a: real, b: real, m: string)
    requires CompletedPaid(payments, po.id) == 0.0
    requires a + b >= po.totalAmount
    ensures var afterFirst := payments + [Payment(po.id, a, m, Completed)];
            && CompletedPaid(afterFirst, po.id) == a
            && NextPaymentStatus(current, CompletedPaid(afterFirst, po.id) + b, po.totalAmount) == Paid
  {
    var first := [Payment(po.id, a, m, Completed)];
    var p := (p: Payment) => p.orderId == po.id && p.status == Completed;
    FilterAppend(payments, first, p);
    assert Filter(first, p) == first by {
      assert first[1..] == [];
    }
    SumAppend(Filter(payments, p), first, PaymentAmount);
    assert Sum(first, PaymentAmount) == a by {
      assert first[1..] == [];
    }
  }

  /** Installments recorded through the route do not add up: with no
    * completed payment on file, two payments that each fall short leave the
    * order `partial` even when together they cover it. */
  lemma InstallmentsDoNotAccumulate(payments: seq<Payment>, po: PurchaseOrder, a: real, b: real, m: string)
    requires CompletedPaid(payments, po.id) == 0.0
    requires 0.0 < a < po.totalAmount && 0.0 < b < po.totalAmount
    ensures var afterFirst := payments + [Payment(po.id, a, m, Pending)];
            var s1 := NextPaymentStatus(po.paymentStatus, CompletedPaid(payments, po.id) + a, po.totalAmount);
            var s2 := NextPaymentStatus(s1, CompletedPaid(afterFirst, po.id) + b, po.totalAmount);
            s2 == Partial
  {
    PendingPaymentNotCounted(payments, po.id, a, m);
  }

  // ---------------------------------------------------------------------
  // favourite suppliers
  // ---------------------------------------------------------------------

  predicate IsFavorite(favs: seq<Favorite>, merchant: int, supplier: int) {
    exists k :: 0 <= k < |favs| && favs[k].merchantId == merchant && favs[k].supplierId == supplier
  }

  /** The unique (merchant_id, supplier_id) constraint of the table. */
  ghost predicate FavoritesUnique(favs: seq<Favorite>) {
    forall i, j :: 0 <= i < j < |favs| ==>
      !(favs[i].merchantId == favs[j].merchantId && favs[i].supplierId == favs[j].supplierId)
  }

  function WithoutFavorite(favs: seq<Favorite>, merchant: int, supplier: int): seq<Favorite> {
    Filter(favs, (f: Favorite) => !(f.merchantId == merchant && f.supplierId == supplier))
  }

  /** Removing the favourite just added gives back the previous list. */
  lemma RemoveUndoesAdd(favs: seq<Favorite>, merchant: int, supplier: int, notes: Option<string>)
    requires !IsFavorite(favs, merchant, supplier)
    ensures WithoutFavorite(favs + [Favorite(merchant, supplier, notes)], merchant, supplier) == favs
  {
    var keep := (f: Favorite) => !(f.merchantId == merchant && f.supplierId == supplier);
    FilterAppend(favs, [Favorite(merchant, supplier, notes)], keep);
    forall f | f in favs ensures keep(f) {
      var k :| 0 <= k < |favs| && favs[k] == f;
    }
    FilterKeepsAll(favs, keep);
  }

  /** After removal the pair is no longer a favourite. */
  lemma RemovedIsGone(favs: seq<Favorite>, merchant: int, supplier: int)
    ensures !IsFavorite(WithoutFavorite(favs, merchant, supplier), merchant, supplier)
  {
    var r := WithoutFavorite(favs, merchant, supplier);
    forall k | 0 <= k < |r|
      ensures !(r[k].merchantId == merchant && r[k].supplierId == supplier)
    {
      assert r[k] in r;
    }
  }

  // ---------------------------------------------------------------------
  // The store
  // ---------------------------------------------------------------------

  class MerchantStore {
    var quotations: map<int, Quotation>
    var orders: map<int, PurchaseOrder>
    var orderItems: seq<PurchaseOrderItem>
    var payments: seq<Payment>
    var favorites: seq<Favorite>
    var suppliers: set<int>
    var productNames: map<int, string>

    ghost predicate Valid()
      reads this
    {
      FavoritesUnique(favorites)
    }

    constructor (quotations: map<int, Quotation>, suppliers: set<int>, productNames: map<int, string>)
      ensures Valid()
      ensures this.quotations == quotations && this.suppliers == suppliers
      ensures this.productNames == productNames
      ensures orders == map[] && orderItems == [] && payments == [] && favorites == []
    {
      this.quotations := quotations;
      this.suppliers := suppliers;
      this.productNames := productNames;
      orders := map[];
      orderItems := [];
      payments := [];
      favorites := [];
    }

    /** accept_quotation: a `sent` quotation of this merchant becomes an
      * order with one line per quotation line, and turns `accepted` with
      * `updated_at` stamped with `now`. */
    method AcceptQuotation(merchant: int, quotationId: int, orderId: int, paymentMethod: Option<string>,
                           deliveryDate: DateField, now: int)
      returns (code: int)
      requires orderId !in orders
      modifies this
      ensures code == AcceptCode(old(quotations), merchant, quotationId, deliveryDate)
      ensures code != 201 ==> unchanged(this)
      ensures code == 201 ==>
        var q := old(quotations)[quotationId];
        && orders == old(orders)[orderId := OrderFromQuotation(q, merchant, orderId, paymentMethod, deliveryDate)]
        && orderItems == old(orderItems) + CopyItems(q.items, orderId)
        && quotations == old(quotations)[quotationId := q.(status := QuotationCode(Accepted), updatedAt := now)]
        && payments == old(payments) && favorites == old(favorites)
        && suppliers == old(suppliers) && productNames == old(productNames)
    {
      code := AcceptCode(quotations, merchant, quotationId, deliveryDate);
      if code != 201 {
        return;
      }
      var q := quotations[quotationId];
      orders := orders[orderId := OrderFromQuotation(q, merchant, orderId, paymentMethod, deliveryDate)];
      var lines := orderItems;
      var i := 0;
      while i < |q.items|
        invariant 0 <= i <= |q.items|
        invariant lines == orderItems + CopyItems(q.items[..i], orderId)
      {
        assert CopyItems(q.items[..i + 1], orderId) == CopyItems(q.items[..i], orderId) + [CopyItem(q.items[i], orderId)];
        lines := lines + [CopyItem(q.items[i], orderId)];
        i := i + 1;
      }
      assert q.items[..|q.items|] == q.items;
      orderItems := lines;
      quotations := quotations[quotationId := q.(status := QuotationCode(Accepted), updatedAt := now)];
    }

    /** create_purchase_order_direct: the server computes the total from the
      * lines; the client never supplies it. A request without a supplier
      * or a non-empty list of lines is a 400; a delivery date `strptime`
      * rejects, or a line naming a missing product, raises into a 500. */
    method CreatePurchaseOrderDirect(merchant: int, supplierId: Option<int>, itemsField: Option<ItemsField>,
                                     currency: Option<string>, paymentMethod: Option<string>,
                                     deliveryDate: DateField, orderId: int)
      returns (code: int)
      requires orderId !in orders
      modifies this
      ensures code == 400 <==>
        supplierId.None? || itemsField.None? || itemsField.value.NotAList? || itemsField.value.items == []
      ensures code == 500 <==>
        supplierId.Some? && itemsField.Some? && itemsField.value.ItemList? && itemsField.value.items != [] &&
        (deliveryDate.BadDate? ||
         exists k :: 0 <= k < |itemsField.value.items| && ItemName(itemsField.value.items[k], old(productNames)).None?)
      ensures code == 201 <==>
        supplierId.Some? && itemsField.Some? && itemsField.value.ItemList? && itemsField.value.items != [] &&
        !deliveryDate.BadDate? &&
        forall k :: 0 <= k < |itemsField.value.items| ==> ItemName(itemsField.value.items[k], old(productNames)).Some?
      ensures code != 201 ==> unchanged(this)
      ensures code == 201 ==>
        var items := itemsField.value.items;
        && orders == old(orders)[orderId := PurchaseOrder(orderId, merchant, supplierId.value, None,
                       Sum(items, LineTotal), if currency.Some? then currency.value else "SAR",
                       MethodOrDefault(paymentMethod), DateColumn(deliveryDate), OrderPending, PaymentPending)]
        && orderItems == old(orderItems) + DirectItems(items, orderId, old(productNames))
        && quotations == old(quotations) && payments == old(payments) && favorites == old(favorites)
        && suppliers == old(suppliers) && productNames == old(productNames)
    {
      if supplierId.None? || itemsField.None? {
        return 400;
      }
      if itemsField.value.NotAList? || itemsField.value.items == [] {
        return 400;
      }
      var items := itemsField.value.items;
      var total := ComputeDirectTotal(items);
      if deliveryDate.BadDate? {
        // `strptime` raises while the order row is built.
        return 500;
      }
      if exists k :: 0 <= k < |items| && ItemName(items[k], productNames).None? {
        // `.name` of a missing product raises; the transaction is rolled back.
        return 500;
      }
      var cur := if currency.Some? then currency.value else "SAR";
      orders := orders[orderId := PurchaseOrder(orderId, merchant, supplierId.value, None, total, cur,
                                                MethodOrDefault(paymentMethod), DateColumn(deliveryDate),
                                                OrderPending, PaymentPending)];
      var lines := orderItems;
      var i := 0;
      while i < |items|
        invariant 0 <= i <= |items|
        invariant lines == orderItems + DirectItems(items[..i], orderId, productNames)
      {
        assert DirectItems(items[..i + 1], orderId, productNames)
               == DirectItems(items[..i], orderId, productNames)
                  + [DirectItem(items[i], orderId, ItemName(items[i], productNames).value)];
        lines := lines + [DirectItem(items[i], orderId, ItemName(items[i], productNames).value)];
        i := i + 1;
      }
      assert items[..|items|] == items;
      orderItems := lines;
      code := 201;
    }

    /** create_payment as written: records a `pending` payment and derives
      * the order's payment status from this amount, and answers 500 with
      * nothing written once the order has a completed payment. */
    method CreatePayment(merchant: int, orderId: Option<int>, amount: Option<real>, payMethod: Option<string>)
      returns (code: int)
      modifies this
      ensures code == PaymentCodeAsWritten(old(orders), old(payments), merchant, orderId, amount, payMethod)
      ensures code != 201 ==> unchanged(this)
      ensures code == 201 ==>
        var po := old(orders)[orderId.value];
        var paid := CompletedPaid(old(payments), po.id) + amount.value;
        && payments == old(payments) + [Payment(po.id, amount.value, payMethod.value, Pending)]
        && orders == old(orders)[orderId.value := po.(paymentStatus := NextPaymentStatus(po.paymentStatus, paid, po.totalAmount))]
        && quotations == old(quotations) && orderItems == old(orderItems) && favorites == old(favorites)
        && suppliers == old(suppliers) && productNames == old(productNames)
    {
      code := PaymentCodeAsWritten(orders, payments, merchant, orderId, amount, payMethod);
      if code != 201 {
        return;
      }
      var po := orders[orderId.value];
      payments := payments + [Payment(po.id, amount.value, payMethod.value, Pending)];
      PendingPaymentNotCounted(old(payments), po.id, amount.value, payMethod.value);
      var paid := CompletedPaid(payments, po.id) + amount.value;
      orders := orders[orderId.value := po.(paymentStatus := NextPaymentStatus(po.paymentStatus, paid, po.totalAmount))];
    }

    /** add_favorite_supplier. */
    method AddFavoriteSupplier(merchant: int, supplier: int, notes: Option<string>) returns (code: int)
      requires Valid()
      modifies this`favorites
      ensures Valid()
      ensures supplier !in suppliers ==> code == 404
      ensures supplier in suppliers && old(IsFavorite(favorites, merchant, supplier)) ==> code == 400
      ensures code != 201 ==> favorites == old(favorites)
      ensures code == 201 <==> supplier in suppliers && !old(IsFavorite(favorites, merchant, supplier))
      ensures code == 201 ==> favorites == old(favorites) + [Favorite(merchant, supplier, notes)]
    {
      if supplier !in suppliers {
        return 404;
      }
      if IsFavorite(favorites, merchant, supplier) {
        return 400;
      }
      favorites := favorites + [Favorite(merchant, supplier, notes)];
      code := 201;
    }

    /** remove_favorite_supplier: deletes the pair's row. */
    method RemoveFavoriteSupplier(merchant: int, supplier: int) returns (code: int)
      requires Valid()
      modifies this`favorites
      ensures Valid()
      ensures code == (if old(IsFavorite(favorites, merchant, supplier)) then 200 else 404)
      ensures favorites == WithoutFavorite(old(favorites), merchant, supplier)
      ensures !IsFavorite(favorites, merchant, supplier)
    {
      RemovedIsGone(favorites, merchant, supplier);
      if !IsFavorite(favorites, merchant, supplier) {
        var keep := (f: Favorite) => !(f.merchantId == merchant && f.supplierId == supplier);
        forall f | f in favorites ensures keep(f) {
          var k :| 0 <= k < |favorites| && favorites[k] == f;
        }
        FilterKeepsAll(favorites, keep);
        return 404;
      }
      UniqueAfterFilter(favorites, merchant, supplier);
      favorites := WithoutFavorite(favorites, merchant, supplier);
      code := 200;
    }
  }

  lemma {:induction false} UniqueAfterFilter(favs: seq<Favorite>, merchant: int, supplier: int)
    requires FavoritesUnique(favs)
    ensures FavoritesUnique(WithoutFavorite(favs, merchant, supplier))
  {
    if favs != [] {
      UniqueAfterFilter(favs[1..], merchant, supplier);
      var keep := (f: Favorite) => !(f.merchantId == merchant && f.supplierId == supplier);
      var rest := WithoutFavorite(favs[1..], merchant, supplier);
      if keep(favs[0]) {
        forall j | 0 <= j < |rest|
          ensures !(favs[0].merchantId == rest[j].merchantId && favs[0].supplierId == rest[j].supplierId)
        {
          assert rest[j] in favs[1..];
          var k :| 0 <= k < |favs[1..]| && favs[1..][k] == rest[j];
          assert favs[k + 1] == rest[j];
        }
        assert WithoutFavorite(favs, merchant, supplier) == [favs[0]] + rest;
      }
    }
  }
}
