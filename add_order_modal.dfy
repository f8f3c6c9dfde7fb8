/**
 * The supplier's four-step "new order" wizard
 * (frontend/src/components/supplier/AddOrderModal.tsx): choose a partner,
 * pick product lines, give delivery details, review. The component's
 * state (`currentStep`, `errors`, `orderData`, `selectedProducts`) is the
 * state of one `AddOrderModal` object; each handler replaces part of it.
 *
 * Prices, quantities and money amounts are `real`; the 15% VAT is exact.
 */
module SupplierOrderModal {
  import opened Common

  datatype Product = Product(id: string, name: string, price: real, stock: int, category: string)

  datatype OrderItem = OrderItem(productId: string, productName: string, quantity: real, price: real, total: real)

  datatype OrderData = OrderData(
    partnerId: string, partnerName: string, items: seq<OrderItem>,
    subtotal: real, discount: real, tax: real, total: real,
    deliveryDate: string, deliveryAddress: string, paymentMethod: string, notes: string, status: string)

  datatype Totals = Totals(subtotal: real, discount: real, tax: real, total: real)

  /** The order the wizard starts from and returns to after a submit. */
  function EmptyOrder(): OrderData {
    OrderData("", "", [], 0.0, 0.0, 0.0, 0.0, "", "", "cash", "", "pending")
  }

  function ItemTotal(it: OrderItem): real {
    it.total
  }

  /** `calculateTotals(items, discountPercent)`. */
  function CalculateTotals(items: seq<OrderItem>, discountPercent: real): Totals {
    var subtotal := Sum(items, ItemTotal);
    var discount := subtotal * discountPercent / 100.0;
    var taxable := subtotal - discount;
    var tax := taxable * 0.15; // 15% VAT
    Totals(subtotal, discount, tax, taxable + tax)
  }

  /** The subtotal is the sum of the line totals and the total is the
    * discounted subtotal plus 15%; a percentage within [0, 100] over
    * non-negative lines gives a discount within the subtotal and a total
    * between 0 and 115% of the subtotal. */
  lemma CalculateTotalsSpec(items: seq<OrderItem>, pct: real)
    ensures var t := CalculateTotals(items, pct);
      && t.subtotal == Sum(items, ItemTotal)
      && t.total == (t.subtotal - t.discount) * 1.15
      && t.tax == (t.subtotal - t.discount) * 0.15
    ensures (0.0 <= pct <= 100.0 && forall i :: 0 <= i < |items| ==> items[i].total >= 0.0) ==>
      var t := CalculateTotals(items, pct);
      && 0.0 <= t.discount <= t.subtotal
      && 0.0 <= t.total <= t.subtotal * 1.15
  {
    var t := CalculateTotals(items, pct);
    if 0.0 <= pct <= 100.0 && forall i :: 0 <= i < |items| ==> items[i].total >= 0.0 {
      forall x | x in items ensures ItemTotal(x) >= 0.0 {
        var i :| 0 <= i < |items| && items[i] == x;
      }
      SumNonNegative(items, ItemTotal);
      DiscountWithin(t.subtotal, pct);
    }
  }

  lemma DiscountWithin(s: real, pct: real)
    requires s >= 0.0 && 0.0 <= pct <= 100.0
    ensures 0.0 <= s * pct / 100.0 <= s
    ensures 0.0 <= (s - s * pct / 100.0) + (s - s * pct / 100.0) * 0.15 <= s * 1.15
  {
    assert s * pct / 100.0 == s * (pct / 100.0);
    assert 0.0 <= pct / 100.0 <= 1.0;
    assert s * (pct / 100.0) <= s * 1.0;
  }

  /** The percentage the discount field shows:
    * `(discount / subtotal * 100) || 0`. */
  function ShownPercent(o: OrderData): real {
    if o.subtotal == 0.0 then 0.0 else o.discount / o.subtotal * 100.0
  }

  /** What `addProduct`, `removeProduct` and `updateQuantity` pass to
    * `calculateTotals`: the stored discount AMOUNT, read as a percentage. */
  function RecalculateAsWritten(o: OrderData, items: seq<OrderItem>): Totals {
    CalculateTotals(items, o.discount)
  }

  /** The recalculation the discount field implies: the shown percentage
    * applied to the new lines. */
  function Recalculate(o: OrderData, items: seq<OrderItem>): Totals {
    CalculateTotals(items, ShownPercent(o))
  }

  /** With one line of 1000 and a 10% discount (discount 100, total 1035),
    * re-entering the same quantity recomputes a 100% discount and a total
    * of 0; the intended recalculation leaves the order as it was. */
  lemma DiscountAmountReadAsPercent()
    ensures var item := OrderItem("1", "p", 1.0, 1000.0, 1000.0);
      var o := EmptyOrder().(items := [item], subtotal := 1000.0, discount := 100.0, tax := 135.0, total := 1035.0);
      && CalculateTotals([item], 10.0) == Totals(1000.0, 100.0, 135.0, 1035.0)
      && RecalculateAsWritten(o, [item]) == Totals(1000.0, 1000.0, 0.0, 0.0)
      && Recalculate(o, [item]) == Totals(1000.0, 100.0, 135.0, 1035.0)
  {
    var item := OrderItem("1", "p", 1.0, 1000.0, 1000.0);
    assert Sum([item], ItemTotal) == 1000.0 by {
      assert [item][1..] == [];
    }
  }

  /** Editing the lines keeps the discount percentage the order shows. */
  lemma RecalculateKeepsPercent(o: OrderData, items: seq<OrderItem>)
    ensures var t := Recalculate(o, items);
      t.subtotal != 0.0 ==> t.discount / t.subtotal * 100.0 == ShownPercent(o)
  {
    var t := Recalculate(o, items);
    if t.subtotal != 0.0 {
      var p := ShownPercent(o);
      assert t.discount == t.subtotal * p / 100.0;
      assert t.discount / t.subtotal == p / 100.0;
    }
  }

  // ---------------------------------------------------------------------
  // Line editing
  // ---------------------------------------------------------------------

  /** `parseInt(text) || 1` for the parsed text: `NaN` and 0 become 1. */
  function ChosenQuantity(parsed: Option<int>): real {
    if parsed.None? || parsed.value == 0 then 1.0 else parsed.value as real
  }

  /** `selectedProducts[product.id] || 1`. */
  function PickQuantity(selected: map<string, real>, id: string): (q: real)
    ensures q != 0.0
    ensures id in selected && selected[id] != 0.0 ==> q == selected[id]
  {
    if id in selected && selected[id] != 0.0 then selected[id] else 1.0
  }

  /** `item => item.productId === id`. */
  function LineOf(id: string): OrderItem -> bool {
    (it: OrderItem) => it.productId == id
  }

  /** `quantity * price`. */
  function LineAmount(quantity: real, price: real): real {
    quantity * price
  }

  predicate LinesConsistent(items: seq<OrderItem>) {
    forall i :: 0 <= i < |items| ==> items[i].total == LineAmount(items[i].quantity, items[i].price)
  }

  predicate DifferentProducts(a: OrderItem, b: OrderItem) {
    a.productId != b.productId
  }

  predicate UniqueProducts(items: seq<OrderItem>) {
    forall i, j :: 0 <= i < j < |items| ==> items[i].productId != items[j].productId
  }

  /** `addProduct` on the lines: a product already present gets the new
    * quantity (not an added one); another product is appended. */
  function AddLine(items: seq<OrderItem>, p: Product, q: real): seq<OrderItem> {
    var k := FirstIndex(items, LineOf(p.id));
    if k.Some? then items[k.value := items[k.value].(quantity := q, total := LineAmount(q, items[k.value].price))]
    else items + [OrderItem(p.id, p.name, q, p.price, LineAmount(q, p.price))]
  }

  lemma AddLineSpec(items: seq<OrderItem>, p: Product, q: real)
    ensures var r := AddLine(items, p, q);
      && (UniqueProducts(items) ==> UniqueProducts(r))
      && (LinesConsistent(items) ==> LinesConsistent(r))
      && (exists k :: 0 <= k < |r| && r[k].productId == p.id && r[k].quantity == q)
      && ((exists k :: 0 <= k < |items| && items[k].productId == p.id) ==> |r| == |items|)
      && ((forall k :: 0 <= k < |items| ==> items[k].productId != p.id) ==> r == items + [OrderItem(p.id, p.name, q, p.price, LineAmount(q, p.price))])
      && (forall i :: 0 <= i < |items| && items[i].productId != p.id ==> r[i] == items[i])
  {
    var k := FirstIndex(items, LineOf(p.id));
    var r := AddLine(items, p, q);
    if k.Some? {
      assert LineOf(p.id)(items[k.value]);
      assert r[k.value].productId == p.id && r[k.value].quantity == q;
    } else {
      assert r == items + [OrderItem(p.id, p.name, q, p.price, LineAmount(q, p.price))];
      assert r[|items|].productId == p.id && r[|items|].quantity == q;
    }
  }

  /** `removeProduct`: every line of that product goes, the rest stay. */
  function RemoveLines(items: seq<OrderItem>, id: string): seq<OrderItem> {
    Filter(items, NotLineOf(id))
  }

  /** `item => item.productId !== id`. */
  function NotLineOf(id: string): OrderItem -> bool {
    (it: OrderItem) => it.productId != id
  }

  lemma RemoveLinesSpec(items: seq<OrderItem>, id: string)
    ensures var r := RemoveLines(items, id);
      && (forall it :: it in r <==> it in items && it.productId != id)
      && (UniqueProducts(items) ==> UniqueProducts(r))
      && (LinesConsistent(items) ==> LinesConsistent(r))
  {
    var keep := NotLineOf(id);
    var r := RemoveLines(items, id);
    forall it ensures it in r <==> it in items && it.productId != id {
      FilterMembership(items, keep, it);
    }
    if UniqueProducts(items) {
      assert Pairwise(items, DifferentProducts);
      FilterPairwise(items, keep, DifferentProducts);
      assert forall i, j :: 0 <= i < j < |r| ==> DifferentProducts(r[i], r[j]);
    }
    if LinesConsistent(items) {
      forall i | 0 <= i < |r| ensures r[i].total == LineAmount(r[i].quantity, r[i].price) {
        assert r[i] in items;
      }
    }
  }

  /** `updateQuantity` with a positive quantity: every line of that product
    * takes the quantity and its total is recomputed. */
  function SetQuantity(items: seq<OrderItem>, id: string, q: real): (r: seq<OrderItem>)
    ensures |r| == |items|
  {
    seq(|items|, i requires 0 <= i < |items| =>
      if items[i].productId == id then items[i].(quantity := q, total := LineAmount(q, items[i].price)) else items[i])
  }

  lemma SetQuantitySpec(items: seq<OrderItem>, id: string, q: real)
    ensures var r := SetQuantity(items, id, q);
      && (forall i :: 0 <= i < |r| && items[i].productId == id ==>
            r[i].quantity == q && r[i].total == LineAmount(q, items[i].price) && r[i].price == items[i].price)
      && (forall i :: 0 <= i < |r| && items[i].productId != id ==> r[i] == items[i])
      && (forall i :: 0 <= i < |r| ==> r[i].productId == items[i].productId)
      && (UniqueProducts(items) ==> UniqueProducts(r))
      && (LinesConsistent(items) ==> LinesConsistent(r))
  {
  }

  // ---------------------------------------------------------------------
  // Steps
  // ---------------------------------------------------------------------

  /** The messages `validateStep(step)` records. */
  function StepErrors(step: int, o: OrderData): map<string, string> {
    if step == 1 then
      (if o.partnerId == "" then map["partnerId" := "يجب اختيار شريك"] else map[])
    else if step == 2 then
      (if |o.items| == 0 then map["items" := "يجب إضافة منتج واحد على الأقل"] else map[])
    else if step == 3 then
      (if o.deliveryDate == "" then map["deliveryDate" := "تاريخ التسليم مطلوب"] else map[])
      + (if Trim(o.deliveryAddress) == "" then map["deliveryAddress" := "عنوان التسليم مطلوب"] else map[])
    else map[]
  }

  predicate StepValid(step: int, o: OrderData) {
    StepErrors(step, o).Keys == {}
  }

  /** Step 1 needs a partner, step 2 a line, step 3 a delivery date and a
    * non-blank address; step 4 always passes. */
  lemma StepValidIff(step: int, o: OrderData)
    ensures StepValid(step, o) <==>
      && (step == 1 ==> o.partnerId != "")
      && (step == 2 ==> |o.items| > 0)
      && (step == 3 ==> o.deliveryDate != "" && !IsBlank(o.deliveryAddress))
  {
    TrimEmptyIffBlank(o.deliveryAddress);
    if step == 3 && o.deliveryDate == "" {
      assert "deliveryDate" in StepErrors(step, o);
    }
    if step == 3 && Trim(o.deliveryAddress) == "" {
      assert "deliveryAddress" in StepErrors(step, o);
    }
    if step == 1 && o.partnerId == "" {
      assert "partnerId" in StepErrors(step, o);
    }
    if step == 2 && |o.items| == 0 {
      assert "items" in StepErrors(step, o);
    }
  }

  /** `Math.min(step + 1, 4)` and `Math.max(step - 1, 1)`. */
  function NextStep(step: int): (r: int)
    ensures step <= 4 ==> r <= 4
    ensures step < 4 ==> r == step + 1
  {
    if step + 1 < 4 then step + 1 else 4
  }

  function PreviousStep(step: int): (r: int)
    ensures step >= 1 ==> r >= 1
    ensures step > 1 ==> r == step - 1
  {
    if step - 1 > 1 then step - 1 else 1
  }

  /** The lines, the running totals and the line ids agree. */
  predicate Consistent(o: OrderData) {
    && LinesConsistent(o.items)
    && UniqueProducts(o.items)
    && o.subtotal == Sum(o.items, ItemTotal)
    && o.tax == (o.subtotal - o.discount) * 0.15
    && o.total == o.subtotal - o.discount + o.tax
  }

  function WithLines(o: OrderData, items: seq<OrderItem>, t: Totals): OrderData {
    o.(items := items, subtotal := t.subtotal, discount := t.discount, tax := t.tax, total := t.total)
  }

  class AddOrderModal {
    var currentStep: int
    var errors: map<string, string>
    var order: OrderData
    var selectedProducts: map<string, real>

    predicate Valid()
      reads this
    {
      1 <= currentStep <= 4 && Consistent(order)
    }

    constructor ()
      ensures currentStep == 1 && order == EmptyOrder() && errors == map[] && selectedProducts == map[]
      ensures Valid()
    {
      currentStep := 1;
      errors := map[];
      order := EmptyOrder();
      selectedProducts := map[];
    }

    /** `selectPartner`. */
    method SelectPartner(id: string, businessName: string)
      requires Valid()
      modifies this
      ensures Valid()
      ensures order == old(order).(partnerId := id, partnerName := businessName)
      ensures currentStep == old(currentStep) && errors == old(errors) && selectedProducts == old(selectedProducts)
    {
      order := order.(partnerId := id, partnerName := businessName);
    }

    /** The quantity input next to a product in the catalogue: `parsed` is
      * `parseInt(e.target.value)`, `None` when it is `NaN`, and the page
      * stores `parsed || 1`, so never 0 and never a fraction. */
    method SelectQuantity(id: string, parsed: Option<int>)
      modifies this
      ensures selectedProducts == old(selectedProducts)[id := ChosenQuantity(parsed)]
      ensures selectedProducts[id] != 0.0 && selectedProducts[id].Floor as real == selectedProducts[id]
      ensures parsed.Some? && parsed.value != 0 ==> selectedProducts[id] == parsed.value as real
      ensures order == old(order) && currentStep == old(currentStep) && errors == old(errors)
    {
      selectedProducts := selectedProducts[id := ChosenQuantity(parsed)];
    }

    /** The delivery inputs of step 3. */
    method SetDelivery(date: string, address: string)
      requires Valid()
      modifies this
      ensures Valid()
      ensures order == old(order).(deliveryDate := date, deliveryAddress := address)
      ensures currentStep == old(currentStep) && errors == old(errors) && selectedProducts == old(selectedProducts)
    {
      order := order.(deliveryDate := date, deliveryAddress := address);
    }

    /** `addProduct`: the totals are recomputed with the stored discount
      * amount passed as the percentage, as the source does. */
    method AddProduct(p: Product)
      requires Valid()
      modifies this
      ensures Valid()
      ensures var items := AddLine(old(order.items), p, PickQuantity(old(selectedProducts), p.id));
        order == WithLines(old(order), items, RecalculateAsWritten(old(order), items))
      ensures currentStep == old(currentStep) && errors == old(errors) && selectedProducts == old(selectedProducts)
    {
      var items := AddLine(order.items, p, PickQuantity(selectedProducts, p.id));
      AddLineSpec(order.items, p, PickQuantity(selectedProducts, p.id));
      order := WithLines(order, items, RecalculateAsWritten(order, items));
    }

    /** `removeProduct`, recomputing the same way. */
    method RemoveProduct(id: string)
      requires Valid()
      modifies this
      ensures Valid()
      ensures var items := RemoveLines(old(order.items), id);
        order == WithLines(old(order), items, RecalculateAsWritten(old(order), items))
      ensures currentStep == old(currentStep) && errors == old(errors) && selectedProducts == old(selectedProducts)
    {
      var items := RemoveLines(order.items, id);
      RemoveLinesSpec(order.items, id);
      order := WithLines(order, items, RecalculateAsWritten(order, items));
    }

    /** `updateQuantity`: a quantity of 0 or less removes the product;
      * either way the totals are recomputed from the stored amount. */
    method UpdateQuantity(id: string, q: real)
      requires Valid()
      modifies this
      ensures Valid()
      ensures var items := if q <= 0.0 then RemoveLines(old(order.items), id) else SetQuantity(old(order.items), id, q);
        order == WithLines(old(order), items, RecalculateAsWritten(old(order), items))
      ensures currentStep == old(currentStep) && errors == old(errors) && selectedProducts == old(selectedProducts)
    {
      if q <= 0.0 {
        RemoveProduct(id);
        return;
      }
      var items := SetQuantity(order.items, id, q);
      SetQuantitySpec(order.items, id, q);
      order := WithLines(order, items, RecalculateAsWritten(order, items));
    }

    /** `updateDiscount`: the discount, tax and total at the new
      * percentage; the subtotal and lines stay. */
    method UpdateDiscount(pct: real)
      requires Valid()
      modifies this
      ensures Valid()
      ensures var t := CalculateTotals(old(order.items), pct);
        order == old(order).(discount := t.discount, tax := t.tax, total := t.total)
      ensures currentStep == old(currentStep) && errors == old(errors) && selectedProducts == old(selectedProducts)
    {
      var t := CalculateTotals(order.items, pct);
      order := order.(discount := t.discount, tax := t.tax, total := t.total);
    }

    /** `handleNext`: the step advances, up to 4, only when it validates. */
    method HandleNext()
      requires Valid()
      modifies this
      ensures Valid()
      ensures errors == StepErrors(old(currentStep), old(order))
      ensures currentStep == if StepValid(old(currentStep), old(order)) then NextStep(old(currentStep)) else old(currentStep)
      ensures order == old(order) && selectedProducts == old(selectedProducts)
    {
      errors := StepErrors(currentStep, order);
      if errors.Keys == {} {
        currentStep := NextStep(currentStep);
      }
    }

    /** `handlePrevious`. */
    method HandlePrevious()
      requires Valid()
      modifies this
      ensures Valid()
      ensures currentStep == PreviousStep(old(currentStep))
      ensures order == old(order) && errors == old(errors) && selectedProducts == old(selectedProducts)
    {
      currentStep := PreviousStep(currentStep);
    }

    /** `handleSubmit`: a valid step hands the order to `onSubmit` and
      * resets the wizard; otherwise only the errors change. */
    method HandleSubmit() returns (submitted: Option<OrderData>)
      requires Valid()
      modifies this
      ensures Valid()
      ensures errors == StepErrors(old(currentStep), old(order))
      ensures submitted.Some? <==> StepValid(old(currentStep), old(order))
      ensures submitted.Some? ==>
        submitted.value == old(order) && currentStep == 1 && order == EmptyOrder() && selectedProducts == map[]
      ensures submitted.None? ==>
        currentStep == old(currentStep) && order == old(order) && selectedProducts == old(selectedProducts)
    {
      errors := StepErrors(currentStep, order);
      if errors.Keys != {} {
        return None;
      }
      submitted := Some(order);
      currentStep := 1;
      order := EmptyOrder();
      selectedProducts := map[];
    }
  }
}
