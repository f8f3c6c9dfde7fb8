/**
 * The shipping company's shipments page
 * (enhanced-business-platform/src/components/shipping/ShippingShipments.jsx):
 * each shipment card offers one button that moves the shipment one step
 * along its delivery chain, the list is narrowed by a search and a status
 * selector, and four counters sum up the list. Statuses are plain strings
 * there, so they are strings here.
 *
 * The fixture shipments are a parameter of the constructor.
 */
module ShippingShipments {
  import opened Common

  datatype Merchant = Merchant(name: string, phone: string, address: string)

  datatype Shipment = Shipment(
    id: string, trackingNumber: string, merchant: Merchant, status: string,
    notes: Option<string>, createdAt: string, estimatedDelivery: string)

  /** The delivery chain, in order. */
  const Chain: seq<string> := ["pending", "confirmed", "picked_up", "in_transit", "out_for_delivery", "delivered"]

  /** The status the card's button moves a shipment to, if it has one. */
  function NextStep(s: string): Option<string> {
    if s == "pending" then Some("confirmed")
    else if s == "confirmed" then Some("picked_up")
    else if s == "picked_up" then Some("in_transit")
    else if s == "in_transit" then Some("out_for_delivery")
    else if s == "out_for_delivery" then Some("delivered")
    else None
  }

  /** The button moves a shipment exactly one place along the chain, and
    * delivered, cancelled and unknown statuses have no button. */
  lemma NextStepSpec(s: string)
    ensures NextStep(s).Some? <==> exists i :: 0 <= i < |Chain| - 1 && Chain[i] == s
    ensures forall i :: 0 <= i < |Chain| - 1 && Chain[i] == s ==> NextStep(s) == Some(Chain[i + 1])
    ensures NextStep("delivered").None? && NextStep("cancelled").None?
  {
    if NextStep(s).Some? {
      if s == "pending" { assert Chain[0] == s; }
      else if s == "confirmed" { assert Chain[1] == s; }
      else if s == "picked_up" { assert Chain[2] == s; }
      else if s == "in_transit" { assert Chain[3] == s; }
      else { assert Chain[4] == s; }
    }
  }

  /** `n` presses of the button, as long as there is one. */
  function Walk(s: string, n: nat): Option<string>
    decreases n
  {
    if n == 0 then Some(s)
    else match NextStep(s)
      case None => None
      case Some(t) => Walk(t, n - 1)
  }

  /** From pending, `n` presses reach the `n`-th status of the chain, five
    * presses deliver the shipment and a sixth finds no button. */
  lemma WalkFromPending(n: nat)
    requires n < |Chain|
    ensures Walk("pending", n) == Some(Chain[n])
    ensures Walk("pending", |Chain|).None?
  {
    WalkAlong(0, n);
    WalkAlong(0, |Chain| - 1);
    assert Walk("delivered", 1).None?;
    WalkAppend("pending", |Chain| - 1, 1);
  }

  /** Walking from the `i`-th status of the chain. */
  lemma {:induction false} WalkAlong(i: nat, n: nat)
    requires i + n < |Chain|
    ensures Walk(Chain[i], n) == Some(Chain[i + n])
    decreases n
  {
    if n > 0 {
      NextStepSpec(Chain[i]);
      WalkAlong(i + 1, n - 1);
    }
  }

  lemma {:induction false} WalkAppend(s: string, m: nat, n: nat)
    requires Walk(s, m).Some?
    ensures Walk(s, m + n) == Walk(Walk(s, m).value, n)
    decreases m
  {
    if m > 0 {
      WalkAppend(NextStep(s).value, m - 1, n);
    }
  }

  /** No press ever leads to cancelled. */
  lemma NeverCancelled(s: string)
    ensures NextStep(s) != Some("cancelled")
  {
  }

  /** `getStatusText`. */
  function StatusText(s: string): string {
    if s == "pending" then "في الانتظار"
    else if s == "confirmed" then "مؤكدة"
    else if s == "picked_up" then "تم الاستلام"
    else if s == "in_transit" then "في الطريق"
    else if s == "out_for_delivery" then "خرج للتوصيل"
    else if s == "delivered" then "تم التسليم"
    else if s == "cancelled" then "ملغية"
    else s
  }

  predicate Known(s: string) {
    s in Chain || s == "cancelled"
  }

  /** A known status gets an Arabic label that is not itself a status
    * code; any other status is shown as it is. */
  lemma StatusTextSpec(s: string)
    ensures !Known(s) ==> StatusText(s) == s
    ensures Known(s) ==> StatusText(s) != s && !Known(StatusText(s))
  {
  }

  /** Different known statuses get different labels. */
  lemma StatusLabelsDistinct(s: string, t: string)
    requires Known(s) && Known(t) && s != t
    ensures StatusText(s) != StatusText(t)
  {
  }

  // ---------------------------------------------------------------------
  // Status updates, filter and counters
  // ---------------------------------------------------------------------

  /** `handleStatusUpdate` on the list. */
  function SetStatus(ss: seq<Shipment>, id: string, status: string): (r: seq<Shipment>)
    ensures |r| == |ss|
    ensures forall i :: 0 <= i < |ss| ==> r[i] == if ss[i].id == id then ss[i].(status := status) else ss[i]
  {
    if ss == [] then []
    else [if ss[0].id == id then ss[0].(status := status) else ss[0]] + SetStatus(ss[1..], id, status)
  }

  /** `filteredShipments`' test; the status "all" lets everything through. */
  function Keeps(term: string, filterStatus: string): Shipment -> bool {
    (s: Shipment) =>
      (Matches(s.trackingNumber, term) || Matches(s.merchant.name, term)) &&
      (filterStatus == "all" || s.status == filterStatus)
  }

  function Filtered(ss: seq<Shipment>, term: string, filterStatus: string): seq<Shipment> {
    Filter(ss, Keeps(term, filterStatus))
  }

  /** A shipment is listed exactly when the search matches its tracking
    * number or its merchant and its status passes the selector; an empty
    * search with "all" lists everything. */
  lemma FilteredSpec(ss: seq<Shipment>, term: string, filterStatus: string)
    ensures forall s :: s in Filtered(ss, term, filterStatus) <==>
      s in ss && (Matches(s.trackingNumber, term) || Matches(s.merchant.name, term)) &&
      (filterStatus == "all" || s.status == filterStatus)
    ensures Filtered(ss, "", "all") == ss
  {
    forall s ensures s in Filtered(ss, term, filterStatus) <==> s in ss && Keeps(term, filterStatus)(s) {
      FilterMembership(ss, Keeps(term, filterStatus), s);
    }
    forall s | s in ss ensures Keeps("", "all")(s) {
      EmptyQueryMatches(s.trackingNumber);
    }
    FilterKeepsAll(ss, Keeps("", "all"));
  }

  function HasStatus(status: string): Shipment -> bool {
    (s: Shipment) => s.status == status
  }

  /** The four counters: total, pending, in transit, delivered. */
  function Counters(ss: seq<Shipment>): (nat, nat, nat, nat) {
    (|ss|, Count(ss, HasStatus("pending")), Count(ss, HasStatus("in_transit")), Count(ss, HasStatus("delivered")))
  }

  /** The three status counters never add up to more than the total. */
  lemma {:induction false} CountersSpec(ss: seq<Shipment>)
    ensures var (total, pending, transit, delivered) := Counters(ss);
      pending + transit + delivered <= total
  {
    if ss != [] {
      CountersSpec(ss[1..]);
    }
  }

  class ShipmentsPage {
    var shipments: seq<Shipment>

    constructor (initial: seq<Shipment>)
      ensures shipments == initial
    {
      shipments := initial;
    }

    /** `handleStatusUpdate`: the shipments with the id get the status and
      * nothing else changes. */
    method HandleStatusUpdate(id: string, status: string)
      modifies this
      ensures shipments == SetStatus(old(shipments), id, status)
    {
      shipments := SetStatus(shipments, id, status);
    }

    /** The button on the card of shipment `k`: the shipment moves to the
      * next status of the chain. */
    method Advance(k: nat)
      requires k < |shipments| && NextStep(shipments[k].status).Some?
      modifies this
      ensures shipments == SetStatus(old(shipments), old(shipments)[k].id, NextStep(old(shipments)[k].status).value)
      ensures NextStep(old(shipments)[k].status) == Some(shipments[k].status)
    {
      var next := NextStep(shipments[k].status).value;
      HandleStatusUpdate(shipments[k].id, next);
    }
  }
}
