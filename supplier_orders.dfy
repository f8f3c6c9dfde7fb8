/**
 * The supplier's order-management page
 * (frontend/src/pages/supplier/SupplierOrdersManagement.tsx): merchant
 * orders move through their statuses by the action buttons on each card,
 * the status tabs show how many orders each status holds, and the list is
 * narrowed by a search and by status and priority selectors.
 *
 * The fixture orders are a parameter of the constructor.
 */
module SupplierOrders {
  import opened Common

  datatype Status = Pending | Confirmed | Processing | Shipped | Delivered | Cancelled
  datatype Priority = LowPriority | MediumPriority | HighPriority | Urgent

  datatype Line = Line(name: string, quantity: int, price: real)

  datatype Order = Order(
    id: string, merchantName: string, merchantAvatar: string, products: seq<Line>,
    totalAmount: real, status: Status, priority: Priority, orderDate: string,
    expectedDelivery: string, notes: Option<string>)

  // ---------------------------------------------------------------------
  // The action buttons
  // ---------------------------------------------------------------------

  /** The statuses the buttons of a card offer: accept or refuse a pending
    * order, start preparing a confirmed one, ship a prepared one. */
  function Actions(s: Status): seq<Status> {
    match s
    case Pending => [Confirmed, Cancelled]
    case Confirmed => [Processing]
    case Processing => [Shipped]
    case _ => []
  }

  /** Where a status sits on the way to the merchant. */
  function Stage(s: Status): nat {
    match s
    case Pending => 0
    case Confirmed => 1
    case Processing => 2
    case Shipped => 3
    case Delivered => 4
    case Cancelled => 5
  }

  /** Every button moves an order forward, only a pending order can be
    * refused, shipped, delivered and cancelled orders have no buttons, and
    * no button marks an order delivered. */
  lemma ActionsSpec(s: Status, t: Status)
    ensures t in Actions(s) ==> Stage(s) < Stage(t)
    ensures t in Actions(s) && t == Cancelled ==> s == Pending
    ensures s in {Shipped, Delivered, Cancelled} ==> Actions(s) == []
    ensures Delivered !in Actions(s)
    ensures t in Actions(s) <==>
      (s == Pending && t in {Confirmed, Cancelled}) || (s == Confirmed && t == Processing) ||
      (s == Processing && t == Shipped)
  {
  }

  /** A status reachable by `n` presses of the buttons. */
  predicate Reachable(s: Status, t: Status, n: nat)
    decreases n
  {
    if n == 0 then s == t
    else exists u :: u in Actions(s) && Reachable(u, t, n - 1)
  }

  /** Three presses take a pending order to shipped, and no number of
    * presses takes any order to delivered. */
  lemma {:induction false} PressesToShipped(s: Status, n: nat)
    requires s != Delivered
    ensures Reachable(Pending, Shipped, 3)
    ensures !Reachable(s, Delivered, n)
    decreases n
  {
    assert Reachable(Shipped, Shipped, 0);
    assert Reachable(Processing, Shipped, 1) by { assert Shipped in Actions(Processing); }
    assert Reachable(Confirmed, Shipped, 2) by { assert Processing in Actions(Confirmed); }
    assert Confirmed in Actions(Pending);
    if n > 0 {
      forall u | u in Actions(s) ensures !Reachable(u, Delivered, n - 1) {
        PressesToShipped(u, n - 1);
      }
    }
  }

  // ---------------------------------------------------------------------
  // Status updates and counts
  // ---------------------------------------------------------------------

  /** `updateOrderStatus` on the list. */
  function SetStatus(orders: seq<Order>, id: string, s: Status): (r: seq<Order>)
    ensures |r| == |orders|
    ensures forall i :: 0 <= i < |orders| ==> r[i] == if orders[i].id == id then orders[i].(status := s) else orders[i]
  {
    if orders == [] then []
    else [if orders[0].id == id then orders[0].(status := s) else orders[0]] + SetStatus(orders[1..], id, s)
  }

  function HasStatus(s: Status): Order -> bool {
    (o: Order) => o.status == s
  }

  function IdWithStatus(id: string, s: Status): Order -> bool {
    (o: Order) => o.id == id && o.status == s
  }

  function WithId(id: string): Order -> bool {
    (o: Order) => o.id == id
  }

  /** Moving the orders with an id to status `s` takes them off the count of
    * every other status `t` and adds all of them that were elsewhere to
    * `s`. */
  lemma {:induction false} SetStatusCounts(orders: seq<Order>, id: string, s: Status, t: Status)
    requires s != t
    ensures Count(SetStatus(orders, id, s), HasStatus(t)) + Count(orders, IdWithStatus(id, t)) == Count(orders, HasStatus(t))
    ensures Count(SetStatus(orders, id, s), HasStatus(s)) ==
      Count(orders, HasStatus(s)) + Count(orders, WithId(id)) - Count(orders, IdWithStatus(id, s))
  {
    if orders != [] {
      SetStatusCounts(orders[1..], id, s, t);
      assert SetStatus(orders, id, s)[1..] == SetStatus(orders[1..], id, s);
    }
  }

  /** The figures on the status tabs: everything, then the five statuses
    * from pending to delivered (cancelled orders have no tab). */
  function TabCounts(orders: seq<Order>): (r: seq<nat>)
    ensures |r| == 6
  {
    [|orders|, Count(orders, HasStatus(Pending)), Count(orders, HasStatus(Confirmed)),
     Count(orders, HasStatus(Processing)), Count(orders, HasStatus(Shipped)), Count(orders, HasStatus(Delivered))]
  }

  /** The "all" tab counts every order: the five status tabs and the
    * cancelled orders add up to it. */
  lemma {:induction false} TabCountsSpec(orders: seq<Order>)
    ensures var c := TabCounts(orders);
      c[0] == |orders| == c[1] + c[2] + c[3] + c[4] + c[5] + Count(orders, HasStatus(Cancelled))
  {
    if orders != [] {
      TabCountsSpec(orders[1..]);
    }
  }

  // ---------------------------------------------------------------------
  // The list filter
  // ---------------------------------------------------------------------

  /** `filteredOrders`' test; `None` is the "all" choice of a selector. */
  function Keeps(term: string, status: Option<Status>, priority: Option<Priority>): Order -> bool {
    (o: Order) =>
      (Matches(o.merchantName, term) || Matches(o.id, term)) &&
      (status.None? || o.status == status.value) &&
      (priority.None? || o.priority == priority.value)
  }

  function Filtered(orders: seq<Order>, term: string, status: Option<Status>, priority: Option<Priority>): seq<Order> {
    Filter(orders, Keeps(term, status, priority))
  }

  /** An order is listed exactly when the search matches its merchant or
    * its id and it passes both selectors; with nothing chosen, every order
    * is listed. */
  lemma FilteredSpec(orders: seq<Order>, term: string, status: Option<Status>, priority: Option<Priority>)
    ensures forall o :: o in Filtered(orders, term, status, priority) <==>
      o in orders && (Matches(o.merchantName, term) || Matches(o.id, term)) &&
      (status.None? || o.status == status.value) && (priority.None? || o.priority == priority.value)
    ensures Filtered(orders, "", None, None) == orders
  {
    forall o ensures o in Filtered(orders, term, status, priority) <==> o in orders && Keeps(term, status, priority)(o) {
      FilterMembership(orders, Keeps(term, status, priority), o);
    }
    forall o | o in orders ensures Keeps("", None, None)(o) {
      EmptyQueryMatches(o.merchantName);
    }
    FilterKeepsAll(orders, Keeps("", None, None));
  }

  class OrdersPage {
    var orders: seq<Order>

    constructor (initial: seq<Order>)
      ensures orders == initial
    {
      orders := initial;
    }

    /** `updateOrderStatus`: the orders with the id get the status and
      * nothing else changes. */
    method UpdateOrderStatus(id: string, s: Status)
      modifies this
      ensures orders == SetStatus(old(orders), id, s)
    {
      orders := SetStatus(orders, id, s);
    }

    /** A button of the card of order `k`: the orders with its id move to
      * a status the card offers, which lies further along. */
    method Press(k: nat, next: Status)
      requires k < |orders| && next in Actions(orders[k].status)
      modifies this
      ensures orders == SetStatus(old(orders), old(orders)[k].id, next)
      ensures orders[k].status == next && Stage(old(orders)[k].status) < Stage(next)
    {
      ActionsSpec(orders[k].status, next);
      UpdateOrderStatus(orders[k].id, next);
    }
  }
}
