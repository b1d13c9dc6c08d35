/**
 * The staff dashboard (src/pages/StaffDashboard.tsx): the order state machine,
 * the status update that rewrites the stored order list, the status filter
 * and per-status counts, and the staff/admin gate on opening the view.
 */
module StaffDashboard {
  import opened Common
  import opened Domain
  import opened Storage

  /** The filter value that shows every order. */
  const ALL: string := "all"

  /** The status an order advances to: the next one in the lifecycle, and none
      for `delivered` or a status outside the lifecycle. */
  function NextStatus(current: string): (next: Option<string>)
    ensures next.Some? <==> 0 <= StageIndex(current) < |Stages| - 1
    ensures next.Some? ==> StageIndex(next.value) == StageIndex(current) + 1
  {
    StageIndexValues();
    if current == PENDING then Some(PREPARING)
    else if current == PREPARING then Some(OUT_FOR_DELIVERY)
    else if current == OUT_FOR_DELIVERY then Some(DELIVERED)
    else None
  }

  /** The advance button's caption; the button is offered exactly when there is a next status. */
  function NextStatusText(current: string): (caption: Option<string>)
    ensures caption.Some? <==> NextStatus(current).Some?
  {
    if current == PENDING then Some("Start Preparing")
    else if current == PREPARING then Some("Out for Delivery")
    else if current == OUT_FOR_DELIVERY then Some("Mark Delivered")
    else None
  }

  /** The status after k presses of the advance button, none once a press has nothing to advance to. */
  function AdvanceTimes(status: string, k: nat): Option<string>
    decreases k
  {
    if k == 0 then Some(status)
    else match NextStatus(status)
      case None => None
      case Some(next) => AdvanceTimes(next, k - 1)
  }

  /** From a lifecycle status, k presses succeed exactly while they stay within the
      lifecycle, and each press moves exactly one stage forward: no skip, no regression. */
  lemma {:induction false} AdvanceSteps(status: string, k: nat)
    requires status in Stages
    ensures AdvanceTimes(status, k).Some? <==> StageIndex(status) + k < |Stages|
    ensures AdvanceTimes(status, k).Some? ==> StageIndex(AdvanceTimes(status, k).value) == StageIndex(status) + k
    decreases k
  {
    if k > 0 {
      match NextStatus(status)
      case None =>
      case Some(next) =>
        assert next in Stages;
        AdvanceSteps(next, k - 1);
    }
  }

  /** A new order is delivered after exactly three advances, and a fourth is refused. */
  lemma PendingDeliveredInThree()
    ensures AdvanceTimes(PENDING, 1) == Some(PREPARING)
    ensures AdvanceTimes(PENDING, 2) == Some(OUT_FOR_DELIVERY)
    ensures AdvanceTimes(PENDING, 3) == Some(DELIVERED)
    ensures AdvanceTimes(PENDING, 4) == None
  {
  }

  /** One order after `updateOrderStatus` matched it: the new status, and a
      delivery time stamped when the new status is `delivered`. */
  function WithStatus(o: Order, newStatus: string, now: nat): Order {
    if newStatus == DELIVERED then o.(status := newStatus, deliveryTime := Some(now))
    else o.(status := newStatus)
  }

  /** The stored list after `updateOrderStatus(orderId, newStatus)`: same length and
      ids; orders with another id are untouched; a matching order changes in its
      status and, on delivery only, its delivery time, and in nothing else. */
  function UpdateStatusIn(orders: seq<Order>, orderId: string, newStatus: string, now: nat): (r: seq<Order>)
    ensures |r| == |orders|
    ensures forall i :: 0 <= i < |r| ==> r[i].id == orders[i].id
    ensures forall i :: 0 <= i < |r| && orders[i].id != orderId ==> r[i] == orders[i]
    ensures forall i :: 0 <= i < |r| && orders[i].id == orderId ==>
      && r[i].status == newStatus
      && r[i].deliveryTime == (if newStatus == DELIVERED then Some(now) else orders[i].deliveryTime)
      && r[i].(status := orders[i].status, deliveryTime := orders[i].deliveryTime) == orders[i]
  {
    if orders == [] then []
    else
      var head := if orders[0].id == orderId then WithStatus(orders[0], newStatus, now) else orders[0];
      var r := [head] + UpdateStatusIn(orders[1..], orderId, newStatus, now);
      assert forall i :: 1 <= i < |r| ==> orders[i] == orders[1..][i - 1];
      r
  }

  /** Updating an id that is not stored leaves the list as it was. */
  lemma UpdateUnknownIdIsNoop(orders: seq<Order>, orderId: string, newStatus: string, now: nat)
    requires forall i :: 0 <= i < |orders| ==> orders[i].id != orderId
    ensures UpdateStatusIn(orders, orderId, newStatus, now) == orders
  {
  }

  /** Advancing through the state machine keeps "delivery time present iff delivered"
      for every stored order. */
  lemma AdvanceKeepsDeliveryConsistent(orders: seq<Order>, orderId: string, newStatus: string, now: nat)
    requires forall i :: 0 <= i < |orders| ==> DeliveryConsistent(orders[i])
    requires forall i :: 0 <= i < |orders| && orders[i].id == orderId ==> NextStatus(orders[i].status) == Some(newStatus)
    ensures var r := UpdateStatusIn(orders, orderId, newStatus, now);
      forall i :: 0 <= i < |r| ==> DeliveryConsistent(r[i])
  {
  }

  /** The update writes whatever status the card on screen computed. A card that still
      shows `preparing` for an order another tab has since delivered sends it back to
      `out_for_delivery`, and its delivery time stays behind. */
  lemma StaleAdvanceRegresses(o: Order, now: nat)
    requires o.status == DELIVERED && DeliveryConsistent(o)
    ensures var r := UpdateStatusIn([o], o.id, OUT_FOR_DELIVERY, now);
      && r[0].status == OUT_FOR_DELIVERY
      && r[0].deliveryTime == o.deliveryTime
      && !DeliveryConsistent(r[0])
  {
  }

  predicate MatchesFilter(o: Order, filter: string) {
    filter == ALL || o.status == filter
  }

  /** The visible orders: every order for `all`, otherwise only orders with that status. */
  function FilteredOrders(orders: seq<Order>, filter: string): (r: seq<Order>)
    ensures forall i :: 0 <= i < |r| ==> MatchesFilter(r[i], filter)
    ensures filter == ALL ==> r == orders
  {
    if orders == [] then []
    else
      var rest := FilteredOrders(orders[1..], filter);
      if MatchesFilter(orders[0], filter) then
        assert orders == [orders[0]] + orders[1..];
        [orders[0]] + rest
      else rest
  }

  /** No stored order is dropped by the filter: each matching order appears as often
      as it is stored, and no other order appears. */
  lemma {:induction false} FilterMultiplicity(orders: seq<Order>, filter: string)
    ensures forall x ::
      multiset(FilteredOrders(orders, filter))[x] == if MatchesFilter(x, filter) then multiset(orders)[x] else 0
  {
    if orders == [] {
      assert FilteredOrders(orders, filter) == [];
    } else {
      FilterMultiplicity(orders[1..], filter);
      assert orders == [orders[0]] + orders[1..];
      assert multiset(orders) == multiset{orders[0]} + multiset(orders[1..]);
    }
  }

  /** Filtering a list in two parts filters each part and keeps them in order, so the
      visible orders keep their relative order. */
  lemma {:induction false} FilterKeepsRelativeOrder(a: seq<Order>, b: seq<Order>, filter: string)
    ensures FilteredOrders(a + b, filter) == FilteredOrders(a, filter) + FilteredOrders(b, filter)
  {
    if a == [] {
      assert a + b == b;
    } else {
      assert (a + b)[0] == a[0];
      assert (a + b)[1..] == a[1..] + b;
      FilterKeepsRelativeOrder(a[1..], b, filter);
    }
  }

  datatype OrderCounts = OrderCounts(all: nat, pending: nat, preparing: nat, outForDelivery: nat, delivered: nat)

  /** The counts shown on the filter tabs. */
  function CountOrders(orders: seq<Order>): (c: OrderCounts)
    ensures c.all == |FilteredOrders(orders, ALL)|
  {
    OrderCounts(
      |orders|,
      |FilteredOrders(orders, PENDING)|,
      |FilteredOrders(orders, PREPARING)|,
      |FilteredOrders(orders, OUT_FOR_DELIVERY)|,
      |FilteredOrders(orders, DELIVERED)|)
  }

  /** When every order has a lifecycle status, the four status counts add up to the `all` count. */
  lemma {:induction false} CountsPartitionAll(orders: seq<Order>)
    requires forall i :: 0 <= i < |orders| ==> orders[i].status in Stages
    ensures var c := CountOrders(orders);
      c.pending + c.preparing + c.outForDelivery + c.delivered == c.all
  {
    if orders != [] {
      CountsPartitionAll(orders[1..]);
      var o := orders[0];
      assert o.status == PENDING || o.status == PREPARING || o.status == OUT_FOR_DELIVERY || o.status == DELIVERED;
      assert ALL != PENDING && ALL != PREPARING && ALL != OUT_FOR_DELIVERY && ALL != DELIVERED;
    }
  }

  /** Roles that may open the dashboard: staff and admin, and no other. */
  predicate IsStaffRole(role: string)
    ensures IsStaffRole(role) <==> role in {"staff", "admin"}
  {
    role == "staff" || role == "admin"
  }

  class Dashboard {
    /** The orders on screen, newest first. */
    var orders: seq<Order>
    var user: Option<SessionUser>
    var filter: string

    constructor ()
      ensures orders == [] && user == None && filter == ALL
    {
      orders := [];
      user := None;
      filter := ALL;
    }

    /** Opening the view: to `/login` without a user, to `/hall-menu` for a role other
        than staff or admin, otherwise the orders are loaded. */
    method Mount(store: LocalStorage) returns (redirect: Option<string>)
      modifies this`user, this`orders
      ensures store.user.None? ==> redirect == Some("/login") && user == old(user) && orders == old(orders)
      ensures store.user.Some? ==> user == store.user
      ensures store.user.Some? && !IsStaffRole(store.user.value.role) ==>
        redirect == Some("/hall-menu") && orders == old(orders)
      ensures store.user.Some? && IsStaffRole(store.user.value.role) ==>
        redirect == None && orders == SortNewestFirst(store.StoredOrders())
    {
      if store.user.None? {
        return Some("/login");
      }
      user := store.user;
      if !IsStaffRole(store.user.value.role) {
        return Some("/hall-menu");
      }
      LoadOrders(store);
      redirect := None;
    }

    /** Reads every stored order and shows them newest first. */
    method LoadOrders(store: LocalStorage)
      modifies this`orders
      ensures orders == SortNewestFirst(store.StoredOrders())
      ensures NewestFirst(orders) && multiset(orders) == multiset(store.StoredOrders())
    {
      orders := SortNewestFirst(store.StoredOrders());
    }

    /** Rewrites the stored list with the one order's new status, and shows the new
        list newest first. The stored list keeps its stored order. */
    method UpdateOrderStatus(store: LocalStorage, orderId: string, newStatus: string, now: nat)
      modifies this`orders, store`orders
      ensures store.orders == Some(UpdateStatusIn(old(store.StoredOrders()), orderId, newStatus, now))
      ensures orders == SortNewestFirst(store.StoredOrders())
      ensures NewestFirst(orders) && multiset(orders) == multiset(store.StoredOrders())
    {
      var updated := UpdateStatusIn(store.StoredOrders(), orderId, newStatus, now);
      store.orders := Some(updated);
      orders := SortNewestFirst(updated);
    }

    /** The advance button of one order card: offered only when there is a next status. */
    method Advance(store: LocalStorage, order: Order, now: nat)
      modifies this`orders, store`orders
      ensures NextStatus(order.status).None? ==> orders == old(orders) && store.orders == old(store.orders)
      ensures NextStatus(order.status).Some? ==>
        store.orders == Some(UpdateStatusIn(old(store.StoredOrders()), order.id, NextStatus(order.status).value, now))
        && orders == SortNewestFirst(store.StoredOrders())
    {
      var next := NextStatus(order.status);
      if next.Some? && NextStatusText(order.status).Some? {
        UpdateOrderStatus(store, order.id, next.value, now);
      }
    }

    method SetFilter(f: string)
      modifies this`filter
      ensures filter == f
    {
      filter := f;
    }

    /** The orders the selected tab shows: all of them under `all`, otherwise each order
        with the selected status as often as it is on screen, and no other. */
    function Visible(): (r: seq<Order>)
      reads this
      ensures filter == ALL ==> r == orders
      ensures forall x :: multiset(r)[x] == if MatchesFilter(x, filter) then multiset(orders)[x] else 0
    {
      FilterMultiplicity(orders, filter);
      FilteredOrders(orders, filter)
    }

    /** The tab counts: `all` counts every order, and the badge of the selected status tab
        counts exactly the orders that tab shows. */
    function Counts(): (c: OrderCounts)
      reads this
      ensures c.all == |orders|
      ensures filter == PENDING ==> c.pending == |Visible()|
      ensures filter == PREPARING ==> c.preparing == |Visible()|
      ensures filter == OUT_FOR_DELIVERY ==> c.outForDelivery == |Visible()|
      ensures filter == DELIVERED ==> c.delivered == |Visible()|
    {
      CountOrders(orders)
    }
  }
}
