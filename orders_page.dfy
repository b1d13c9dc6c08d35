/**
 * The customer's order tracking page (src/pages/Orders.tsx): the current
 * user's orders newest first, the reload that replaces the list only when it
 * changed and raises an "Orders Updated" notice, the status captions, the
 * estimated delivery time and the four-stage progress indicator.
 */
module OrdersPage {
  import opened Common
  import opened Domain
  import opened Storage

  /** The orders placed by the user with this e-mail, in stored order. */
  function ForUser(orders: seq<Order>, email: string): (r: seq<Order>)
    ensures forall i :: 0 <= i < |r| ==> r[i].userId == Some(email)
  {
    if orders == [] then []
    else
      var rest := ForUser(orders[1..], email);
      if orders[0].userId == Some(email) then [orders[0]] + rest else rest
  }

  /** No order of the user is left out and no other order gets in: each of the
      user's orders appears as often as it is stored. */
  lemma {:induction false} ForUserMultiplicity(orders: seq<Order>, email: string)
    ensures forall x :: multiset(ForUser(orders, email))[x] == if x.userId == Some(email) then multiset(orders)[x] else 0
  {
    if orders == [] {
      assert ForUser(orders, email) == [];
    } else {
      ForUserMultiplicity(orders[1..], email);
      assert orders == [orders[0]] + orders[1..];
      assert multiset(orders) == multiset{orders[0]} + multiset(orders[1..]);
    }
  }

  /** The list the page shows: the user's orders, newest first. */
  function UserOrders(orders: seq<Order>, email: string): (r: seq<Order>)
    ensures NewestFirst(r)
    ensures multiset(r) == multiset(ForUser(orders, email))
  {
    SortNewestFirst(ForUser(orders, email))
  }

  /** What the page shows is exactly the user's stored orders, newest first. */
  lemma UserOrdersCorrect(orders: seq<Order>, email: string)
    ensures var r := UserOrders(orders, email);
      && NewestFirst(r)
      && (forall i :: 0 <= i < |r| ==> r[i].userId == Some(email))
      && (forall x :: x in orders && x.userId == Some(email) ==> x in r)
      && forall x :: multiset(r)[x] == if x.userId == Some(email) then multiset(orders)[x] else 0
  {
    ForUserMultiplicity(orders, email);
    var r := UserOrders(orders, email);
    assert multiset(r) == multiset(ForUser(orders, email));
    forall i | 0 <= i < |r| ensures r[i].userId == Some(email) {
      assert r[i] in multiset(r);
    }
    forall x | x in orders && x.userId == Some(email) ensures x in r {
      assert x in multiset(orders);
    }
  }

  /** The "Orders Updated" notice: raised when the reread list differs from the one
      shown, the caller asked for a notice, and the list shown before was not empty. */
  predicate NotifiesOnReload(shown: seq<Order>, reread: seq<Order>, showToast: bool)
    ensures reread == shown ==> !NotifiesOnReload(shown, reread, showToast)
    ensures !showToast || shown == [] ==> !NotifiesOnReload(shown, reread, showToast)
  {
    reread != shown && showToast && |shown| > 0
  }

  /** The customer's caption for a status; "Unknown" exactly for statuses outside the lifecycle. */
  function StatusText(status: string): (text: string)
    ensures text == "Unknown" <==> StageIndex(status) == -1
  {
    StageIndexValues();
    if status == PENDING then "Order Pending"
    else if status == PREPARING then "Being Prepared"
    else if status == OUT_FOR_DELIVERY then "Out for Delivery"
    else if status == DELIVERED then "Delivered"
    else "Unknown"
  }

  /** Minutes from the order time to the estimated delivery, by status; 15 for an unknown status. */
  function EtaMinutes(status: string): (minutes: int)
    ensures minutes in {5, 10, 15}
    ensures StageIndex(status) == -1 ==> minutes == 15
  {
    StageIndexValues();
    if status == PREPARING then 10
    else if status == OUT_FOR_DELIVERY then 5
    else 15
  }

  /** Each stage before delivery shortens the estimate by five minutes. */
  lemma EtaShrinksPerStage(status: string)
    requires 0 <= StageIndex(status) < 3
    ensures EtaMinutes(status) == 15 - 5 * StageIndex(status)
  {
    StageIndexValues();
  }

  datatype Eta = AlreadyDelivered | ReadyAt(time: int)

  /** getEstimatedDelivery: "Delivered" for a delivered order, otherwise the order time
      plus the status's minutes: fifteen for a pending or unknown status, five fewer for
      each stage reached after that. */
  function EstimatedDelivery(orderTime: nat, status: string): (eta: Eta)
    ensures eta.AlreadyDelivered? <==> status == DELIVERED
    ensures eta.ReadyAt? ==> orderTime + 5 * MS_PER_MINUTE <= eta.time <= orderTime + 15 * MS_PER_MINUTE
    ensures eta.ReadyAt? ==>
      eta.time == orderTime + (if StageIndex(status) == -1 then 15 else 15 - 5 * StageIndex(status)) * MS_PER_MINUTE
  {
    StageIndexValues();
    if status == DELIVERED then AlreadyDelivered
    else ReadyAt(orderTime + EtaMinutes(status) * 60000)
  }

  /** Progress dot i is lit when the order's stage has reached it. */
  predicate StageActive(status: string, i: int) {
    StageIndex(status) >= i
  }

  /** Progress dot i is the current one when it names the order's status. */
  predicate StageCurrent(status: string, i: int)
    requires 0 <= i < |Stages|
  {
    status == Stages[i]
  }

  /** For a lifecycle status exactly one dot is current, the one at its own stage, and the
      lit dots are that one and every dot before it; for any other status no dot is lit or current. */
  lemma ProgressStages(status: string)
    ensures status in Stages ==> forall i :: 0 <= i < |Stages| ==> (StageCurrent(status, i) <==> i == StageIndex(status))
    ensures status in Stages ==> forall i :: 0 <= i < |Stages| ==> (StageActive(status, i) <==> i <= StageIndex(status))
    ensures status !in Stages ==> forall i :: 0 <= i < |Stages| ==> !StageActive(status, i) && !StageCurrent(status, i)
  {
    StageIndexValues();
  }

  class OrdersView {
    /** The orders on screen. */
    var orders: seq<Order>
    var user: Option<SessionUser>
    /** Time of the last change seen; None before the first one (the empty caption). */
    var lastUpdateTime: Option<nat>

    constructor ()
      ensures orders == [] && user == None && lastUpdateTime == None
    {
      orders := [];
      user := None;
      lastUpdateTime := None;
    }

    /** Opening the page: to `/login` without a user; otherwise the user is kept and the
        first load runs without a notice. */
    method Mount(store: LocalStorage, now: nat) returns (redirect: Option<string>)
      modifies this
      ensures store.user.None? ==>
        redirect == Some("/login") && user == old(user) && orders == old(orders) && lastUpdateTime == old(lastUpdateTime)
      ensures store.user.Some? ==>
        redirect == None && user == store.user && orders == UserOrders(store.StoredOrders(), store.user.value.email)
      ensures store.user.Some? ==>
        lastUpdateTime == (if orders != old(orders) then Some(now) else old(lastUpdateTime))
    {
      if store.user.None? {
        return Some("/login");
      }
      user := store.user;
      var _ := LoadOrders(store, false, now);
      redirect := None;
    }

    /** loadOrders: rereads the store; the shown list and the update time change only
        when the user's orders differ from what is shown. Returns whether the
        "Orders Updated" notice is raised. */
    method LoadOrders(store: LocalStorage, showToast: bool, now: nat) returns (notified: bool)
      modifies this`orders, this`lastUpdateTime
      ensures user.None? ==> !notified && orders == old(orders) && lastUpdateTime == old(lastUpdateTime)
      ensures user.Some? ==>
        var reread := UserOrders(store.StoredOrders(), user.value.email);
        && orders == reread
        && lastUpdateTime == (if reread != old(orders) then Some(now) else old(lastUpdateTime))
        && notified == NotifiesOnReload(old(orders), reread, showToast)
    {
      if user.None? {
        return false;
      }
      var sortedOrders := UserOrders(store.StoredOrders(), user.value.email);
      var ordersChanged := orders != sortedOrders;
      notified := false;
      if ordersChanged {
        notified := showToast && |orders| > 0;
        orders := sortedOrders;
        lastUpdateTime := Some(now);
      }
    }
  }

  /** Two polling ticks with no store change in between: the second reload changes
      nothing and raises no notice. */
  method PollTwice(view: OrdersView, store: LocalStorage, now1: nat, now2: nat)
    returns (first: bool, second: bool)
    modifies view`orders, view`lastUpdateTime
    ensures view.user.Some? ==> !second
    ensures view.lastUpdateTime == (if view.user.Some? && view.orders != old(view.orders) then Some(now1) else old(view.lastUpdateTime))
  {
    first := view.LoadOrders(store, true, now1);
    second := view.LoadOrders(store, true, now2);
  }
}
