/**
 * The records the pages keep in local storage: snack orders with their line
 * items, movie bookings, and the logged-in user; the order lifecycle's stage
 * list; and the newest-first ordering both order views apply.
 *
 * Times are integer milliseconds, prices integer sen (1/100 ringgit).
 */
module Domain {
  import opened Common

  // Order status values, as the pages store and compare them.
  const PENDING: string := "pending"
  const PREPARING: string := "preparing"
  const OUT_FOR_DELIVERY: string := "out_for_delivery"
  const DELIVERED: string := "delivered"

  /** The lifecycle in its fixed order; the customer view's progress bar walks it. */
  const Stages: seq<string> := [PENDING, PREPARING, OUT_FOR_DELIVERY, DELIVERED]

  /** A cart line, and a line of a placed order: the menu item's fields plus a quantity. */
  datatype LineItem = LineItem(
    id: string,
    name: string,
    description: string,
    price: int,
    category: string,
    quantity: int)

  datatype Order = Order(
    id: string,
    userId: Option<string>,
    hallNumber: string,
    seatNumber: string,
    items: seq<LineItem>,
    totalAmount: int,
    status: string,
    orderTime: nat,
    deliveryTime: Option<nat>,
    specialInstructions: string)

  /** A movie booking (the `UserTicket` record). */
  datatype Ticket = Ticket(
    id: string,
    movieTitle: string,
    hallNumber: string,
    scheduledTime: nat,
    seatNumber: string,
    ticketPrice: int,
    bookingDate: nat,
    adBufferMinutes: int,
    cinemaName: Option<string>)

  /** The value stored under the `user` key. */
  datatype SessionUser = SessionUser(email: string, role: string, name: string)

  /** Position of the first occurrence of x in xs, or -1 (JavaScript's `indexOf`). */
  function IndexOf(xs: seq<string>, x: string): (k: int)
    ensures -1 <= k < |xs|
    ensures k >= 0 ==> xs[k] == x && forall j :: 0 <= j < k ==> xs[j] != x
    ensures k == -1 <==> x !in xs
  {
    if xs == [] then -1
    else if xs[0] == x then 0
    else var k := IndexOf(xs[1..], x); if k == -1 then -1 else k + 1
  }

  /** Position of a status in the lifecycle, -1 for a status outside it. */
  function StageIndex(status: string): int {
    IndexOf(Stages, status)
  }

  /** Each known status sits at its own position of the lifecycle. */
  lemma StageIndexValues()
    ensures StageIndex(PENDING) == 0 && StageIndex(PREPARING) == 1
    ensures StageIndex(OUT_FOR_DELIVERY) == 2 && StageIndex(DELIVERED) == 3
  {
  }

  /** The lifecycle invariant: a delivery time is present exactly for delivered orders. */
  predicate DeliveryConsistent(o: Order) {
    o.deliveryTime.Some? <==> o.status == DELIVERED
  }

  /** Ordered by `orderTime`, newest first. */
  predicate NewestFirst(s: seq<Order>) {
    forall i, j :: 0 <= i < j < |s| ==> s[i].orderTime >= s[j].orderTime
  }

  /** Inserts o before the first element that is not newer than it. */
  function InsertNewestFirst(o: Order, s: seq<Order>): (r: seq<Order>)
    ensures multiset(r) == multiset(s) + multiset{o}
  {
    if s == [] || s[0].orderTime <= o.orderTime then [o] + s
    else
      assert s == [s[0]] + s[1..];
      [s[0]] + InsertNewestFirst(o, s[1..])
  }

  /** Inserting into a newest-first list keeps it newest first. */
  lemma {:induction false} InsertKeepsNewestFirst(o: Order, s: seq<Order>)
    requires NewestFirst(s)
    ensures NewestFirst(InsertNewestFirst(o, s))
  {
    var r := InsertNewestFirst(o, s);
    if s == [] || s[0].orderTime <= o.orderTime {
      assert r == [o] + s;
      forall i, j | 0 <= i < j < |r| ensures r[i].orderTime >= r[j].orderTime {
        if i > 0 { assert r[i] == s[i - 1] && r[j] == s[j - 1]; }
        else { assert r[j] == s[j - 1]; assert s[0].orderTime >= s[j - 1].orderTime; }
      }
    } else {
      var rest := InsertNewestFirst(o, s[1..]);
      assert r == [s[0]] + rest;
      assert NewestFirst(s[1..]);
      InsertKeepsNewestFirst(o, s[1..]);
      forall i, j | 0 <= i < j < |r| ensures r[i].orderTime >= r[j].orderTime {
        if i > 0 {
          assert r[i] == rest[i - 1] && r[j] == rest[j - 1];
        } else {
          var x := r[j];
          assert x == rest[j - 1];
          assert x in multiset(rest);
          assert x == o || x in multiset(s[1..]);
          if x != o {
            var k :| 0 <= k < |s[1..]| && s[1..][k] == x;
            assert s[k + 1] == x;
          }
        }
      }
    }
  }

  /** The stable sort that `Array.prototype.sort` performs with the comparator
      `b.orderTime - a.orderTime`: newest first, ties in their stored order. */
  function SortNewestFirst(s: seq<Order>): (r: seq<Order>)
    ensures NewestFirst(r)
    ensures multiset(r) == multiset(s)
  {
    if s == [] then []
    else
      assert s == [s[0]] + s[1..];
      var rest := SortNewestFirst(s[1..]);
      InsertKeepsNewestFirst(s[0], rest);
      InsertNewestFirst(s[0], rest)
  }

  /** Sorting a list that is already newest first leaves it as it is. */
  lemma {:induction false} SortKeepsSorted(s: seq<Order>)
    requires NewestFirst(s)
    ensures SortNewestFirst(s) == s
  {
    if s != [] {
      assert NewestFirst(s[1..]);
      SortKeepsSorted(s[1..]);
      assert s == [s[0]] + s[1..];
    }
  }
}
