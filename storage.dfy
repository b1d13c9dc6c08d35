/**
 * The browser's local key-value storage, with the value under each key the
 * pages use already decoded. `None` stands for an absent key. Every page
 * reads and rewrites these fields directly; there is no other shared state.
 */
module Storage {
  import opened Common
  import opened Domain

  class LocalStorage {
    /** Key `user`: the logged-in user, absent when logged out. */
    var user: Option<SessionUser>
    /** Key `orders`: every snack order of every user, in stored order. */
    var orders: Option<seq<Order>>
    /** Key `dynamicBookings`: each user's bookings, by e-mail. */
    var dynamicBookings: Option<map<string, seq<Ticket>>>

    constructor ()
      ensures user == None && orders == None && dynamicBookings == None
    {
      user := None;
      orders := None;
      dynamicBookings := None;
    }

    /** The stored orders as the pages read them: an absent key reads as the empty list. */
    function StoredOrders(): seq<Order>
      reads this
    {
      if orders.Some? then orders.value else []
    }
  }
}
