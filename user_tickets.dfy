/**
 * The per-user booking store (src/utils/userTickets.ts): under the key
 * `dynamicBookings`, a map from a user's e-mail to that user's bookings, with
 * reading, appending and deleting by id; and the two reads of the `user` key.
 */
module UserTickets {
  import opened Common
  import opened Domain
  import opened Storage

  type BookingMap = map<string, seq<Ticket>>

  /** A user's bookings in a stored booking map: none when the key is absent or the
      user has no entry. */
  function BookingsOf(all: Option<BookingMap>, email: string): seq<Ticket> {
    if all.Some? && email in all.value then all.value[email] else []
  }

  /** The map saveDynamicBooking writes: the user's list, created when missing, gains the
      booking at its end, and every other user's list is as it was. */
  function WithBooking(all: Option<BookingMap>, email: string, booking: Ticket): (m: BookingMap)
    ensures BookingsOf(Some(m), email) == BookingsOf(all, email) + [booking]
    ensures forall e :: e != email ==> BookingsOf(Some(m), e) == BookingsOf(all, e)
    ensures all.Some? ==> m.Keys == all.value.Keys + {email}
  {
    var existing := if all.Some? then all.value else map[];
    existing[email := BookingsOf(all, email) + [booking]]
  }

  /** The bookings of a list whose id differs, in their order (the delete's `filter`). */
  function WithoutId(bookings: seq<Ticket>, id: string): (r: seq<Ticket>)
    ensures forall i :: 0 <= i < |r| ==> r[i].id != id
  {
    if bookings == [] then []
    else
      var rest := WithoutId(bookings[1..], id);
      if bookings[0].id != id then [bookings[0]] + rest else rest
  }

  /** Deleting by id removes every booking with that id and keeps each other booking
      as often as it was there. */
  lemma {:induction false} WithoutIdMultiplicity(bookings: seq<Ticket>, id: string)
    ensures forall x :: multiset(WithoutId(bookings, id))[x] == if x.id == id then 0 else multiset(bookings)[x]
  {
    if bookings == [] {
      assert WithoutId(bookings, id) == [];
    } else {
      WithoutIdMultiplicity(bookings[1..], id);
      assert bookings == [bookings[0]] + bookings[1..];
      assert multiset(bookings) == multiset{bookings[0]} + multiset(bookings[1..]);
    }
  }

  /** Deleting from a list in two parts deletes from each part and keeps them in order,
      so the bookings that stay keep their relative order. */
  lemma {:induction false} WithoutIdKeepsOrder(a: seq<Ticket>, b: seq<Ticket>, id: string)
    ensures WithoutId(a + b, id) == WithoutId(a, id) + WithoutId(b, id)
  {
    if a == [] {
      assert a + b == b;
    } else {
      assert (a + b)[0] == a[0];
      assert (a + b)[1..] == a[1..] + b;
      WithoutIdKeepsOrder(a[1..], b, id);
    }
  }

  /** Deleting an id no booking carries keeps the list as it is. */
  lemma {:induction false} WithoutAbsentId(bookings: seq<Ticket>, id: string)
    requires forall i :: 0 <= i < |bookings| ==> bookings[i].id != id
    ensures WithoutId(bookings, id) == bookings
  {
    if bookings != [] {
      WithoutAbsentId(bookings[1..], id);
      assert bookings == [bookings[0]] + bookings[1..];
    }
  }

  /** The stored value after deleteDynamicBooking: unchanged (nothing is written) when
      the key is absent or the user has no entry; otherwise the user's list loses the
      bookings with that id, and every other user's list is as it was. */
  function WithoutBooking(all: Option<BookingMap>, email: string, id: string): (r: Option<BookingMap>)
    ensures all.None? || email !in all.value ==> r == all
    ensures BookingsOf(r, email) == WithoutId(BookingsOf(all, email), id)
    ensures forall e :: e != email ==> BookingsOf(r, e) == BookingsOf(all, e)
  {
    if all.None? then all
    else if email !in all.value then all
    else Some(all.value[email := WithoutId(all.value[email], id)])
  }

  /** getDynamicBookings: the user's stored bookings, none when there are none. */
  function GetDynamicBookings(store: LocalStorage, email: string): (r: seq<Ticket>)
    reads store
    ensures store.dynamicBookings.None? ==> r == []
    ensures store.dynamicBookings.Some? && email !in store.dynamicBookings.value ==> r == []
  {
    BookingsOf(store.dynamicBookings, email)
  }

  /** getUserTickets: a user's tickets are exactly the user's dynamic bookings. */
  function GetUserTickets(store: LocalStorage, email: string): (r: seq<Ticket>)
    reads store
    ensures r == GetDynamicBookings(store, email)
  {
    GetDynamicBookings(store, email)
  }

  /** isUserLoggedIn: someone is logged in exactly when the `user` key is present. */
  function IsUserLoggedIn(store: LocalStorage): (loggedIn: bool)
    reads store
    ensures loggedIn <==> store.user != None
  {
    store.user.Some?
  }

  /** getCurrentUser: the stored user, none exactly when nobody is logged in. */
  function GetCurrentUser(store: LocalStorage): (u: Option<SessionUser>)
    reads store
    ensures u.None? <==> !IsUserLoggedIn(store)
  {
    store.user
  }

  /** saveDynamicBooking: appends the booking to the user's list and leaves every other
      user's list as it was. */
  method SaveDynamicBooking(store: LocalStorage, email: string, booking: Ticket)
    modifies store`dynamicBookings
    ensures store.dynamicBookings == Some(WithBooking(old(store.dynamicBookings), email, booking))
    ensures GetDynamicBookings(store, email) == old(GetDynamicBookings(store, email)) + [booking]
    ensures forall e :: e != email ==> GetDynamicBookings(store, e) == old(GetDynamicBookings(store, e))
  {
    var allBookings := if store.dynamicBookings.Some? then store.dynamicBookings.value else map[];
    var userBookings := if email in allBookings then allBookings[email] else [];
    assert userBookings == BookingsOf(store.dynamicBookings, email);
    allBookings := allBookings[email := userBookings + [booking]];
    store.dynamicBookings := Some(allBookings);
  }

  /** deleteDynamicBooking: removes the user's bookings with that id; writes nothing when
      the key is absent or the user has no entry. */
  method DeleteDynamicBooking(store: LocalStorage, email: string, bookingId: string)
    modifies store`dynamicBookings
    ensures store.dynamicBookings == WithoutBooking(old(store.dynamicBookings), email, bookingId)
    ensures GetDynamicBookings(store, email) == WithoutId(old(GetDynamicBookings(store, email)), bookingId)
    ensures forall e :: e != email ==> GetDynamicBookings(store, e) == old(GetDynamicBookings(store, e))
  {
    if store.dynamicBookings.None? {
      return;
    }
    var allBookings := store.dynamicBookings.value;
    if email in allBookings {
      allBookings := allBookings[email := WithoutId(allBookings[email], bookingId)];
      store.dynamicBookings := Some(allBookings);
    }
  }
}
