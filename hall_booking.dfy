/**
 * The movie booking page (src/pages/HallBooking.tsx): choose a cinema, browse
 * the five films in a wrap-around carousel, pick one of five showtimes and
 * pay, which stores a booking with a random hall, seat and advertisement
 * buffer under the current user. `now` is the page's clock reading and each
 * `Math.random()` draw is a parameter in [0, 1).
 */
module HallBooking {
  import opened Common
  import opened Domain
  import opened Storage
  import opened UserTickets

  datatype Cinema = Cinema(id: string, name: string, location: string)
  datatype Movie = Movie(id: string, title: string, poster: string, duration: string, genre: string)
  datatype Direction = Prev | Next

  const Cinemas: seq<Cinema> := [
    Cinema("gsc-pavilion", "GSC Pavilion KL", "Pavilion Kuala Lumpur"),
    Cinema("gsc-midvalley", "GSC Mid Valley", "Mid Valley Megamall")
  ]

  const Movies: seq<Movie> := [
    Movie("spiderman", "Spider-Man: No Way Home", "/placeholder.svg", "148 min", "Action, Adventure"),
    Movie("avatar", "Avatar: The Way of Water", "/placeholder.svg", "192 min", "Action, Adventure, Drama"),
    Movie("topgun", "Top Gun: Maverick", "/placeholder.svg", "130 min", "Action, Drama"),
    Movie("johnwick", "John Wick: Chapter 4", "/placeholder.svg", "169 min", "Action, Crime, Thriller"),
    Movie("batman", "The Batman", "/placeholder.svg", "176 min", "Action, Crime, Drama")
  ]

  /** The price of every booking, RM 25.00, in sen. */
  const TICKET_PRICE := 2500

  /** generateShowtimes: five showtimes, the first five minutes from now and each
      following one 45 minutes after the one before. */
  method GenerateShowtimes(now: nat) returns (showtimes: seq<nat>)
    ensures |showtimes| == 5
    ensures showtimes[0] == now + 5 * MS_PER_MINUTE
    ensures forall i :: 0 < i < |showtimes| ==> showtimes[i] == showtimes[i - 1] + 45 * MS_PER_MINUTE
  {
    showtimes := [];
    var startTime := now + 5 * 60 * 1000;
    for i := 0 to 5
      invariant |showtimes| == i
      invariant forall j :: 0 <= j < i ==> showtimes[j] == startTime + j * 45 * 60 * 1000
    {
      showtimes := showtimes + [startTime + i * 45 * 60 * 1000];
    }
  }

  /** The carousel index after one move: "prev" from the first film wraps to the last,
      "next" from the last wraps to the first, otherwise one step. Within range it is
      the step taken modulo the number of films. */
  function NavigatedIndex(index: int, direction: Direction): (newIndex: int)
    ensures 0 <= index < |Movies| ==> 0 <= newIndex < |Movies|
    ensures 0 <= index < |Movies| && direction == Prev ==> newIndex == (index - 1) % |Movies|
    ensures 0 <= index < |Movies| && direction == Next ==> newIndex == (index + 1) % |Movies|
  {
    match direction
    case Prev => if index > 0 then index - 1 else |Movies| - 1
    case Next => if index < |Movies| - 1 then index + 1 else 0
  }

  /** "next" then "prev", or "prev" then "next", comes back to the same film. */
  lemma NavigationUndo(index: int)
    requires 0 <= index < |Movies|
    ensures NavigatedIndex(NavigatedIndex(index, Next), Prev) == index
    ensures NavigatedIndex(NavigatedIndex(index, Prev), Next) == index
  {
  }

  /** k moves in one direction land k films further on, counted round the carousel;
      in particular a full turn of five moves comes back to the same film. */
  lemma FullTurn(index: int, direction: Direction, k: nat)
    requires 0 <= index < |Movies|
    ensures 0 <= Turned(index, direction, k) < |Movies|
    ensures Turned(index, direction, k) == (if direction == Next then index + k else index - k) % |Movies|
    ensures k == |Movies| ==> Turned(index, direction, k) == index
  {
    if direction == Next {
      TurnedNext(index, k);
    } else {
      TurnedPrev(index, k);
    }
  }

  lemma {:induction false} TurnedNext(index: int, k: nat)
    requires 0 <= index < |Movies|
    ensures Turned(index, Next, k) == (index + k) % |Movies|
  {
    if k > 0 {
      TurnedNext(index, k - 1);
      ShiftMod(index + (k - 1), 1);
    }
  }

  lemma {:induction false} TurnedPrev(index: int, k: nat)
    requires 0 <= index < |Movies|
    ensures Turned(index, Prev, k) == (index - k) % |Movies|
  {
    if k > 0 {
      TurnedPrev(index, k - 1);
      ShiftMod(index - (k - 1), -1);
    }
  }

  /** The index after k moves in one direction. */
  function Turned(index: int, direction: Direction, k: nat): int {
    if k == 0 then index else NavigatedIndex(Turned(index, direction, k - 1), direction)
  }

  lemma ShiftMod(x: int, step: int)
    ensures (x % |Movies| + step) % |Movies| == (x + step) % |Movies|
  {
  }

  /** Math.floor(r * 5) + 1: a hall from 1 to 5. */
  function HallDraw(r: real): (hall: int)
    requires 0.0 <= r < 1.0
    ensures 1 <= hall <= 5
  {
    (r * 5.0).Floor + 1
  }

  /** String.fromCharCode(65 + Math.floor(r * 5)): a seat row from 'A' to 'E'. */
  function RowDraw(r: real): (row: char)
    requires 0.0 <= r < 1.0
    ensures 'A' <= row <= 'E'
  {
    (65 + (r * 5.0).Floor) as char
  }

  /** Math.floor(r * 20) + 1: a seat number from 1 to 20. */
  function SeatNumberDraw(r: real): (seat: int)
    requires 0.0 <= r < 1.0
    ensures 1 <= seat <= 20
  {
    (r * 20.0).Floor + 1
  }

  /** Math.floor(r * 6) + 10: an advertisement buffer from 10 to 15 minutes. */
  function AdBufferDraw(r: real): (minutes: int)
    requires 0.0 <= r < 1.0
    ensures 10 <= minutes <= 15
  {
    (r * 6.0).Floor + 10
  }

  /** Every value of each range is drawn for some random number. */
  lemma DrawsCoverRanges(hall: int, row: int, seat: int, minutes: int)
    requires 1 <= hall <= 5 && 0 <= row < 5 && 1 <= seat <= 20 && 10 <= minutes <= 15
    ensures HallDraw((hall - 1) as real / 5.0) == hall
    ensures RowDraw(row as real / 5.0) == (65 + row) as char
    ensures SeatNumberDraw((seat - 1) as real / 20.0) == seat
    ensures AdBufferDraw((minutes - 10) as real / 6.0) == minutes
  {
  }

  /** The booking handlePayment builds: its id from one clock reading (`idClock`), its
      booking date from a second (`now`). */
  function NewBooking(cinema: Cinema, movie: Movie, showtime: nat, idClock: nat, now: nat,
                      hallDraw: real, rowDraw: real, seatDraw: real, adDraw: real): (b: Ticket)
    requires 0.0 <= hallDraw < 1.0 && 0.0 <= rowDraw < 1.0 && 0.0 <= seatDraw < 1.0 && 0.0 <= adDraw < 1.0
    ensures b.id == "booking-" + NatToString(idClock)
    ensures b.movieTitle == movie.title && b.scheduledTime == showtime && b.bookingDate == now
    ensures b.cinemaName == Some(cinema.name) && b.ticketPrice == TICKET_PRICE
    ensures |b.hallNumber| == 6 && b.hallNumber[..5] == "Hall "
    ensures AllDigits(b.hallNumber[5..]) && 1 <= DigitsValue(b.hallNumber[5..]) <= 5
    ensures |b.seatNumber| >= 2 && 'A' <= b.seatNumber[0] <= 'E'
    ensures AllDigits(b.seatNumber[1..]) && 1 <= DigitsValue(b.seatNumber[1..]) <= 20
    ensures 10 <= b.adBufferMinutes <= 15
  {
    var hall := HallDraw(hallDraw);
    var seat := SeatNumberDraw(seatDraw);
    NatToStringRoundTrip(hall);
    NatToStringRoundTrip(seat);
    var hallNumber := "Hall " + NatToString(hall);
    var seatNumber := [RowDraw(rowDraw)] + NatToString(seat);
    assert hallNumber[5..] == NatToString(hall);
    assert seatNumber[1..] == NatToString(seat);
    Ticket("booking-" + NatToString(idClock), movie.title, hallNumber, showtime, seatNumber,
           TICKET_PRICE, now, AdBufferDraw(adDraw), Some(cinema.name))
  }

  class BookingPage {
    var selectedCinema: Option<Cinema>
    var selectedMovie: Option<Movie>
    var currentMovieIndex: int
    var selectedShowtime: Option<nat>
    var isProcessingPayment: bool

    /** The carousel index stays on a film, and a selected film is the one it shows. */
    predicate Valid()
      reads this
    {
      && 0 <= currentMovieIndex < |Movies|
      && (selectedMovie.Some? ==> selectedMovie.value == Movies[currentMovieIndex])
    }

    constructor ()
      ensures Valid()
      ensures selectedCinema == None && selectedMovie == None && currentMovieIndex == 0
      ensures selectedShowtime == None && !isProcessingPayment
    {
      selectedCinema := None;
      selectedMovie := None;
      currentMovieIndex := 0;
      selectedShowtime := None;
      isProcessingPayment := false;
    }

    /** Opening the page sends a visitor who is not logged in to `/login`. */
    method Mount(store: LocalStorage) returns (redirect: Option<string>)
      ensures redirect.Some? <==> !IsUserLoggedIn(store)
      ensures redirect.Some? ==> redirect.value == "/login"
    {
      if !IsUserLoggedIn(store) {
        return Some("/login");
      }
      return None;
    }

    /** handleCinemaSelect: the cinema is chosen and the carousel starts over at the first
        film with no showtime picked. */
    method HandleCinemaSelect(cinema: Cinema)
      modifies this`selectedCinema, this`selectedMovie, this`currentMovieIndex, this`selectedShowtime
      ensures Valid()
      ensures selectedCinema == Some(cinema) && selectedMovie == Some(Movies[0])
      ensures currentMovieIndex == 0 && selectedShowtime == None
    {
      selectedCinema := Some(cinema);
      selectedMovie := Some(Movies[0]);
      currentMovieIndex := 0;
      selectedShowtime := None;
    }

    /** The "Change Cinema" button: back to the cinema choice, the rest kept. */
    method ChangeCinema()
      requires Valid()
      modifies this`selectedCinema
      ensures Valid() && selectedCinema == None
    {
      selectedCinema := None;
    }

    /** handleMovieNavigation: one carousel move; the film shown becomes the selected
        film and the showtime is cleared. */
    method HandleMovieNavigation(direction: Direction)
      requires Valid()
      modifies this`currentMovieIndex, this`selectedMovie, this`selectedShowtime
      ensures Valid()
      ensures currentMovieIndex == NavigatedIndex(old(currentMovieIndex), direction)
      ensures selectedMovie == Some(Movies[currentMovieIndex]) && selectedShowtime == None
    {
      var newIndex;
      if direction == Prev {
        newIndex := if currentMovieIndex > 0 then currentMovieIndex - 1 else |Movies| - 1;
      } else {
        newIndex := if currentMovieIndex < |Movies| - 1 then currentMovieIndex + 1 else 0;
      }
      currentMovieIndex := newIndex;
      selectedMovie := Some(Movies[newIndex]);
      selectedShowtime := None;
    }

    /** Clicking a showtime button picks it. */
    method SelectShowtime(showtime: nat)
      requires Valid()
      modifies this`selectedShowtime
      ensures Valid() && selectedShowtime == Some(showtime)
    {
      selectedShowtime := Some(showtime);
    }

    /** handlePayment: nothing happens unless cinema, film and showtime are all chosen;
        then, when a user is logged in, the new booking is appended to that user's
        bookings and the page moves to `/countdown`. */
    method HandlePayment(store: LocalStorage, idClock: nat, now: nat,
                         hallDraw: real, rowDraw: real, seatDraw: real, adDraw: real)
      returns (redirect: Option<string>)
      requires 0.0 <= hallDraw < 1.0 && 0.0 <= rowDraw < 1.0 && 0.0 <= seatDraw < 1.0 && 0.0 <= adDraw < 1.0
      modifies this`isProcessingPayment, store`dynamicBookings
      ensures selectedCinema.None? || selectedMovie.None? || selectedShowtime.None? ==>
        && redirect == None
        && store.dynamicBookings == old(store.dynamicBookings)
        && isProcessingPayment == old(isProcessingPayment)
      ensures selectedCinema.Some? && selectedMovie.Some? && selectedShowtime.Some? ==>
        !isProcessingPayment
      ensures selectedCinema.Some? && selectedMovie.Some? && selectedShowtime.Some? && store.user.None? ==>
        redirect == None && store.dynamicBookings == old(store.dynamicBookings)
      ensures selectedCinema.Some? && selectedMovie.Some? && selectedShowtime.Some? && store.user.Some? ==>
        var booking := NewBooking(selectedCinema.value, selectedMovie.value, selectedShowtime.value, idClock, now,
                                  hallDraw, rowDraw, seatDraw, adDraw);
        && redirect == Some("/countdown")
        && GetDynamicBookings(store, store.user.value.email) == old(GetDynamicBookings(store, store.user.value.email)) + [booking]
        && (forall e :: e != store.user.value.email ==> GetDynamicBookings(store, e) == old(GetDynamicBookings(store, e)))
    {
      redirect := None;
      if selectedCinema.None? || selectedMovie.None? || selectedShowtime.None? {
        return;
      }
      isProcessingPayment := true;
      var currentUser := GetCurrentUser(store);
      if currentUser.Some? {
        var newBooking := NewBooking(selectedCinema.value, selectedMovie.value, selectedShowtime.value, idClock, now,
                                     hallDraw, rowDraw, seatDraw, adDraw);
        SaveDynamicBooking(store, currentUser.value.email, newBooking);
        redirect := Some("/countdown");
      }
      isProcessingPayment := false;
    }
  }
}
