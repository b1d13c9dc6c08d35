# Cinema snack and booking front-end: a Dafny model

This project models the logic of a cinema web front-end. The front-end has five parts:

- Customers order snacks to their seat from an in-hall menu.
- Customers follow an order through four stages: `pending`, `preparing`, `out_for_delivery` and `delivered`.
- Staff advance orders on a dashboard.
- Customers book a film showtime.
- A countdown shows when a session really starts, which is after its advertisement buffer.

All state lives in the browser's local storage under three keys: `user`, `orders` and `dynamicBookings`. The model has one module per page or utility file:

| file | module | models |
|---|---|---|
| common.dfy | `Common` | `Option`, the decimal text of a number (`toString`) and its reading back, ASCII `toUpperCase`, the millisecond units |
| domain.dfy | `Domain` | the order, line item, ticket and session-user records; the status lifecycle; `indexOf`; the newest-first stable sort |
| storage.dfy | `Storage` | local storage as a class with one field per key, `None` for an absent key |
| staff_dashboard.dfy | `StaffDashboard` | next status and its caption, the status update of the stored list, the tab filter and counts, the staff/admin gate |
| hall_menu.dfy | `HallMenu` | the cart's add and remove, item count and total, order placement |
| orders_page.dfy | `OrdersPage` | the user's orders newest first, reload with change detection and the update notice, captions, ETA, progress dots |
| user_tickets.dfy | `UserTickets` | the per-user booking map: read, append, delete by id; the login reads |
| countdown.dfy | `Countdown` | actual start, the h/m/s split, caption and colour thresholds |
| hall_booking.dfy | `HallBooking` | showtime generation, the wrap-around film carousel, the cinema reset, the payment guard and the booking built from random draws |
| login.dfy | `Login` | demo-account lookup, display name, redirect, no write on failure |

Modelling conventions:

- Times are integer milliseconds.
- Prices are integer sen: RM 8.90 is 890.
- Each clock reading (`Date.now()`, `new Date()`) is a parameter. A handler that reads the clock twice gets two parameters: `idClock` for the id and `now` for the stored time. The model does not assume they are equal.
- Each `Math.random()` draw is a `real` parameter in [0, 1).
- Stored values are already decoded. The `JSON.stringify` comparison on the orders page is structural equality.
- Page components whose handlers update React state are classes. Their fields are the state variables, and their methods are the handlers.
- A navigation is returned as `Some(path)`, and staying on the page as `None`.

## Model

| member | source | states |
|---|---|---|
| Common.NatToString | src/pages/HallMenu.tsx:133 | `toString` of a time gives a non-empty string of decimal digits with no leading zero: one digit exactly for numbers under 10, and a first digit `0` only for 0 itself |
| Common.NatToStringRoundTrip | src/pages/HallMenu.tsx:133 | the decimal text an id or label is built from reads back to the number it came from |
| Common.UpperAscii | src/pages/HallMenu.tsx:231 | upper-casing keeps the length and upper-cases each character in its own place: a lower-case ASCII letter becomes its capital, every other character is kept, and no lower-case ASCII letter is left |
| Common.UpperAsciiIdempotent | src/pages/HallMenu.tsx:231 | upper-casing an already upper-cased seat changes nothing |
| Domain.IndexOf | src/pages/Orders.tsx:336-342 | `indexOf` gives the first position holding the value, and -1 exactly when the value is absent |
| Domain.StageIndexValues | src/pages/Orders.tsx:330-342 | pending, preparing, out_for_delivery and delivered sit at stages 0, 1, 2 and 3 |
| Domain.InsertNewestFirst | src/pages/StaffDashboard.tsx:58 | one insertion step of the sort adds exactly the inserted order to the list's contents |
| Domain.InsertKeepsNewestFirst | src/pages/StaffDashboard.tsx:58 | inserting into a newest-first list keeps it newest first |
| Domain.SortNewestFirst | src/pages/StaffDashboard.tsx:58 | the sorted list is newest `orderTime` first and a permutation of its input |
| Domain.SortKeepsSorted | src/pages/StaffDashboard.tsx:58 | the newest-first sort leaves a list that is already newest first exactly as it is, as a stable sort with this comparator does |
| StaffDashboard.NextStatus | src/pages/StaffDashboard.tsx:104-111 | there is a next status exactly for the first three lifecycle stages, and it is the following stage |
| StaffDashboard.NextStatusText | src/pages/StaffDashboard.tsx:113-120 | the advance caption exists exactly when a next status exists |
| StaffDashboard.AdvanceSteps | src/pages/StaffDashboard.tsx:104-111 | k advances from a lifecycle status succeed iff they stay within the four stages, and each one moves exactly one stage |
| StaffDashboard.PendingDeliveredInThree | src/pages/StaffDashboard.tsx:104-111 | a pending order is delivered after exactly three advances, and a fourth is refused |
| StaffDashboard.UpdateStatusIn | src/pages/StaffDashboard.tsx:61-72 | the updated list keeps its length and ids; other orders are unchanged; a matching order changes only its status, and its delivery time is stamped iff the new status is delivered |
| StaffDashboard.UpdateUnknownIdIsNoop | src/pages/StaffDashboard.tsx:63-74 | updating an id that is not stored leaves the list unchanged |
| StaffDashboard.AdvanceKeepsDeliveryConsistent | src/pages/StaffDashboard.tsx:65-68 | advancing by the state machine keeps "delivery time present iff delivered" for every order |
| StaffDashboard.StaleAdvanceRegresses | src/pages/StaffDashboard.tsx:61-72 | the update writes the status it is given: a delivered order updated to `out_for_delivery` from a stale card goes back a stage and keeps its delivery time, so "delivery time present iff delivered" no longer holds |
| StaffDashboard.FilteredOrders | src/pages/StaffDashboard.tsx:132-135 | every visible order matches the tab, and the `all` tab shows the whole list |
| StaffDashboard.FilterMultiplicity | src/pages/StaffDashboard.tsx:132-135 | each matching order is shown as often as it is stored, and no other order is shown |
| StaffDashboard.FilterKeepsRelativeOrder | src/pages/StaffDashboard.tsx:132-135 | filtering distributes over concatenation, so shown orders keep their relative order |
| StaffDashboard.CountOrders | src/pages/StaffDashboard.tsx:137-143 | the `all` count is the size of the `all` tab |
| StaffDashboard.CountsPartitionAll | src/pages/StaffDashboard.tsx:137-143 | when every status is a lifecycle status, the four status counts add up to the `all` count |
| StaffDashboard.IsStaffRole | src/pages/StaffDashboard.tsx:44 | the dashboard admits exactly the `staff` and `admin` roles |
| StaffDashboard.Dashboard.constructor | src/pages/StaffDashboard.tsx:29-31 | the view starts with no orders, no user and the `all` tab |
| StaffDashboard.Dashboard.Mount | src/pages/StaffDashboard.tsx:35-49 | no user goes to `/login`, and a role other than staff or admin goes to `/hall-menu` with nothing loaded; otherwise the orders are loaded |
| StaffDashboard.Dashboard.LoadOrders | src/pages/StaffDashboard.tsx:56-59 | the view shows every stored order, newest first, as a permutation of the store |
| StaffDashboard.Dashboard.UpdateOrderStatus | src/pages/StaffDashboard.tsx:61-75 | the store gets the updated list in stored order, and the view shows it newest first |
| StaffDashboard.Dashboard.Advance | src/pages/StaffDashboard.tsx:258-266 | the button updates an order to its next status, and does nothing when there is none |
| StaffDashboard.Dashboard.SetFilter | src/pages/StaffDashboard.tsx:186 | a tab click selects that tab |
| StaffDashboard.Dashboard.Visible | src/pages/StaffDashboard.tsx:132-135 | the `all` tab shows every order on screen; any other tab shows each order with that status as often as it is on screen, and no other order |
| StaffDashboard.Dashboard.Counts | src/pages/StaffDashboard.tsx:137-143 | the `all` badge counts every order on screen, and the badge of the selected status tab equals the number of orders that tab shows |
| HallMenu.FindLine | src/pages/HallMenu.tsx:73 | `find` gives the first line with the id, and -1 exactly when no line has it |
| HallMenu.ShiftQuantity | src/pages/HallMenu.tsx:75-79 | the `map` moves the quantity of each line with the id by delta and copies every other line |
| HallMenu.DropLines | src/pages/HallMenu.tsx:100 | the `filter` keeps only lines of the cart whose id differs |
| HallMenu.DropLinesMultiplicity | src/pages/HallMenu.tsx:100 | the `filter` keeps each line whose id differs exactly as often as the cart holds it, and no line with the id |
| HallMenu.AddLine | src/pages/HallMenu.tsx:71-82 | adding keeps the cart well formed: unique ids, quantities at least 1 |
| HallMenu.RemoveLine | src/pages/HallMenu.tsx:90-101 | removing keeps the cart well formed |
| HallMenu.DropKeepsWellFormed | src/pages/HallMenu.tsx:100 | dropping lines keeps unique ids and positive quantities |
| HallMenu.DropAbsent | src/pages/HallMenu.tsx:100 | dropping an id that no line has changes nothing |
| HallMenu.DropOnly | src/pages/HallMenu.tsx:100 | when exactly one line has the id, the `filter` removes that line and keeps the others in order |
| HallMenu.DropUnique | src/pages/HallMenu.tsx:100 | dropping the single line with the id removes exactly that line and keeps the others in order |
| HallMenu.AddToCartEffect | src/pages/HallMenu.tsx:73-81 | an item in the cart gains exactly one unit on its line with everything else unchanged; a new item is appended with quantity 1 |
| HallMenu.RemoveFromCartEffect | src/pages/HallMenu.tsx:92-100 | a line of several units loses one, a line of one unit goes, an absent id changes nothing; other lines are untouched |
| HallMenu.AddThenRemoveRestoresCart | src/pages/HallMenu.tsx:71-101 | removing the item just added restores the cart |
| HallMenu.CartItemCountAtLeastLines | src/pages/HallMenu.tsx:108-110 | with every quantity at least 1, the item count is at least the number of lines, so a non-empty cart never shows a zero count |
| HallMenu.CartTotalNonNegative | src/pages/HallMenu.tsx:104-106 | with non-negative prices and positive quantities the total is never negative |
| HallMenu.LineTotalShift | src/pages/HallMenu.tsx:105 | moving a line's quantity by delta moves its price times quantity by delta times its price |
| HallMenu.ShiftBack | src/pages/HallMenu.tsx:75-79 | moving the quantities of an id up by delta and back down by delta gives the cart back |
| HallMenu.CountShiftPerLine | src/pages/HallMenu.tsx:108-110 | moving the quantity of every line with the id by delta moves the item count by delta per such line |
| HallMenu.TotalShiftPerLine | src/pages/HallMenu.tsx:104-106 | moving the quantity of every line with the id by delta moves the total by delta times each such line's price |
| HallMenu.CountDropPerLine | src/pages/HallMenu.tsx:108-110 | dropping every line with the id takes exactly their units off the item count |
| HallMenu.TotalDropPerLine | src/pages/HallMenu.tsx:104-106 | dropping every line with the id takes exactly their price times quantity off the total |
| HallMenu.CountAfterShift | src/pages/HallMenu.tsx:108-110 | moving one line's quantity by delta moves the item count by delta |
| HallMenu.TotalAfterShift | src/pages/HallMenu.tsx:104-106 | moving one line's quantity by delta moves the total by delta times that line's price |
| HallMenu.CountAfterDrop | src/pages/HallMenu.tsx:108-110 | dropping the line of an id takes its units off the item count |
| HallMenu.TotalAfterDrop | src/pages/HallMenu.tsx:104-106 | dropping the line of an id takes its price times quantity off the total |
| HallMenu.SumsAfterAdd | src/pages/HallMenu.tsx:104-110 | adding an item adds one to the count and one unit price to the total |
| HallMenu.SumsAfterRemove | src/pages/HallMenu.tsx:104-110 | removing an item in the cart takes one off the count and one unit price off the total, so add-then-remove restores both |
| HallMenu.NewOrder | src/pages/HallMenu.tsx:132-142 | the placed order has a non-empty all-digit id from the `Date.now()` reading, the user's e-mail exactly when someone is logged in, the chosen hall and seat, the cart's lines and their total, status `pending` with the `new Date()` reading as its time, and no delivery time, so it starts consistent; the id reads back to the `Date.now()` reading, so orders whose ids were read at different times have different ids |
| HallMenu.MenuPage.constructor | src/pages/HallMenu.tsx:28-31 | the page starts with no hall, no seat, an empty cart and no user |
| HallMenu.MenuPage.Mount | src/pages/HallMenu.tsx:62-69 | no user goes to `/login`; otherwise the user is kept |
| HallMenu.MenuPage.SelectHall | src/pages/HallMenu.tsx:216 | the chosen hall is kept |
| HallMenu.MenuPage.SetSeat | src/pages/HallMenu.tsx:231 | the typed seat is kept upper-cased |
| HallMenu.MenuPage.AddToCart | src/pages/HallMenu.tsx:71-88 | the cart becomes the added cart, stays well formed and counts one more unit |
| HallMenu.MenuPage.RemoveFromCart | src/pages/HallMenu.tsx:90-102 | the cart becomes the reduced cart and stays well formed; an absent id changes nothing |
| HallMenu.MenuPage.PlaceOrder | src/pages/HallMenu.tsx:112-159 | an order is placed exactly when a hall, a seat and a non-empty cart are present; a missing hall or seat, or an empty cart, is refused and changes neither cart nor store; otherwise the stored orders gain exactly one order at the end, which is pending, holds the cart and its total and carries the user's e-mail, and the cart is emptied; the page goes to `/orders` exactly when an order was placed |
| OrdersPage.ForUser | src/pages/Orders.tsx:46-48 | every kept order belongs to the user |
| OrdersPage.ForUserMultiplicity | src/pages/Orders.tsx:46-48 | each of the user's orders is kept as often as it is stored, and no other order is kept |
| OrdersPage.UserOrders | src/pages/Orders.tsx:45-52 | the shown list is newest first and a permutation of the user's stored orders |
| OrdersPage.UserOrdersCorrect | src/pages/Orders.tsx:45-52 | the shown list is newest first, holds only the user's orders and omits none of them |
| OrdersPage.NotifiesOnReload | src/pages/Orders.tsx:53-66 | no notice when the reread list equals the one shown, when no notice was asked for, or when the list shown before was empty |
| OrdersPage.StatusText | src/pages/Orders.tsx:137-150 | the caption is "Unknown" exactly for a status outside the lifecycle |
| OrdersPage.EtaMinutes | src/pages/Orders.tsx:152-168 | the offset is 5, 10 or 15 minutes, and 15 for an unknown status |
| OrdersPage.EtaShrinksPerStage | src/pages/Orders.tsx:156-165 | for the first three stages the offset is 15 minus 5 per stage |
| OrdersPage.EstimatedDelivery | src/pages/Orders.tsx:152-172 | "Delivered" exactly for delivered orders; otherwise the order time plus 15 minutes for a pending or unknown status and 5 minutes less for each stage reached after pending, so 5 to 15 minutes after the order |
| OrdersPage.ProgressStages | src/pages/Orders.tsx:330-343 | for a lifecycle status, dot i is lit iff i is at most its stage and exactly its own dot is current; for any other status no dot is lit or current |
| OrdersPage.OrdersView.constructor | src/pages/Orders.tsx:34-37 | the page starts with no orders, no user and no update time |
| OrdersPage.OrdersView.Mount | src/pages/Orders.tsx:77-91 | no user goes to `/login`; otherwise the user is kept, the user's orders are shown newest first, and the update time becomes now exactly when the shown list changed |
| OrdersPage.OrdersView.LoadOrders | src/pages/Orders.tsx:42-68 | no user: nothing changes. Otherwise the shown list becomes the user's orders newest first. The update time moves only when that list differs. The notice fires iff it differs, a notice was asked for and the old list was not empty |
| OrdersPage.PollTwice | src/pages/Orders.tsx:93-96 | a second poll with no store change in between raises no notice |
| UserTickets.WithBooking | src/utils/userTickets.ts:74-84 | the saved map gives the user the previous list followed by the booking, and every other user the same list |
| UserTickets.WithoutId | src/utils/userTickets.ts:92 | no kept booking has the deleted id |
| UserTickets.WithoutIdMultiplicity | src/utils/userTickets.ts:92 | bookings with the id are all removed, and every other booking is kept as often as it was there |
| UserTickets.WithoutIdKeepsOrder | src/utils/userTickets.ts:92 | deleting distributes over concatenation, so the kept bookings keep their order |
| UserTickets.WithoutAbsentId | src/utils/userTickets.ts:92 | deleting an id no booking has keeps the list |
| UserTickets.WithoutBooking | src/utils/userTickets.ts:86-95 | with the key or the user's entry absent nothing is written; otherwise the user's list loses the id and other users' lists are unchanged |
| UserTickets.GetDynamicBookings | src/utils/userTickets.ts:59-72 | the empty list when the key is absent or the user has no entry |
| UserTickets.GetUserTickets | src/utils/userTickets.ts:97-101 | a user's tickets are the user's dynamic bookings |
| UserTickets.IsUserLoggedIn | src/utils/userTickets.ts:103-105 | someone is logged in exactly when the `user` key is present |
| UserTickets.GetCurrentUser | src/utils/userTickets.ts:103-110 | there is no current user exactly when the user is not logged in |
| UserTickets.SaveDynamicBooking | src/utils/userTickets.ts:74-84 | afterwards the user's bookings are the previous ones followed by the new one, and every other user's are unchanged |
| UserTickets.DeleteDynamicBooking | src/utils/userTickets.ts:86-95 | afterwards the user's bookings are the previous ones without the id, and every other user's are unchanged |
| Countdown.ActualStartTime | src/pages/Countdown.tsx:54-56 | the actual start is the scheduled time plus the buffer minutes times 60000 ms |
| Countdown.Decompose | src/pages/Countdown.tsx:66-68 | the three floor divisions give hours, minutes under 60 and seconds under 60 that together fall short of the remaining time by less than a second |
| Countdown.TimeUntilStart | src/pages/Countdown.tsx:58-71 | started, with 0/0/0, exactly when no time is left; otherwise h/m/s with m, s under 60 and h·3600000 + m·60000 + s·1000 ≤ remaining ms < that + 1000 |
| Countdown.StatusColor | src/pages/Countdown.tsx:77-83 | one of green, red, yellow and blue, and green exactly once the actual start has been reached |
| Countdown.StatusText | src/pages/Countdown.tsx:85-91 | one of the four captions, and "Movie Started" exactly once the actual start has been reached |
| Countdown.StatusTextByTimeLeft | src/pages/Countdown.tsx:85-91 | the caption by remaining ms: started at or below 0, "Starting Soon!" under 5 minutes, "Ads Playing" under 15, else "Scheduled" |
| Countdown.ColorMatchesText | src/pages/Countdown.tsx:77-91 | two readings share a colour exactly when they share a caption |
| Countdown.ColorOfText | src/pages/Countdown.tsx:77-91 | each caption has its own colour: green, red, yellow, blue |
| Countdown.StatusNeverGoesBack | src/pages/Countdown.tsx:85-91 | as the clock advances the caption only moves towards "Movie Started" |
| HallBooking.GenerateShowtimes | src/pages/HallBooking.tsx:98-111 | five showtimes; the first is 5 minutes from now, and each next one is 45 minutes later |
| HallBooking.NavigatedIndex | src/pages/HallBooking.tsx:120-129 | an in-range index stays in range and moves by one step modulo five, so prev from 0 wraps to 4 and next from 4 wraps to 0 |
| HallBooking.NavigationUndo | src/pages/HallBooking.tsx:120-129 | next then prev, or prev then next, returns to the same film |
| HallBooking.FullTurn | src/pages/HallBooking.tsx:120-129 | k moves in one direction advance k places modulo five, and five moves return to the start |
| HallBooking.TurnedNext | src/pages/HallBooking.tsx:120-129 | k "next" moves from an in-range index land k places further on, modulo five |
| HallBooking.TurnedPrev | src/pages/HallBooking.tsx:120-129 | k "prev" moves from an in-range index land k places back, modulo five |
| HallBooking.HallDraw | src/pages/HallBooking.tsx:146 | the hall is 1 to 5 |
| HallBooking.RowDraw | src/pages/HallBooking.tsx:148 | the seat row is 'A' to 'E' |
| HallBooking.SeatNumberDraw | src/pages/HallBooking.tsx:148 | the seat number is 1 to 20 |
| HallBooking.AdBufferDraw | src/pages/HallBooking.tsx:151 | the advertisement buffer is 10 to 15 minutes |
| HallBooking.DrawsCoverRanges | src/pages/HallBooking.tsx:146-151 | every hall, row, seat number and buffer in range is drawn for some random number |
| HallBooking.NewBooking | src/pages/HallBooking.tsx:143-153 | id "booking-" plus the `Date.now()` reading, booking date the `new Date()` reading, the film's title, the chosen showtime, RM 25.00, the cinema's name, hall "Hall 1" to "Hall 5", seat row 'A' to 'E' with number 1 to 20, buffer 10 to 15 minutes |
| HallBooking.BookingPage.constructor | src/pages/HallBooking.tsx:27-31 | the page starts with nothing chosen, on the first film, not paying |
| HallBooking.BookingPage.Mount | src/pages/HallBooking.tsx:35-45 | a visitor who is not logged in is sent to `/login` |
| HallBooking.BookingPage.HandleCinemaSelect | src/pages/HallBooking.tsx:113-118 | the cinema is set, the carousel resets to the first film, and the showtime is cleared |
| HallBooking.BookingPage.ChangeCinema | src/pages/HallBooking.tsx:235 | back to the cinema choice |
| HallBooking.BookingPage.HandleMovieNavigation | src/pages/HallBooking.tsx:120-131 | the index moves as NavigatedIndex says, the film shown becomes the selected film, and the showtime is cleared |
| HallBooking.BookingPage.SelectShowtime | src/pages/HallBooking.tsx:310 | the clicked showtime is selected |
| HallBooking.BookingPage.HandlePayment | src/pages/HallBooking.tsx:133-166 | with cinema, film or showtime missing nothing happens; otherwise a logged-in user's bookings gain the new booking at the end, other users' are unchanged, and the page goes to `/countdown`; processing ends false |
| Login.FindAccount | src/pages/Login.tsx:31 | the first account matching both e-mail and password, and none exactly when no account matches |
| Login.DisplayName | src/pages/Login.tsx:38 | the role with its first letter upper-cased, then " User" |
| Login.SessionFor | src/pages/Login.tsx:35-39 | the stored user has the account's e-mail and role, and its display name |
| Login.DemoDisplayNames | src/pages/Login.tsx:18-22 | the demo names are "Customer User", "Staff User" and "Admin User" |
| Login.DemoCredentialsLogIn | src/pages/Login.tsx:58-61 | each demo account's own credentials log in as that account |
| Login.RedirectByRole | src/pages/Login.tsx:18-22 | staff go to `/staff-dashboard`, customers and admins to `/hall-menu`; only a dashboard role is sent to the dashboard |
| Login.LoginPage.constructor | src/pages/Login.tsx:12-14 | the form starts empty and not loading |
| Login.LoginPage.QuickLogin | src/pages/Login.tsx:58-61 | fills in the account's credentials |
| Login.LoginPage.HandleLogin | src/pages/Login.tsx:24-56 | a match stores that account's user and redirects to its page; a failure leaves `user` unchanged and does not redirect; loading ends false |

## Left out

- Rendering, styling and toasts are not modelled. A toast is modelled only as the orders page's "Orders Updated" decision.
- The staff dashboard's `getStatusColor`, `getStatusText` and `getStatusIcon` are not modelled. They only choose CSS classes, icons and captions.
- The orders page's `getStatusColor` is not modelled, for the same reason.
- Polling intervals, `storage` and `focus` listeners and their cleanup are not modelled. `OrdersPage.PollTwice` stands for two ticks.
- Clock tickers on the countdown, home, index and navigation components are not modelled.
- The countdown's fixed demo sessions are not modelled.
- Async delays are dropped: the one-second simulated payment and login waits. Each handler runs to completion in one step, so a second click during the wait is not modelled.
- JSON encoding and malformed stored JSON are not modelled.
- Date parsing, ISO strings and `toLocaleTimeString` are not modelled. Times are milliseconds, and the update time is the clock reading, not its text.
- Prices are integer sen instead of floating-point ringgit, so `toFixed(2)` rounding is not modelled.
- An absent `orders` key reads as the empty list, as `|| "[]"` does.
- `Common.UpperAscii` and `Common.ToUpperAscii` handle only the ASCII letters. `toUpperCase` on other characters is not modelled.
- `Domain.SortNewestFirst` is stable by construction: an earlier order is inserted ahead of later ones with the same time. Stability is not stated as a separate lemma.
- The home, index and navigation components are not modelled.
- The static demo ticket table `staticTicketData` in src/utils/userTickets.ts is not modelled: `getUserTickets` never reads it.
- `StaffDashboard.AdvanceKeepsDeliveryConsistent` holds only when each card shows the stored status of its order. A card left stale by another tab can send a delivered order back a stage with its delivery time kept; `StaffDashboard.StaleAdvanceRegresses` states this case.
- `HallBooking.BookingPage.HandlePayment` does not model `isProcessingPayment` being true during the wait. It sets the flag and clears it in the same step.
