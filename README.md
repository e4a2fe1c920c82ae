# Kaskady hotel booking server — a Dafny model of its booking domain

This project models the booking and availability rules of the hotel website's
Node.js server (`server.js`): the room inventory, the availability calculator,
the booking validator and pricer, the contact form, the newsletter signup, the
booking lookup by reference, and the record store that keeps each collection
as one JSON file.

- `Inventory` — the four room types, their nightly prices and their unit counts.
- `Responses` — the handlers' error responses, with their HTTP statuses.
- `Fields` — the presence test the handlers apply to text fields.
- `Bookings` — booking requests and records. `ValidateBooking` applies the three
  rejections in the server's order (missing fields, unknown room type, check-out
  not after check-in). It then derives `nights` as the integer ceiling of the
  stay's length in days and `totalPrice` as nights times the nightly price.
- `Availability` — the strict half-open overlap test, the per-type count of
  overlapping bookings, and `ComputeAvailability`. That method is the server's
  two loops: it counts overlapping bookings of known room types into a
  dictionary, then fills in `max(0, total - booked)` for each type in the
  inventory order.
- `Lookup` — the first booking in insertion order whose reference matches (`find`).
- `Contacts` — the contact-form validator (name, email and message required).
- `Newsletter` — insertion into the subscriber list only when the email is absent.
- `RecordStore` — the class `Store`, whose three fields are the JSON files.
  `None` stands for a file that is missing or does not parse, and it reads as
  the empty collection. Each submitting handler reads a whole collection,
  appends, and writes the whole collection back; the newsletter handler
  writes only for a new email, and the availability and lookup handlers only
  read. A ghost log `Sent` records the emails
  the notification sink accepted. Two client methods show composed behaviour:
  subscribing twice, and booking then looking the booking up.

Dates are already-parsed integer timestamps in milliseconds. Booking
references, contact ids and the booking and submission times come from the
clock in the server. Here they are parameters supplied by the caller. Whether
the email transport throws is also a parameter, `mailFails`. In the code, a
throwing `sendEmail` inside a handler's `try` produces a 500 "Server error."
reply, and the record written just before it stays stored. So notification
failures do reach the caller, and are not fire-and-forget. The model follows
the code.

The availability query does not check that its check-out comes after its
check-in, and neither does the model. For a query whose end is not after its
start, a booking is still counted when it starts before the query's end and
ends after the query's start, that is, when it strictly contains both dates.

A duplicate reference is not prevented. `LookupAfterAppend` shows what follows
from that: a booking appended with a reference that an earlier booking already
has can never be found by it. An accepted booking written to an unreadable
bookings file replaces that file with a collection holding only the new booking.

## Model

| member | source | states |
|---|---|---|
| Inventory.InventoryShape | server.js:38-50 | the price and count tables have the same four keys (rooms, suites, lux, prestige), which are distinct, and every price and count is positive |
| Bookings.CeilDiv | server.js:159 | the result q is the integer ceiling of n/d: (q-1)*d < n <= q*d |
| Bookings.Nights | server.js:159 | a stay that ends after it starts is charged at least one night, and the stay's length lies in ((nights-1) days, nights days] |
| Bookings.ValidateBooking | server.js:144-170 | "missing required fields" iff roomType, checkIn, checkOut, name or email is absent or empty; otherwise "invalid room type" iff the type has no price; otherwise "check-out must be after check-in" iff start >= end; otherwise accepted. An accepted booking is well formed (known type, start < end, nights the day ceiling, price = nights * nightly price) and carries the request's fields, the given reference and the given booking time |
| Bookings.ExampleSuitesThreeNights | server.js:159-160 | a suite from 2024-06-01 to 2024-06-04 is accepted with 3 nights and a total price of 630 |
| Bookings.AsWrittenGuardAdmitsInheritedName | server.js:149-151 | the room-type guard as written lets "constructor" through although it is not a room type |
| Bookings.GuardsAgreeOnOwnNames | server.js:149-151 | the guard as written and the corrected one agree on every name except the names inherited from Object.prototype, all of which the guard as written admits |
| Availability.BookedCount | server.js:207-217 | the number of bookings counted for a type never exceeds the number of stored bookings |
| Availability.Available | server.js:219-222 | remaining units of a type lie in [0, total]; they are 0 iff the overlapping bookings of that type reach the total, and otherwise remaining + booked = total |
| Availability.ComputeAvailability | server.js:205-222 | the result has exactly the four inventory keys, and each value is the remaining units of that type for the query, between 0 and the type's total |
| Availability.BookedCountIsMatchCount | server.js:207-217 | the count for a type equals the number of stored positions holding a booking of that type that passes the strict overlap test |
| Availability.FewerBookingsThanUnitsLeaveRoom | server.js:219-222 | while fewer bookings are stored than a type has units, that type has at least total minus stored-bookings units left for any query |
| Availability.BookedCountAppend | server.js:207-217 | one more stored booking adds one to a type's count exactly when it has that type and overlaps the query |
| Availability.BookedCountConcat | server.js:207-217 | the count over two runs of bookings is the sum of their counts, so it does not depend on where a booking sits |
| Availability.NonOverlappingIgnored | server.js:212 | a booking that fails the strict overlap test leaves every type's availability unchanged |
| Availability.AbuttingIgnored | server.js:212 | a booking that ends when the query starts, or starts when it ends, does not overlap and does not reduce availability |
| Availability.UnknownRoomTypeIgnored | server.js:213-215 | a booking whose room type is not an inventory key never changes any type's availability |
| Availability.OverlappingTakesOneUnit | server.js:212-221 | an overlapping booking of type t lowers t's availability by one (not below zero) and leaves the other types unchanged |
| Availability.AcceptedBookingOccupiesItsStay | server.js:201-221 | a well-formed stored booking counts against a query for its own stay: one unit fewer of its type, if one was left |
| Availability.ExampleOneOverlappingRoomsBooking | server.js:205-222 | with one stored "rooms" booking covering the query, 47 of the 48 rooms remain |
| Lookup.FindIndex | server.js:260 | the index found holds a booking with the reference and no earlier booking has it; nothing is found iff no booking has the reference |
| Lookup.LookupBooking | server.js:259-262 | a found booking is stored, has the queried reference and is the first one that has it; the result is not-found iff no stored booking has the reference |
| Lookup.LookupAfterAppend | server.js:260 | appending a booking never changes an earlier answer; the new booking is found by its reference only when no earlier booking has that reference |
| Lookup.FreshReferenceFound | server.js:260 | a booking appended with a reference that no stored booking has is what looking up that reference returns |
| Contacts.ValidateContact | server.js:114-124 | rejected with "name, email and message are required" iff one of them is absent or empty; otherwise the record carries the request's fields and the given id and time |
| Newsletter.AddSubscriber | server.js:238-239 | an email already on the list leaves the list unchanged; afterwards the email is on the list, the old list is a prefix of the new one, at most one entry is added, the members are the old ones plus the email, and a new email occurs once |
| Newsletter.AddSubscriberIdempotent | server.js:238-239 | subscribing the same email again leaves the list unchanged |
| Newsletter.AddSubscriberKeepsDistinct | server.js:238-239 | a list without duplicate emails keeps that property |
| Newsletter.SubscribedOnce | server.js:237-248 | after one or two signups of an email that was on the list at most once, it is on the list exactly once |
| RecordStore.Store.constructor | server.js:31-35 | the store starts with the three given collection files and no email sent |
| RecordStore.Store.SubmitContact | server.js:112-139 | a rejected request changes nothing; an accepted contact makes the file the old collection (empty if unreadable) plus the new record, and sends an acknowledgement to its email; a failing sink turns the reply into a server error (500) while the contact stays; a rejection is a 400; bookings and subscribers are untouched |
| RecordStore.Store.SubmitBooking | server.js:142-191 | the reply is the validator's rejection with nothing changed, or the file becomes the old collection plus the accepted booking, with a confirmation carrying reference, room type, nights and price; a failing sink gives a server error (500) and the booking stays, while every rejection is a 400; if every stored booking was well formed, every one still is |
| RecordStore.Store.CheckAvailability | server.js:194-229 | rejected with "dates required" (a 400) iff a date is absent; otherwise exactly the four inventory keys, each mapped to that type's remaining units over the stored bookings, between 0 and its total |
| RecordStore.Store.Subscribe | server.js:232-253 | an absent email is rejected with nothing changed; an email already listed changes nothing, sends nothing and succeeds; a new one is appended once, written back and welcomed, and a failing sink then gives a 500 while the email stays; a rejection is a 400; the list is the AddSubscriber of the old one |
| RecordStore.Store.GetBooking | server.js:256-268 | the reply is the first stored booking with the reference, or not-found (a 404) iff none has it |
| RecordStore.SubscribeTwice | server.js:232-253 | for any sink outcome on either call, the second signup succeeds; the first fails (500) only when the email was new and its welcome failed; the email ends up on the list exactly once, and a welcome is sent only when the email was new and the first welcome succeeded |
| RecordStore.BookThenLookUp | server.js:162-262 | with a reference no stored booking has, an accepted booking is what the lookup of that reference returns, even when its confirmation failed and the booking reply was a 500; after a rejection the lookup is not-found |

## Left out

- The front-end script `public/js/main.js` is not part of this model. It is DOM wiring and floating-point animation, with no booking logic.
- The Express setup, middleware, the `/health` route and `app.listen` (server.js:13-23, 107-109, 271-284) are not modelled. They are framework plumbing.
- `initData` (server.js:53-70) is not modelled. It recreates missing files as `[]` at start-up, which matches how the model reads an unreadable file as the empty collection.
- File I/O is abstracted. A file is a sequence of typed records, or unreadable. JSON text, formatting, and a file that parses to something other than an array are not modelled. A failing `writeJson`, which gives a 500 with nothing persisted, is not modelled either.
- `sendEmail`'s transport and environment checks (server.js:89-104) are replaced by the `mailFails` parameter and the ghost `Sent` log. Email subjects and HTML bodies are reduced to what they carry.
- `Date.now()`-derived references and ids and the ISO timestamps (server.js:121-123, 163, 169) are caller-supplied parameters.
- Date strings are modelled by their parsed millisecond timestamps, and stored bookings keep those timestamps rather than the original strings. Unparseable dates, which parse to NaN and pass the source's date-order check, are not modelled.
- `Math.ceil` over a floating-point quotient is modelled as exact integer ceiling division. The two agree for every stay shorter than about a hundred million days.
- JavaScript's falsy test `!x` is modelled for text fields as "absent or empty". Other falsy JSON values (0, false, null) are not modelled. A date field counts as present when it is given as a parsed date; an empty date string, which the source rejects as falsy, is modelled as absent.
- Request fields are modelled as strings, but the JSON body parser accepts any JSON value. Non-string values are not modelled, and two of their consequences are not captured:
  - A newsletter email sent as an array (`["a@b.c"]`) is never found by `includes` (server.js:238-239), which compares arrays by identity. Every signup appends it and sends a welcome, so the idempotence proved here does not hold for such values.
  - A room type sent as an array (`["rooms"]`) passes the price lookup (server.js:149), because the array converts to the key "rooms". The booking is written (server.js:173), then `toUpperCase` throws (server.js:180), so the reply is a 500 while the booking stays stored. Availability (server.js:213) afterwards counts that booking as "rooms".
- Stored bookings with missing or malformed dates, which the source's comparisons would never count, cannot be represented.
- Concurrent requests and lost updates between them are not modelled. The source does not coordinate them.

## Findings

| source | as written | input that shows it | evidently intended | confidence | as-written member | corrected member |
|---|---|---|---|---|---|---|
| server.js:149 | `!ROOM_PRICES[roomType]` rejects only names whose lookup is falsy. Names inherited from `Object.prototype` look up a function or object, so they pass. The booking is then stored with that room type and a price of NaN | roomType "constructor" (or "toString", "__proto__", ...) with otherwise valid fields | only the four own keys of the price table are room types | high; not executed | Bookings.AsWrittenGuardAdmitsInheritedName | Bookings.ValidateBooking |
