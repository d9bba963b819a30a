# FacilityAI booking backend — slot availability, booking and payment links

A Dafny model of the part of the FacilityAI backend that carries rules: the
availability search over schedule slots, the booking endpoint that checks a
slot, records a booking and decrements the slot, and the payment-link stub,
together with the record shapes they use.

- `wrappers.dfy` — `Option` and `Result`.
- `object_ids.dfy` — store identifiers and their string form (`str(_id)`,
  `ObjectId(s)`), with the round trip proved.
- `schemas.dfy` — one datatype per record shape, the literal enumerations
  (slot, booking, payment-link and message statuses, transcript direction
  and message channel), the field defaults, and the validated construction
  of a `Service`.
- `documents.dfy` — the store's contents (`Tables`: slots, bookings, payment
  links and a fresh-identifier counter) and the two slot operations the
  endpoints use: a filtered read with a limit, and an update of one slot by
  identifier.
- `availability.dfy` — `POST /api/availability` as a function of the slot
  collection, and what it promises.
- `booking_flow.dfy` — `POST /api/bookings` as a function `Book` from the
  store before the request to the reply and the store after it.
- `payment_links.dfy` — `POST /api/payment-links` as a function `IssueLink`.
- `facility_store.dfy` — class `Store`, whose fields are the three
  collections and the counter; its three methods perform the endpoints step
  by step and are proved equal to the functions above.

Timestamps are integers (seconds). The clock, the random token and date
parsing are parameters: `now`, `token`, and `parseDate`, a partial function
from strings to instants. The slot update that the booking endpoint wraps in
`try/except: pass` is modelled by a flag `updateFails`: when set, the booking
stays inserted and no slot changes.

Behaviour of the code worth noting:

- A slot becomes `booked` when the remaining count read before the booking,
  minus one, is at most 0.
- A missing `remaining` is read as 1 by the booking endpoint's slot check. The
  store's increment starts a missing field from 0, so the slot is written
  back with `remaining` -1 and status `booked`.
- The booking's `source` is written as the request gives it (or "ai" when it
  is absent or empty). It is not checked against the schema's four literals.
  `BookingSourceConforms` says exactly when the result is one of them.
- `date` is whatever `parseDate` accepts. It is not restricted to midnight of
  a calendar day.

## Model

| member | source | states |
|---|---|---|
| `ObjectIds.IdString` | main.py:79 | the string form of an identifier is a non-empty string of hexadecimal digits |
| `ObjectIds.ParseObjectId` | main.py:119 | turning a string back into an identifier succeeds exactly on non-empty hex-digit strings |
| `ObjectIds.ParseIdString` | main.py:119 | parsing the string form of any identifier gives that identifier back |
| `ObjectIds.IdStringInjective` | main.py:112 | distinct identifiers have distinct string forms, so a booking's slot reference names one slot |
| `Schemas.MakeService` | schemas.py:20-26 | a service is constructed iff 5 <= duration_minutes <= 480 and price_cents >= 0; it then carries exactly the given fields; otherwise the error names each violated field and only those |
| `Documents.Select` | main.py:76 | the store's filtered read returns only slots of the store that the filter admits, and every admitted slot |
| `Documents.SelectFirst` | main.py:96-98 | the first slot the read returns is the earliest admitted slot in store order |
| `Documents.SelectNone` | main.py:97 | a filter that admits no stored slot returns nothing |
| `Documents.Take` | main.py:76 | the limit keeps the front of the matches: exactly `limit` records when more are available, all of them when they fit, all of them for a limit of 0, and the absolute value for a negative limit |
| `Documents.GetDocuments` | main.py:76 | the store's read returns the earliest admitted slots in store order, as many as the limit lets through, and every admitted slot when they fit the limit |
| `Documents.UpdateOne` | main.py:119 | the update lowers `remaining` by one (an absent field counts from 0) and sets the status on the first slot with the identifier, leaves every other slot alone, keeps every identifier, and changes nothing when no slot has the identifier |
| `Documents.UpdateOneHitsSlot` | main.py:119 | with unique slot identifiers, updating by a slot's identifier changes exactly that slot |
| `Documents.IndexOfId` | main.py:119 | the lookup by identifier finds the first slot with that identifier, or reports that none has it |
| `Documents.SlotIdResolves` | main.py:119 | with unique slot identifiers, the identifier recovered from a slot's string id designates that same slot |
| `Documents.FindBooking` | main.py:122 | a booking found under a string id is a stored booking whose identifier that string denotes |
| `Documents.BookingIdResolves` | main.py:114 | with unique booking identifiers, every booking's string id resolves to that booking |
| `Availability.AvailableSlotsSound` | main.py:61-79 | every returned slot is open, equals each non-empty service_id and staff_id, starts in [start, start + days), and is a stored slot whose returned string id parses back to its identifier |
| `Availability.AvailableSlots` | main.py:59-80 | the availability reply is an error exactly when a non-empty date does not parse; otherwise every returned slot is open and is a stored slot under its string id |
| `Availability.AvailableSlotsBounded` | main.py:74-76 | the reply holds `limit` slots when more match, every match when they fit (0 meaning no limit), and none when `days` is not positive |
| `Availability.AvailableSlotsComplete` | main.py:61-76 | the reply is the earliest matching slots in store order, and when the matches fit the limit, every stored open slot that matches the filters and starts in the window is returned |
| `Availability.DefaultQuerySearchesAWeek` | main.py:52-57 | a query with default `days` and `limit` and no date succeeds with at most 20 open slots, all starting within seven days of now |
| `Availability.AvailableSlotsDateError` | main.py:67-73 | the query fails iff a non-empty date does not parse; the error is the 400 date-format message, and it is the same whatever the store holds |
| `Availability.BlankFieldsIgnored` | main.py:62-67 | an empty service_id, staff_id or date gives the same answer as an absent one |
| `FacilityStore.Store.CheckAvailability` | main.py:59-80 | the endpoint's reply equals the availability specification `AvailableSlots` for the current slots, and the store is not modified |
| `BookingFlow.MatchedSlot` | main.py:96-98 | the matched slot is a stored slot with the request's start and end times, and there is none exactly when no stored slot has those times |
| `BookingFlow.Book` | main.py:92-122 | a refusal is "Slot not available", happens exactly when the matched slot is not available, and changes nothing; a success returns the new booking's string id, appends exactly that booking under the fresh identifier, and keeps links and every slot identifier |
| `BookingFlow.MatchedSlotIsFirst` | main.py:96-98 | the slot matched is the first stored slot whose start and end times both equal the request's, whatever its service or staff |
| `BookingFlow.NoSlotMatched` | main.py:95-97 | when no stored slot has the request's times, no slot is matched |
| `BookingFlow.BookRejectsUnavailableSlot` | main.py:96-100 | with a matched slot, the request fails iff that slot is not open or its remaining (absent read as 1) is <= 0; the failure is "Slot not available" and leaves slots, bookings and links unchanged |
| `BookingFlow.BookAppendsOneBooking` | main.py:101-114 | on success exactly one booking is appended under a fresh identifier that is returned; it is confirmed, quantity 1, price 0, copies the request, takes the request's source or "ai", and refers to the matched slot by exactly its string id (which parses back to that slot's identifier) or to no slot; links are unchanged |
| `BookingFlow.BookWithoutSlot` | main.py:95-116 | with no slot at the request's times the booking still succeeds, with a null slot reference, and no slot changes |
| `BookingFlow.BookDecrementsMatchedSlot` | main.py:115-119 | booking an available matched slot lowers its remaining by exactly one (a missing field becomes -1), sets it to booked iff old remaining - 1 <= 0 and to open otherwise, changes no other field, and leaves every other slot unchanged |
| `BookingFlow.BookUpdateFailureKeepsSlots` | main.py:116-121 | when the slot update fails the booking stays inserted and no slot changes |
| `BookingFlow.BookPreservesWellFormed` | main.py:114-119 | a request keeps every identifier issued by the counter and slot, booking and link identifiers unique |
| `BookingFlow.BookedIdResolves` | main.py:114-122 | the identifier returned for a new booking resolves to that booking in the store |
| `BookingFlow.BookPreservesSoundSlots` | main.py:99-119 | requests handled one at a time never oversell: if every slot has a non-negative remaining and every open slot has some remaining, that still holds afterwards |
| `BookingFlow.DefaultSlotBooksOnce` | schemas.py:45-53 | a slot left at its defaults (capacity 1, remaining 1, open) accepts one booking, becomes booked with remaining 0, and refuses a second request |
| `BookingFlow.BookingUsesSchemaDefaults` | schemas.py:61-64 | the written booking agrees with the Booking defaults for status, quantity and price, and its source defaults to "ai" where the schema's is "web" |
| `BookingFlow.BookingSourceConforms` | schemas.py:64 | the written source is one of phone/web/ai/manual iff the request's source is absent, empty or one of them |
| `FacilityStore.Store.CreateBooking` | main.py:92-122 | the endpoint's reply and the new store contents equal the booking specification `Book` applied to the old contents, and the store invariant is kept |
| `PaymentLinks.PayUrlRoundTrip` | main.py:135 | a link's path "/pay/" + token gives back the token |
| `PaymentLinks.PayUrlInjective` | main.py:135 | distinct tokens give distinct paths |
| `PaymentLinks.PayUrlIsSafePath` | main.py:134-135 | for a 16-character URL-safe token the path is 21 characters of "/" and URL-safe characters |
| `PaymentLinks.IssueLink` | main.py:134-147 | issuing a link leaves slots and bookings untouched, appends one link under the fresh identifier, and replies with that identifier, the token and a path that gives the token back |
| `PaymentLinks.IssueLinkAppendsPendingLink` | main.py:134-147 | exactly one link is appended under a fresh identifier: pending, AUD, the request's customer, amount and description, the token, url "/pay/" + token, expiry now + 7 days; slots and bookings are untouched; the reply carries the id, token and url |
| `PaymentLinks.LinkUsesSchemaDefaults` | schemas.py:68-76 | the written link agrees with the PaymentLink defaults for currency and status |
| `PaymentLinks.IssueLinkPreservesWellFormed` | main.py:146 | issuing a link keeps identifiers issued by the counter and slot, booking and link identifiers unique |
| `FacilityStore.Store.CreatePaymentLink` | main.py:130-147 | the endpoint's reply and the new store contents equal `IssueLink` applied to the old contents; slots and bookings are unchanged and the store invariant is kept |

## Left out

- The web application itself: app setup, CORS, the `/` and `/test` endpoints and process startup (main.py:9-49, 149-152). They hold no rules.
- The `database` module is not part of this model. Its collections are the sequences of `Tables`; reads return records in insertion order, and identifiers come from a counter. Any extra fields the insert helper may add (such as timestamps) are not modelled.
- `Documents.Take`: the database helper is not part of this model. Its limit is taken to follow MongoDB's cursor limit: 0 means no limit, and a negative limit counts as its absolute value. The single-batch size cap that MongoDB applies to a negative limit is not modelled.
- Identifiers: a store identifier is 12 bytes, written as exactly 24 hexadecimal digits. The model uses an unbounded counter written in as few digits as needed, and parsing accepts any non-empty lower-case hex string.
- The random token and the clock are method parameters. The token's uniqueness across calls is a matter of probability and is not modelled.
- `Availability.WindowStart`: date parsing is the parameter `parseDate`, not ISO 8601 parsing. Mixing naive and time-zone-aware datetimes is not modelled, and neither is the overflow error for an enormous `days`.
- Request validation by the web framework: type coercion, e-mail checks, and the rejection of missing required fields. A stored slot always has a status in the model; the read `slot.get("status")` of a slot without one is not modelled.
- Only the effect of a failed slot update is modelled, through `updateFails`; the store errors that would cause it are not.
- Concurrent requests. The model is sequential, so the race in which two requests both pass the availability check before either decrement is not modelled. `BookPreservesSoundSlots` holds only for one request at a time.
- Organization, Staff, Customer, Transcript and Message are datatypes only. No endpoint reads or writes them.
