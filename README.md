# Restaurant booking tools of the Pipecat voice agent, in Dafny

The voice agent answers phone calls. A language model drives the
conversation and calls three restaurant tools. This project models those
tool handlers of `bot.py` and the booking list they share:

- **The booking store** (`bookings_db`) is a process-wide list that only
  grows. Here it is the class `Bookings.BookingStore`: a `seq<Booking>`
  field, plus a ghost history of the calls that built it. Its invariant
  says the list is exactly what replaying that history from an empty list
  gives (`Bookings.Replay`).
- **`create_booking`** (`BookingStore.CreateBooking`) numbers the new record
  after the current count. Its identifier is `"BOOK"` plus the number in
  decimal, zero-padded to at least four digits (Python's `:04d`). The method
  appends the record and returns the same identifier, status `"confirmed"`
  and a confirmation sentence.
- **`check_availability`** (`Tools.CheckAvailability`) is a stub. It always
  answers "available" and echoes date, time and party size.
- **`get_restaurant_info`** (`Tools.GetRestaurantInfo`) looks up a fixed
  table of five categories. It falls back to the general text for a missing
  or unknown category.
- **Handler registration** (`Tools.HandleToolCall`) routes each tool call to
  its handler. Only `create_booking` changes the store.

Tool arguments come from `params.arguments.get(...)`, so any of them may be
missing. Each is an `Option`: `Option<string>` for the text fields and
`Option<int>` for `guests`. When an f-string shows a missing value, Python
writes `None` (`Format.ShowText`, `Format.ShowInt`). The creation timestamp
arrives as a string parameter in place of the wall clock. The
`result_callback` delivery becomes the return value.

Two details of the source that the model keeps:
- A missing `special_requests` is stored as the four-character string
  `"None"`, the default passed to `dict.get` (bot.py:68).
- `check_availability` has a "No tables available" branch, but it can never
  run, because `available` is the constant `True` (bot.py:48, 55).

## Model

| member | source | states |
|---|---|---|
| `Format.Digits` | bot.py:71 | the decimal numeral of a count is non-empty and all digits, and it starts with '0' only for zero |
| `Format.ValueOfDigits` | bot.py:71 | reading the numeral back gives the original number |
| `Format.DigitsFitWidth` | bot.py:71 | the numeral fits in k digits exactly when the number is below 10^k |
| `Format.ZeroPadded` | bot.py:71 | the `:04d` text is all digits and reads back as the number; its length is the larger of the width and the numeral's length; it is never truncated; when it is longer than the width it has no leading zero |
| `Format.NoSpaceInIntToString` | bot.py:55 | the `str` of an integer contains no space, so a space marks its end inside a sentence |
| `Format.IntToStringRoundTrip` | bot.py:55 | the `str` of an integer party size, as an f-string writes it, parses back to that integer |
| `Bookings.BookingId` | bot.py:71 | the identifier is "BOOK" followed by digits that read back as the booking number; it has at least four digits, and no leading zero when it has more |
| `Bookings.IdNumberOfBookingId` | bot.py:71 | the booking number can be recovered from the identifier |
| `Bookings.BookingIdInjective` | bot.py:71 | two identifiers are equal exactly when their booking numbers are equal |
| `Bookings.BookingIdLength` | bot.py:71 | the identifier has eight characters exactly while the number is below 10000, and grows after that |
| `Bookings.FirstBookingIds` | bot.py:71 | the first two identifiers are BOOK0001 and BOOK0002 |
| `Bookings.TenThousandthBookingId` | bot.py:71 | booking 10000 gets BOOK10000 |
| `Bookings.Replay` | bot.py:71-84 | N calls from an empty store leave exactly N records |
| `Bookings.ReplayRecords` | bot.py:71-84 | the i-th record is the one the i-th call built, numbered i + 1 |
| `Bookings.ReplayIdentifiers` | bot.py:63-84 | over N calls from an empty store, the identifiers are BOOK0001 onward in call order; each record holds name, phone, date, time, guests and timestamp as given, and special requests default to "None" |
| `Bookings.ReplayAppendOnly` | bot.py:84 | later calls leave every earlier record unchanged; the store only grows at its end |
| `Bookings.SequentialIdNumbers` | bot.py:71 | in a store built by appends, each record's identifier carries its position plus one |
| `Bookings.SequentialIdsDistinct` | bot.py:71-84 | in a store built by appends, identifiers are pairwise distinct and their numbers strictly increase |
| `Bookings.BookingStore.constructor` | bot.py:35 | the store starts empty |
| `Bookings.BookingStore.Count` | bot.py:71 | `len(bookings_db)` equals the number of bookings made so far |
| `Bookings.BookingStore.CreateBooking` | bot.py:61-94 | appends exactly one record built from the arguments, numbered after the old count, and changes no earlier record; returns that record's identifier (BookingId of the new length), status "confirmed" and the confirmation sentence; the invariant is kept |
| `Bookings.TwoBookingsScenario` | bot.py:61-94 | two identical bookings on a fresh store are confirmed as BOOK0001 and BOOK0002 and leave two records |
| `Tools.CheckAvailability` | bot.py:39-58 | always reports available; echoes date, time and guests unchanged, missing or not; the message is "Table for {guests} is available on {date} at {time}" |
| `Tools.AvailabilityMessageGuests` | bot.py:55 | the party size can be read back from the availability sentence: after "Table for " comes a run of non-space characters, ended by a space, that parses to the party size |
| `Tools.GetRestaurantInfo` | bot.py:97-113 | the lookup is total and always returns a table entry; a known category gives its own text; a missing or unknown category gives the general text |
| `Tools.GeneralInfoExactly` | bot.py:99-110 | the general text comes back exactly when the category is "general", unknown or missing |
| `Tools.ToolNamesDistinct` | bot.py:199-201 | the three handlers are registered under three different names, so a name selects exactly one tool |
| `Tools.HandleToolCall` | bot.py:199-201 | routes each call to its handler; check_availability and get_restaurant_info leave the store unchanged; create_booking appends exactly its one record |

## Left out

- `run_bot`: the speech-to-text, text-to-speech and LLM clients, the tool
  schemas and system prompt, the pipeline, the runner and the connect and
  disconnect hooks. This is framework wiring and network services. Only the
  name-to-handler registration is modelled.
- `bot`: telephony WebSocket parsing, the Twilio serializer, the transport and
  voice-activity detection. These are I/O and foreign library calls.
- `server.py`: the HTTP endpoints, outbound call placement and server startup.
  This is network plumbing. `server_utils` is not part of this model.
- The wall clock (`datetime.now().isoformat()`). The timestamp is a parameter.
- Logging, and the asynchronous `result_callback`. The handlers return their
  result instead.
- Concurrent calls appending to the shared list. The source does nothing to
  coordinate them, and the model is sequential.
- Arguments of a JSON type other than the declared one (for example a string
  `guests`), and an explicit JSON `null` for `special_requests`. In the
  source, a null is stored as `None` rather than the string "None".
  `special_requests` is never echoed in a result message, so the two differ
  only in the stored record and in the log line, which is left out.
