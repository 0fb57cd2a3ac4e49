# amtrak2calendar core, modelled in Dafny

amtrak2calendar reads Amtrak reservation e-mails and OCR'd tickets and keeps
a Google Calendar in step with them. This project models the program's core
and proves properties of it:

- **Reservation** (`src/Reservation.ts`). A reservation identified by its
  reservation number. It holds the current itinerary, the itineraries it
  replaced ("rescheduled trains") and a cancelled flag. Each e-mail or
  ticket is a *snapshot*: its itinerary becomes current when its timestamp
  is strictly newer, and otherwise goes to history. A snapshot that carries
  a different reservation number is refused.
- **Reservation summary, search links and display object.** These come
  from the same file.
- **Calendar reconciliation** (`syncEvents`). From a reservation's trains
  and its existing calendar events, it decides which trains get a new event
  and which events are deleted.
- **Reservation collection** (`src/ReservationCollection.ts`). A dictionary
  from reservation number to reservation, shown entry by entry.
- **Trains** (`src/Train.ts`). The train-number getter, the calendar title,
  the time-zone getters, the callback parameters and the OCR ticket loop.
- **Station time zones** (`src/TzData.ts`, `src/TzDataNonUS.ts`). The
  station-code tables and the lookup that consults the non-US table first.

Modules, one per source file:

| file | module | source |
|---|---|---|
| `wrappers.dfy` | `Wrappers` | `Option`, `Result` and `Outcome`, standing for `null` and thrown errors |
| `station_code.dfy` | `StationCodes` | three-character station codes, the keys of both tables |
| `tz_data_non_us.dfy` | `TzDataNonUs` | `src/TzDataNonUS.ts` |
| `tz_data.dfy` | `TzData` | `src/TzData.ts` |
| `train.dfy` | `Trains` | `src/Train.ts` |
| `event_sync.dfy` | `EventSync` | the two passes of `Reservation.syncEvents`, as pure functions |
| `reservation.dfy` | `Reservations` | `src/Reservation.ts` |
| `reservation_collection.dfy` | `ReservationCollections` | `src/ReservationCollection.ts` |

How the source takes shape here:

- **Classes.** The source updates `Reservation` and `ReservationCollection`
  objects in place, so both are Dafny classes.
  - Each class has a function giving its fields as a value: `State()` for a
    reservation, `Entries()` for the collection.
  - Each method is proved against a pure function on those values. For
    example `AddOcrText` is proved against `OcrAdd`, and the collection's
    `AddOcrText` against `CollectOcr`.
  - The properties are proved as lemmas about those functions.
- **Loops.** `syncEvents`, `Train.FromOcrText` and the `for...in` loop of
  `toDisplayObject` are methods with loops.
- **Pure code.** The rest is functions and lemmas.
- **Instants** are integers. A time of day read off a ticket is turned into
  an instant by a function parameter `parseLocal`, standing for the moment
  library.
- **Thrown errors** are `Result.Err` from the functions and `Outcome.Fail`
  from the methods. Whenever the source throws before changing anything,
  the model proves that nothing changed.

Where the program's own description and its code differ, the model follows
the code:

- **Search links.** The links append the reservation number as it is, with
  no URL encoding.
- **`Train.toParams` keys.** It writes `trainName` and `reservationNumber`,
  which are the keys `Train.FromParams` reads. Some tests expect other keys.
- **Equal timestamps.** A snapshot with the same timestamp as the current
  itinerary goes to history, and the first one filed stays current. So
  merging is order independent only for distinct timestamps
  (`MergeOrderIsImmaterial`).
- **Station names.** `src/Train.ts` defines no `departStationName` or
  `arriveStationName`, yet `description()` reads them, and the tests fix
  their values.
  - For an e-mail train, the two names are carried as fields (the tests'
    "NEW YORK (PENN STATION), NY -> WASHINGTON, DC").
  - For a ticket train, the names are its station codes (the test's
    "NYP -> WAS (round trip)").
- **Reservations without a number.** JavaScript turns a `null` reservation
  number into the dictionary key `"null"`.
  - An e-mail without a number is therefore filed under `"null"`, and from
    then on the collection's `toDisplayObject` throws.
  - This is proved as `EmailWithoutNumberBreaksDisplay`.

## Model

| member | source | states |
|---|---|---|
| StationCodes.CodeOf | src/TzData.ts:537-546 | A station string names a table key exactly when it is three characters long, and the key spells the string back. |
| TzDataNonUs.GetTzDataNonUs | src/TzDataNonUS.ts:8-20 | The getter returns the fixed table: exactly seven Canadian stations, VAC, VBC and VIF in Vancouver's zone and MTR, SLQ, TCT and TWO in Toronto's. |
| TzData.TzDataTable | src/TzData.ts:7-536 | The generated table, one case per station in the source's order, and no zone for any other code. Its zones are stated by `TableZonesAreKnown`. |
| TzData.TableZonesAreKnown | src/TzData.ts:7-536 | Every zone in the generated table is one of its nine IANA zones. |
| TzData.ListedStationsHaveZones | src/TzData.ts:537-546 | A station resolves to a zone exactly when one of the two tables lists it, and that zone is one of the eleven zones the tables use. |
| TzData.StationToTimeZone | src/TzData.ts:537-546 | Only a three-character code can resolve to a zone. |
| TzData.TablesAreDisjoint | src/TzDataNonUS.ts:8-16 | No station of the non-US table is in the generated table. |
| TzData.NonUsTableConsultedFirst | src/TzData.ts:539-541 | A station in the non-US table resolves to that table's zone. |
| TzData.TzDataTableIsFallback | src/TzData.ts:542-544 | Any other three-character code resolves to the generated table's zone, or to null when the generated table does not hold it. |
| TzData.UnknownStationIsNull | src/TzData.ts:545 | A string in neither table resolves to null. |
| TzData.ConsultationOrderIsImmaterial | src/TzData.ts:537-546 | Consulting the generated table first would resolve every code to the same zone. |
| TzData.UsStationZones | src/TzData.ts:7-536 | WAS and NYP are in New York's zone and SEA in Los Angeles's. |
| TzData.CanadianStationZones | src/TzDataNonUS.ts:8-16 | Each of the seven Canadian stations resolves to its zone through the lookup. |
| Trains.NumberIsFirstDigitRun | src/Train.ts:162-168 | `number` is the first match of `\d+`: no digit precedes it, it is a maximal run of digits taken from the name, and it is empty exactly when the name has no digit. |
| Trains.NumberOfDigitRun | src/Train.ts:162-168 | A digit-free prefix, then a run of digits, then a tail not starting with a digit: the number is that run. |
| Trains.NumberExample | src/Train.ts:162-168 | The number of "Amtrak 123: Foo - Bar" is "123". |
| Trains.Number | src/Train.ts:162-168 | The number is made of digits only and is no longer than the name. |
| Trains.Description | src/Train.ts:170-172 | The calendar title is exactly "Amtrak Train ", the train number, ": " and "origin -> destination", with nothing else in between. |
| Trains.DescriptionExample | src/Train.ts:170-172 | Train 123 from WAS to NYP is titled "Amtrak Train 123: WAS -> NYP". |
| Trains.DepartTimeZone | src/Train.ts:182-184 | A train has a departure zone exactly when a table lists its origin station, and the zone is one the tables use. |
| Trains.ArriveTimeZone | src/Train.ts:186-188 | A train has an arrival zone exactly when a table lists its destination station, and the zone is one the tables use. |
| Trains.TimeZoneExample | src/Train.ts:182-188 | A train from WAS to SEA departs in New York's zone and arrives in Los Angeles's. |
| Trains.ToParams | src/Train.ts:195-204 | The parameters of a train have exactly the six keys the source writes. |
| Trains.IncompleteToParams | src/Train.ts:261-267 | The parameters of an incomplete train have exactly the keys `depart`, `name` and `reservationNumber`. |
| Trains.IncompleteParamsIdentifyTrain | src/Train.ts:256-267 | Two incomplete trains have the same parameters exactly when they have the same departure, name and reservation number. |
| Trains.FromParams | src/Train.ts:50-59 | A train is rebuilt exactly when all six keys are present with values of the right kind, and the result is a complete train. |
| Trains.ParamsRoundTrip | src/Train.ts:190-204 | The documented round trip holds: `FromParams(toParams(t))` gives back `t`. |
| Trains.IncompleteParamsDoNotRoundTrip | src/Train.ts:256-267 | The same round trip fails for an incomplete train, whose parameters lack the train name and stations. |
| Trains.FromOcrText | src/Train.ts:61-133 | A ticket without a station pair gives no trains. Otherwise it gives one train per match. Each train has the match's number and the ticket's reservation number ("" when absent). The first leg runs as printed and every later leg the other way. Each instant is the local time parsed in its station's zone. |
| EventSync.Uncovered | src/Reservation.ts:235-248 | Pass 1 creates exactly the trains that no event matches, in train order. |
| EventSync.NoEventsCreatesEveryTrain | spec/Reservation.spec.ts:454-479 | With no events every train is created, in order. |
| EventSync.FirstFree | src/Reservation.ts:257-266 | The inner scan finds a matching train not claimed before, and no earlier one qualifies. It finds nothing only when no train qualifies. |
| EventSync.Claims | src/Reservation.ts:252-271 | Pass 2 gives one claim per event, and a claim always names a train that the event matches. |
| EventSync.Unclaimed | src/Reservation.ts:252-271 | The deleted events are exactly those without a claim, in event order. |
| EventSync.DeletedIffNoFreeTrain | src/Reservation.ts:252-271 | An event is deleted if and only if every train it matches was already claimed when it was scanned. An orphan event, which matches no train, is always deleted. |
| EventSync.ClaimsAreDistinct | src/Reservation.ts:254-266 | No train is claimed by two events. |
| EventSync.TakenAreTrains | src/Reservation.ts:254-266 | Only train indices are claimed. |
| EventSync.KeptCount | src/Reservation.ts:252-271 | Every event is either kept, claiming one more train, or deleted. |
| EventSync.KeptAtMostTrains | src/Reservation.ts:252-271 | No more events are kept than there are trains. |
| EventSync.DuplicateIsDeleted | spec/Reservation.spec.ts:518-554 | Of two events that match the same single train, the later one is deleted. |
| EventSync.ConvergedCalendarIsKept | spec/Reservation.spec.ts:481-516 | A calendar that already has one matching event per train is left alone: nothing is created or deleted. |
| EventSync.DuplicateScenario | spec/Reservation.spec.ts:518-554 | Two trains with two copies of each event: no train is created, and exactly the second copies (events 1 and 3) are deleted. |
| Reservations.Merge | src/Reservation.ts:85-102 | Merging keeps the number and the cancelled flag. The date becomes the later of the two timestamps. The new itinerary becomes current exactly when it is strictly newer. The first itinerary is never archived. A superseded current itinerary is archived only when it holds trains. An older snapshot is always archived, even when empty. Every non-empty itinerary filed is kept, current or in history. |
| Reservations.OcrAdd | src/Reservation.ts:66-104 | A ticket fails with "null reservation number" exactly when it has none. It fails with "mismatch" exactly when the stored number is set and differs. Every other ticket succeeds: the number is adopted and the itinerary merged. |
| Reservations.EmailAdd | src/Reservation.ts:106-137 | An e-mail is refused exactly when the stored number is neither blank nor the parsed one. Otherwise the parsed number (possibly null) is adopted and the itinerary merged. |
| Reservations.NumberIsStable | src/Reservation.ts:77-83 | Once a non-blank number is stored, every successful add keeps it, and a snapshot with another number is refused by both adds. |
| Reservations.TwoSnapshotsCommute | spec/Reservation.spec.ts:134-189 | Two snapshots with distinct timestamps leave the same reservation in either order: the newer is current and the older is last in history. |
| Reservations.EmptyOlderItineraryShowsOrder | src/Reservation.ts:92-103 | An empty older itinerary is dropped when superseded, but kept in history when filed late. |
| Reservations.MergeAllOutcome | spec/Reservation.spec.ts:134-189 | Filing snapshots into an empty reservation leaves it dated by the latest timestamp and showing the first snapshot with that timestamp. Every non-empty itinerary is kept, current or in history. The number and flag are unchanged. |
| Reservations.MergeOrderIsImmaterial | spec/Reservation.spec.ts:191-246 | Any reordering of snapshots with distinct timestamps gives the same date, current itinerary and kept itineraries. |
| Reservations.Description | src/Reservation.ts:142-168 | The summary is "(no trains)" exactly for an empty itinerary. Otherwise it starts with the first departure station and " -> ", and ends with the arrival and " (one-way)" for one train, with the turning point and " (round trip)" for a mirrored pair, and with the last arrival otherwise, with nothing between the prefix and that ending. |
| Reservations.DescriptionExamples | spec/Reservation.spec.ts:56-109 | The test summaries of one-, two- and three-train e-mail itineraries. |
| Reservations.RoundTripExample | spec/Reservation.spec.ts:134-189 | An OCR round trip NYP-WAS-NYP is summarised "NYP -> WAS (round trip)". |
| Reservations.CheckReservationNumber | src/Reservation.ts:274-278 | The check fails, with "not set", exactly for a null number. |
| Reservations.CalendarSearchURL | src/Reservation.ts:170-176 | The link fails exactly for a null number. Otherwise it is the Calendar search prefix followed by the number, which can be read back off it. |
| Reservations.GmailSearchURL | src/Reservation.ts:178-184 | The link fails exactly for a null number. Otherwise it is the Gmail search prefix followed by the number, which can be read back off it. |
| Reservations.SearchURLsAreInjective | src/Reservation.ts:170-184 | Different reservation numbers get different links. |
| Reservations.SearchURLExample | spec/Reservation.spec.ts:111-128 | The test's two links for reservation 1D4433. |
| Reservations.ToDisplayObject | src/Reservation.ts:190-202 | The display object fails exactly for a null number. Otherwise it shows the number, both links, the summary, the flag and both itinerary lists of the reservation. |
| Reservations.Reservation.constructor | src/Reservation.ts:60-64 | A new reservation holds the given number, date and trains, no history, and is not cancelled. |
| Reservations.Reservation.NewBlank | src/Reservation.ts:38-40 | A blank reservation has the empty number, no date and no trains. |
| Reservations.Reservation.AddOcrText | src/Reservation.ts:66-104 | The object ends in the state `OcrAdd` gives and reports success, or reports its error and is unchanged. |
| Reservations.Reservation.AddEmailMessageBody | src/Reservation.ts:106-137 | The object ends in the state `EmailAdd` gives and reports success, or reports its error and is unchanged. |
| Reservations.Reservation.FileItinerary | src/Reservation.ts:85-103 | The merge steps leave the object in the state `Merge` gives. |
| Reservations.Reservation.Cancel | src/Reservation.ts:186-188 | Sets the cancelled flag and changes nothing else. |
| Reservations.Reservation.SyncEvents | src/Reservation.ts:221-272 | A cancelled reservation deletes every event and creates nothing. Otherwise it creates exactly `Uncovered` and deletes exactly `Unclaimed(Claims)`. |
| Reservations.Reservation.UnmatchedTrains | src/Reservation.ts:235-248 | The nested loops with early exit compute `Uncovered`. |
| Reservations.Reservation.UnclaimedEvents | src/Reservation.ts:250-271 | The event loop with its claimed-flag array computes `Unclaimed(Claims)`. |
| Reservations.Reservation.ClaimFirstFree | src/Reservation.ts:257-266 | The inner loop finds the claim `FirstFree` gives and sets the flag of exactly that train. |
| ReservationCollections.KeyOf | src/ReservationCollection.ts:13-23 | A number is stored under itself, and a null number under "null". |
| ReservationCollections.EnumerationOrderProperties | src/ReservationCollection.ts:69-76 | `for...in` visits each key as often as it was added. Array-index keys come before all other keys, in ascending numeric order. |
| ReservationCollections.NamedKeyIsVisitedLast | src/ReservationCollection.ts:69-76 | A newly added key that is not an array index is visited last. |
| ReservationCollections.InsertionOrderWithoutIndexKeys | src/ReservationCollection.ts:69-76 | Without array-index keys, the visiting order is insertion order. |
| ReservationCollections.AddTouchesOnlyItsNumber | src/ReservationCollection.ts:13-38 | An add succeeds exactly when the reservation of its number (or a blank one) accepts the snapshot. It adds at most its own key, removes none, and leaves every other entry unchanged. |
| ReservationCollections.TicketWithoutNumberIsRefused | src/ReservationCollection.ts:13-23 | A ticket without a number is refused, so OCR never files under "null". |
| ReservationCollections.FirstSnapshotIsFiled | src/ReservationCollection.ts:20-37 | The first snapshot of a new number becomes a reservation with that number and just that itinerary. A ticket needs a number for this; an e-mail does not. |
| ReservationCollections.EmailWithoutNumberBreaksDisplay | src/ReservationCollection.ts:25-52 | An e-mail without a number is filed under "null", after which showing the collection fails. |
| ReservationCollections.CancelIn | src/ReservationCollection.ts:40-44 | Cancel keeps the key set, cancels the entry of its number if there is one, and changes no other entry. |
| ReservationCollections.DisplayFailsOnNullNumber | src/ReservationCollection.ts:46-52 | Showing fails, with "not set", exactly when a visited reservation has a null number. |
| ReservationCollections.DisplayFollowsOrder | src/ReservationCollection.ts:46-52 | A successful display holds each visited reservation's display object, in visiting order. |
| ReservationCollections.Render | src/ReservationCollection.ts:46-52 | Every stored reservation, and no other key, is paired with its display object or error. |
| ReservationCollections.VisitFails | src/ReservationCollection.ts:69-76 | The loop fails exactly when a visited key holds an error, and then with one of those errors. |
| ReservationCollections.VisitFollowsOrder | src/ReservationCollection.ts:69-76 | When every visited key is stored, a successful loop yields one object per key, in visiting order. |
| ReservationCollections.VisitErrorPersists | src/ReservationCollection.ts:69-76 | Once a reservation cannot be shown, the keys visited after it do not change the error. |
| ReservationCollections.ShowsEachReservationOnce | src/ReservationCollection.ts:46-76 | A successful display has one entry per reservation and contains every reservation's display object. |
| ReservationCollections.ReservationCollection.constructor | src/ReservationCollection.ts:9-11 | A new collection is empty. |
| ReservationCollections.ReservationCollection.HasReservation | src/ReservationCollection.ts:62-64 | A key is present exactly when it was stored. |
| ReservationCollections.ReservationCollection.AddOcrText | src/ReservationCollection.ts:13-23 | The entries become those `CollectOcr` gives, or stay as they were on an error. The key list grows by the number's key only when a new reservation is stored. |
| ReservationCollections.ReservationCollection.AddEmailMessageBody | src/ReservationCollection.ts:25-38 | The entries become those `CollectEmail` gives, or stay as they were on an error. The key list grows by the number's key only when a new reservation is stored. |
| ReservationCollections.ReservationCollection.Cancel | src/ReservationCollection.ts:40-44 | The entries become those `CancelIn` gives. |
| ReservationCollections.ReservationCollection.ToDisplayObject | src/ReservationCollection.ts:46-52 | Returns `DisplayAll` of the stored reservations over the `for...in` order of the keys. |
| ReservationCollections.ShowEach | src/ReservationCollection.ts:69-76 | The loop with its `push` callback returns `DisplayAll` of the reservations over the given key order: each stored key's object in turn, or the first error. |
| ReservationCollections.TwoReservationsScenario | spec/ReservationCollection.spec.ts:5-84 | An empty collection shows `[]`. After the e-mails of 1D4433 and AEF964 it shows both, the first unchanged and listed first. |

## Left out

- The extractors are not modelled: `getReservationNumber`, `getReservationNumberFromOcrText` (src/Reservation.ts:5-19), `IncompleteTrain.FromGmailMessage`, and the regular expressions of `Train.FromOcrText`. Regular expressions over message text are out of scope, so their results are the inputs of the model's operations.
- `Reservation.FromGmailMessage` and `Reservation.FromOcrText` are not modelled. They only run an extractor and then the constructor or `addEmailMessageBody`, which are modelled.
- The moment library is not modelled: time-zone conversion in the `Train` constructor, date parsing and all formatting (`departString`, `arriveString`, the trains of `toDisplayObject`). Instants are integers, and a display object holds the trains themselves.
- `Train.matchCalendarEvent` and `createCalendarEvent` are not defined in `src/Train.ts`, so the model takes the match predicate as a parameter. `syncEvents` returns the indices to create and delete instead of calling the Calendar API.
- `syncToCalendar` of both classes is not modelled: it fetches the events over the network and hands them to `syncEvents`, which is modelled.
- `departStationName`, `arriveStationName` and `Train.Incomplete` are not defined in `src/Train.ts`. An incomplete train therefore carries its two station names as given.
- A key such as `__proto__` is not modelled: as a plain-object key it would not create an own property. Amtrak reservation numbers are upper-case letters and digits.
- The console logging in `syncEvents` is not modelled.
- Trains.FromParams: where a key is missing the source still builds a train with undefined fields, while the model yields `None`. The callbacks only ever receive the output of `toParams`, which holds every key.
- TzData.StationToTimeZone: its own contract says only that a zone needs a three-character code. What each table gives is stated by the lemmas listed with it.
- Reservations.MergeOrderIsImmaterial: requires distinct timestamps, because for equal timestamps the first snapshot filed stays current, an order-dependent tie-break of the source.
- ReservationCollections.EnumerationOrderProperties: proves the array-index keys ascending but not strictly ascending. Stored keys are distinct anyway.
- EventSync.ConvergedCalendarIsKept: states idempotence for a calendar holding one event per train that matches that train alone. It does not cover a second run after arbitrary events.
