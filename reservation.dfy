/** The source's `Reservation`: one Amtrak reservation, identified by its
    reservation number, holding the current itinerary, the itineraries it
    replaced, and whether it was cancelled.

    The extractors that read a reservation number and an itinerary out of
    an e-mail body or out of OCR text are not part of this model: their
    outputs are the inputs of the operations here. */
module Reservations {
  import opened Wrappers
  import opened Trains
  import EventSync

  /** The errors the source throws. */
  datatype Error =
    | NullReservationNumber      // addOcrText found no reservation number
    | ReservationNumberMismatch  // the parsed number is not the stored one
    | ReservationNumberNotSet    // a search URL of a reservation whose number is null

  /** The fields of a reservation. `date` is the timestamp of the message the
      current itinerary came from; `None` is the source's `null`. */
  datatype ReservationState = ReservationState(
    reservationNumber: Option<string>,
    date: Option<Instant>,
    trains: seq<Train>,
    rescheduledTrains: seq<seq<Train>>,
    isCancelled: bool)

  /** `Reservation.NewBlank()`. */
  function Blank(): ReservationState
  {
    ReservationState(Some(""), None, [], [], false)
  }

  // ---------------------------------------------------------------------
  // Merging an itinerary: later timestamp wins, the loser goes to history,
  // an equal timestamp keeps the incumbent.

  /** An itinerary dated `date` becomes current: none is filed yet, or it is
      strictly newer than the current one. */
  predicate Supersedes(current: Option<Instant>, date: Instant)
  {
    current.None? || current.value < date
  }

  /** The non-empty itineraries a reservation holds, current and older,
      counted with multiplicity. */
  function Itineraries(s: ReservationState): multiset<seq<Train>>
  {
    (multiset(s.rescheduledTrains) + multiset{s.trains})[[] := 0]
  }

  /** Every reservation the program builds has this shape: until the first
      itinerary is filed there is neither a current nor an older one. */
  predicate WellFormed(s: ReservationState)
  {
    s.date.None? ==> s.trains == [] && s.rescheduledTrains == []
  }

  /** The merge both adds perform once the reservation number is settled. */
  function Merge(s: ReservationState, date: Instant, trains: seq<Train>): (r: ReservationState)
    ensures r.reservationNumber == s.reservationNumber && r.isCancelled == s.isCancelled
    ensures r.date.Some? && (s.date.Some? ==> s.date.value <= r.date.value) && date <= r.date.value
    ensures r.date.value == date || r.date == s.date
    ensures r.trains == if Supersedes(s.date, date) then trains else s.trains
    ensures s.rescheduledTrains <= r.rescheduledTrains && |r.rescheduledTrains| <= |s.rescheduledTrains| + 1
    // The first itinerary is never archived; a superseded current itinerary
    // is archived only when it holds trains; an older snapshot is always
    // archived, even when empty.
    ensures s.date.None? ==> r.rescheduledTrains == s.rescheduledTrains
    ensures s.date.Some? && s.date.value < date ==>
      r.rescheduledTrains == s.rescheduledTrains + (if s.trains == [] then [] else [s.trains])
    ensures s.date.Some? && date <= s.date.value ==> r.rescheduledTrains == s.rescheduledTrains + [trains]
    ensures WellFormed(s) ==> WellFormed(r) && Itineraries(r) == Itineraries(s) + multiset{trains}[[] := 0]
  {
    if s.date.None? then
      s.(date := Some(date), trains := trains)
    else if s.date.value < date then
      var history := if |s.trains| != 0 then s.rescheduledTrains + [s.trains] else s.rescheduledTrains;
      ArchiveKeepsItineraries(s.rescheduledTrains, s.trains, trains);
      s.(date := Some(date), rescheduledTrains := history, trains := trains)
    else
      AppendKeepsItineraries(s.rescheduledTrains, s.trains, trains);
      s.(rescheduledTrains := s.rescheduledTrains + [trains])
  }

  /** Archiving the current itinerary (when it holds trains) and making a
      newer one current adds just the newer one to the itineraries held. */
  lemma ArchiveKeepsItineraries(history: seq<seq<Train>>, current: seq<Train>, newer: seq<Train>)
    ensures var archived := if |current| != 0 then history + [current] else history;
      (multiset(archived) + multiset{newer})[[] := 0]
      == (multiset(history) + multiset{current})[[] := 0] + multiset{newer}[[] := 0]
  {
    if |current| != 0 {
      assert multiset(history + [current]) == multiset(history) + multiset{current};
    }
  }

  /** Appending an older itinerary to the history adds just that one to the
      itineraries held. */
  lemma AppendKeepsItineraries(history: seq<seq<Train>>, current: seq<Train>, older: seq<Train>)
    ensures (multiset(history + [older]) + multiset{current})[[] := 0]
      == (multiset(history) + multiset{current})[[] := 0] + multiset{older}[[] := 0]
  {
    assert multiset(history + [older]) == multiset(history) + multiset{older};
  }

  /** `addOcrText`, given the reservation number read from the ticket
      (`None` when there is none) and the itinerary read from it. A blank or
      null stored number adopts the parsed one; a different stored number is
      an error, and so is a ticket without a number. */
  function OcrAdd(s: ReservationState, date: Instant, parsed: Option<string>, trains: seq<Train>)
    : (r: Result<ReservationState, Error>)
    ensures r == Err(NullReservationNumber) <==> parsed.None?
    ensures r == Err(ReservationNumberMismatch) <==>
              parsed.Some? && s.reservationNumber != None && s.reservationNumber != Some("")
              && s.reservationNumber != parsed
    ensures r.Ok? <==>
              parsed.Some? && (s.reservationNumber.None? || s.reservationNumber == Some("") || s.reservationNumber == parsed)
    ensures r.Ok? ==> r.value == Merge(s.(reservationNumber := parsed), date, trains)
  {
    if parsed.None? then Err(NullReservationNumber)
    else
      var number := if s.reservationNumber == Some("") || s.reservationNumber.None? then parsed else s.reservationNumber;
      if number != parsed then Err(ReservationNumberMismatch)
      else Ok(Merge(s.(reservationNumber := number), date, trains))
  }

  /** `addEmailMessageBody`, given the reservation number read from the
      message (`None` when there is none) and the itinerary read from it.
      Only a blank stored number adopts the parsed one, which may be null;
      any other difference, null included, is an error. */
  function EmailAdd(s: ReservationState, date: Instant, parsed: Option<string>, trains: seq<Train>)
    : (r: Result<ReservationState, Error>)
    ensures r.Err? <==> s.reservationNumber != Some("") && s.reservationNumber != parsed
    ensures r.Err? ==> r.error == ReservationNumberMismatch
    ensures r.Ok? ==> r.value == Merge(s.(reservationNumber := parsed), date, trains)
  {
    var number := if s.reservationNumber == Some("") then parsed else s.reservationNumber;
    if number != parsed then Err(ReservationNumberMismatch)
    else Ok(Merge(s.(reservationNumber := number), date, trains))
  }

  /** Once a reservation holds a non-blank number, every add that succeeds
      keeps it, and a snapshot carrying another number is refused without
      touching anything. */
  lemma NumberIsStable(s: ReservationState, date: Instant, parsed: Option<string>, trains: seq<Train>)
    requires s.reservationNumber.Some? && s.reservationNumber != Some("")
    ensures OcrAdd(s, date, parsed, trains).Ok? ==>
              OcrAdd(s, date, parsed, trains).value.reservationNumber == s.reservationNumber
    ensures EmailAdd(s, date, parsed, trains).Ok? ==>
              EmailAdd(s, date, parsed, trains).value.reservationNumber == s.reservationNumber
    ensures parsed != s.reservationNumber ==>
              OcrAdd(s, date, parsed, trains).Err? && EmailAdd(s, date, parsed, trains).Err?
  {
  }

  /** Two snapshots with different timestamps, the older one holding trains,
      leave the same reservation whichever is filed first: the newer
      itinerary is current and the older one is the last in history. */
  lemma TwoSnapshotsCommute(s: ReservationState, older: Instant, olderTrains: seq<Train>,
                            newer: Instant, newerTrains: seq<Train>)
    requires s.date.None? && older < newer && olderTrains != []
    ensures Merge(Merge(s, older, olderTrains), newer, newerTrains)
         == Merge(Merge(s, newer, newerTrains), older, olderTrains)
    ensures Merge(Merge(s, older, olderTrains), newer, newerTrains)
         == s.(date := Some(newer), trains := newerTrains,
               rescheduledTrains := s.rescheduledTrains + [olderTrains])
  {
  }

  /** With an empty older itinerary the order shows: filed first it leaves
      no trace, filed second it is kept in history. */
  lemma EmptyOlderItineraryShowsOrder(s: ReservationState, older: Instant, newer: Instant, newerTrains: seq<Train>)
    requires s.date.None? && older < newer
    ensures Merge(Merge(s, older, []), newer, newerTrains).rescheduledTrains == s.rescheduledTrains
    ensures Merge(Merge(s, newer, newerTrains), older, []).rescheduledTrains == s.rescheduledTrains + [[]]
  {
  }

  // ---------------------------------------------------------------------
  // A reservation built from a sequence of snapshots.

  /** One message's worth of itinerary: its timestamp and its trains. */
  datatype Snapshot = Snapshot(date: Instant, trains: seq<Train>)

  /** The snapshots merged in order, oldest call first. */
  function MergeAll(s: ReservationState, snapshots: seq<Snapshot>): ReservationState
  {
    if snapshots == [] then s
    else
      var last := snapshots[|snapshots| - 1];
      Merge(MergeAll(s, snapshots[..|snapshots| - 1]), last.date, last.trains)
  }

  /** The latest timestamp among the snapshots. */
  function LatestDate(snapshots: seq<Snapshot>): (latest: Instant)
    requires snapshots != []
    ensures forall k :: 0 <= k < |snapshots| ==> snapshots[k].date <= latest
    ensures exists k :: 0 <= k < |snapshots| && snapshots[k].date == latest
  {
    var last := snapshots[|snapshots| - 1];
    if |snapshots| == 1 then last.date
    else
      var earlier := LatestDate(snapshots[..|snapshots| - 1]);
      if earlier < last.date then last.date else earlier
  }

  /** The first snapshot that carries the latest timestamp. */
  function FirstLatest(snapshots: seq<Snapshot>): (i: nat)
    requires snapshots != []
    ensures i < |snapshots| && snapshots[i].date == LatestDate(snapshots)
    ensures forall k :: 0 <= k < i ==> snapshots[k].date < LatestDate(snapshots)
  {
    var last := |snapshots| - 1;
    if last == 0 then 0
    else
      var earlier := FirstLatest(snapshots[..last]);
      if LatestDate(snapshots[..last]) < snapshots[last].date then last else earlier
  }

  /** The itineraries of the snapshots, with multiplicity. */
  function SnapshotItineraries(snapshots: seq<Snapshot>): multiset<seq<Train>>
  {
    if snapshots == [] then multiset{}
    else
      SnapshotItineraries(snapshots[..|snapshots| - 1]) + multiset{snapshots[|snapshots| - 1].trains}
  }

  /** Filing snapshots into a reservation that has none yet: the reservation
      ends up dated by the latest timestamp, shows the itinerary of the first
      snapshot with that timestamp, and every non-empty itinerary filed is
      kept, current or in history. */
  lemma MergeAllOutcome(s: ReservationState, snapshots: seq<Snapshot>)
    requires s.date.None? && WellFormed(s) && snapshots != []
    ensures var r := MergeAll(s, snapshots);
      && r.date == Some(LatestDate(snapshots))
      && r.trains == snapshots[FirstLatest(snapshots)].trains
      && Itineraries(r) == SnapshotItineraries(snapshots)[[] := 0]
      && r.reservationNumber == s.reservationNumber && r.isCancelled == s.isCancelled
  {
    MergeAllCurrent(s, snapshots);
    MergeAllKeeps(s, snapshots);
    assert Itineraries(s) == multiset{};
  }

  lemma {:induction false} MergeAllCurrent(s: ReservationState, snapshots: seq<Snapshot>)
    requires s.date.None? && snapshots != []
    ensures var r := MergeAll(s, snapshots);
      && r.date == Some(LatestDate(snapshots))
      && r.trains == snapshots[FirstLatest(snapshots)].trains
      && r.reservationNumber == s.reservationNumber && r.isCancelled == s.isCancelled
  {
    var last := |snapshots| - 1;
    if last == 0 {
      assert snapshots[..last] == [];
    } else {
      MergeAllCurrent(s, snapshots[..last]);
    }
  }

  lemma {:induction false} MergeAllKeeps(s: ReservationState, snapshots: seq<Snapshot>)
    requires WellFormed(s)
    ensures var r := MergeAll(s, snapshots);
      WellFormed(r) && Itineraries(r) == Itineraries(s) + SnapshotItineraries(snapshots)[[] := 0]
  {
    if snapshots != [] {
      var front, x := snapshots[..|snapshots| - 1], snapshots[|snapshots| - 1];
      MergeAllKeeps(s, front);
      WithoutEmptySum(SnapshotItineraries(front), multiset{x.trains});
    }
  }

  lemma WithoutEmptySum(a: multiset<seq<Train>>, b: multiset<seq<Train>>)
    ensures (a + b)[[] := 0] == a[[] := 0] + b[[] := 0]
  {
  }

  /** Filing the same snapshots in any order yields the same current
      itinerary, date and kept itineraries, as long as no two snapshots share
      a timestamp. */
  lemma MergeOrderIsImmaterial(s: ReservationState, snapshots: seq<Snapshot>, reordered: seq<Snapshot>)
    requires s.date.None? && WellFormed(s) && snapshots != []
    requires multiset(snapshots) == multiset(reordered)
    requires forall a, b :: 0 <= a < b < |snapshots| ==> snapshots[a].date != snapshots[b].date
    ensures var r, q := MergeAll(s, snapshots), MergeAll(s, reordered);
      r.date == q.date && r.trains == q.trains && Itineraries(r) == Itineraries(q)
  {
    assert reordered != [] by {
      assert snapshots[0] in multiset(reordered);
    }
    MergeAllOutcome(s, snapshots);
    MergeAllOutcome(s, reordered);
    var i, j := FirstLatest(snapshots), FirstLatest(reordered);
    assert snapshots[i] in multiset(reordered);
    assert reordered[j] in multiset(snapshots);
    var i' :| 0 <= i' < |reordered| && reordered[i'] == snapshots[i];
    var j' :| 0 <= j' < |snapshots| && snapshots[j'] == reordered[j];
    assert LatestDate(snapshots) == LatestDate(reordered);
    assert j' == i;
    SnapshotItinerariesOfPermutation(snapshots, reordered);
  }

  lemma {:induction false} SnapshotItinerariesOfPermutation(snapshots: seq<Snapshot>, reordered: seq<Snapshot>)
    requires multiset(snapshots) == multiset(reordered)
    ensures SnapshotItineraries(snapshots) == SnapshotItineraries(reordered)
    decreases |snapshots|
  {
    if snapshots != [] {
      var last := |snapshots| - 1;
      var x := snapshots[last];
      assert x in multiset(reordered);
      var k :| 0 <= k < |reordered| && reordered[k] == x;
      var rest := reordered[..k] + reordered[k + 1..];
      assert reordered == reordered[..k] + [x] + reordered[k + 1..];
      assert snapshots == snapshots[..last] + [x];
      assert multiset(snapshots) == multiset(snapshots[..last]) + multiset{x};
      assert multiset(reordered) == multiset(reordered[..k]) + multiset{x} + multiset(reordered[k + 1..]);
      assert multiset(rest) == multiset(reordered[..k]) + multiset(reordered[k + 1..]);
      assert multiset(snapshots[..last]) == multiset(snapshots) - multiset{x};
      assert multiset(rest) == multiset(reordered) - multiset{x};
      SnapshotItinerariesOfPermutation(snapshots[..last], rest);
      SnapshotItinerariesRemove(reordered[..k], x, reordered[k + 1..]);
    } else {
      assert reordered == [] by {
        assert |multiset(reordered)| == 0;
      }
    }
  }

  lemma {:induction false} SnapshotItinerariesRemove(front: seq<Snapshot>, y: Snapshot, back: seq<Snapshot>)
    ensures SnapshotItineraries(front + [y] + back) == SnapshotItineraries(front + back) + multiset{y.trains}
    decreases |back|
  {
    if back == [] {
      assert front + [y] + back == front + [y];
      assert front + back == front;
      SnapshotItinerariesAppend(front, y);
    } else {
      var earlier, z := back[..|back| - 1], back[|back| - 1];
      assert front + [y] + back == (front + [y] + earlier) + [z];
      assert front + back == (front + earlier) + [z];
      SnapshotItinerariesRemove(front, y, earlier);
      SnapshotItinerariesAppend(front + [y] + earlier, z);
      SnapshotItinerariesAppend(front + earlier, z);
    }
  }

  lemma SnapshotItinerariesAppend(snapshots: seq<Snapshot>, x: Snapshot)
    ensures SnapshotItineraries(snapshots + [x]) == SnapshotItineraries(snapshots) + multiset{x.trains}
  {
    assert (snapshots + [x])[..|snapshots|] == snapshots;
  }

  // ---------------------------------------------------------------------
  // Summary and search links.

  /** The two legs of a two-train itinerary go out and come straight back. */
  predicate IsRoundTrip(trains: seq<Train>)
  {
    |trains| == 2
    && DepartStationName(trains[0]) == ArriveStationName(trains[1])
    && DepartStationName(trains[1]) == ArriveStationName(trains[0])
  }

  /** `description()`: "(no trains)" exactly for an empty itinerary;
      otherwise "A -> B" from the first departure to the final arrival,
      marked one-way for a single train, and for a round trip naming the
      turning point instead. */
  function Description(trains: seq<Train>): (d: string)
    ensures d == "(no trains)" <==> trains == []
    ensures trains != [] ==>
      var from := DepartStationName(trains[0]) + " -> ";
      |from| <= |d| && d[..|from|] == from
    ensures |trains| == 1 ==>
      var to := ArriveStationName(trains[0]) + " (one-way)";
      |d| == |DepartStationName(trains[0]) + " -> "| + |to| && d[|d| - |to|..] == to
    ensures IsRoundTrip(trains) ==>
      var to := ArriveStationName(trains[0]) + " (round trip)";
      |d| == |DepartStationName(trains[0]) + " -> "| + |to| && d[|d| - |to|..] == to
    ensures |trains| >= 2 && !IsRoundTrip(trains) ==>
      var to := ArriveStationName(trains[|trains| - 1]);
      |d| == |DepartStationName(trains[0]) + " -> "| + |to| && d[|d| - |to|..] == to
  {
    if |trains| == 0 then "(no trains)"
    else
      var first := trains[0];
      var route :=
        if |trains| == 1 then ArriveStationName(first) + " (one-way)"
        else if IsRoundTrip(trains) then ArriveStationName(first) + " (round trip)"
        else ArriveStationName(trains[|trains| - 1]);
      var d := DepartStationName(first) + " -> " + route;
      assert d[|DepartStationName(first)| + 2] == '>';
      assert forall k :: 0 <= k < 11 ==> "(no trains)"[k] != '>';
      d
  }

  /** The summaries of the test's e-mail itineraries of one, two and three
      trains: a one-way trip, and two trips that do not come back, each
      summarised from the first departure to the final arrival. */
  lemma DescriptionExamples(a: Train, b: Train, c: Train)
    requires a == Incomplete("Train 173: NEW YORK (PENN STATION), NY - WASHINGTON, DC", "", 0,
                             "NEW YORK (PENN STATION), NY", "WASHINGTON, DC")
    requires b == Incomplete("Train 158: WASHINGTON, DC - PHILADELPHIA", "", 1, "WASHINGTON, DC", "PHILADELPHIA")
    requires c == Incomplete("Train 158: PHILADELPHIA - SEATTLE", "", 1, "PHILADELPHIA", "SEATTLE")
    ensures Description([a]) == "NEW YORK (PENN STATION), NY" + " -> " + "WASHINGTON, DC" + " (one-way)"
    ensures Description([a, b]) == "NEW YORK (PENN STATION), NY" + " -> " + "PHILADELPHIA"
    ensures Description([a, b, c]) == "NEW YORK (PENN STATION), NY" + " -> " + "SEATTLE"
  {
    OneWayDescription(a);
    assert a.departName[0] != b.arriveName[0];
    TwoLegDescription(a, b);
  }

  lemma OneWayDescription(t: Train)
    ensures Description([t]) == DepartStationName(t) + " -> " + ArriveStationName(t) + " (one-way)"
  {
  }

  lemma TwoLegDescription(t: Train, u: Train)
    requires DepartStationName(t) != ArriveStationName(u)
    ensures Description([t, u]) == DepartStationName(t) + " -> " + ArriveStationName(u)
  {
    assert !IsRoundTrip([t, u]);
  }

  /** An OCR itinerary out and back is summarised by station codes. */
  lemma RoundTripExample(out: Train, back: Train)
    requires out.Complete? && out.originStation == "NYP" && out.destinationStation == "WAS"
    requires back.Complete? && back.originStation == "WAS" && back.destinationStation == "NYP"
    ensures Description([out, back]) == "NYP -> WAS (round trip)"
  {
  }

  /** `checkReservationNumber`: a null number is an error. */
  function CheckReservationNumber(reservationNumber: Option<string>): (r: Result<string, Error>)
    ensures r.Ok? <==> reservationNumber.Some?
    ensures r.Ok? ==> r.value == reservationNumber.value
    ensures r.Err? ==> r.error == ReservationNumberNotSet
  {
    match reservationNumber
    case None => Err(ReservationNumberNotSet)
    case Some(n) => Ok(n)
  }

  const CalendarSearchPrefix := "https://calendar.google.com/calendar/r/search?q=amtrak2calendar%20"
  const GmailSearchPrefix := "https://mail.google.com/mail/u/0/#search/amtrak+"

  /** `calendarSearchURL()`: a Calendar search for the reservation number,
      which reads back off the end of the link; an error for a null number. */
  function CalendarSearchURL(reservationNumber: Option<string>): (url: Result<string, Error>)
    ensures url.Err? <==> reservationNumber.None?
    ensures url.Err? ==> url.error == ReservationNumberNotSet
    ensures url.Ok? ==> |CalendarSearchPrefix| <= |url.value|
                        && url.value[..|CalendarSearchPrefix|] == CalendarSearchPrefix
                        && url.value[|CalendarSearchPrefix|..] == reservationNumber.value
  {
    match CheckReservationNumber(reservationNumber)
    case Err(e) => Err(e)
    case Ok(n) => Ok(CalendarSearchPrefix + n)
  }

  /** `gmailSearchURL()`: a Gmail search for the reservation number, which
      reads back off the end of the link; an error for a null number. */
  function GmailSearchURL(reservationNumber: Option<string>): (url: Result<string, Error>)
    ensures url.Err? <==> reservationNumber.None?
    ensures url.Err? ==> url.error == ReservationNumberNotSet
    ensures url.Ok? ==> |GmailSearchPrefix| <= |url.value|
                        && url.value[..|GmailSearchPrefix|] == GmailSearchPrefix
                        && url.value[|GmailSearchPrefix|..] == reservationNumber.value
  {
    match CheckReservationNumber(reservationNumber)
    case Err(e) => Err(e)
    case Ok(n) => Ok(GmailSearchPrefix + n)
  }

  /** Different reservations get different links. */
  lemma SearchURLsAreInjective(a: string, b: string)
    requires a != b
    ensures CalendarSearchURL(Some(a)) != CalendarSearchURL(Some(b))
    ensures GmailSearchURL(Some(a)) != GmailSearchURL(Some(b))
  {
    assert CalendarSearchURL(Some(a)).value[|CalendarSearchPrefix|..] == a;
    assert GmailSearchURL(Some(a)).value[|GmailSearchPrefix|..] == a;
  }

  lemma SearchURLExample()
    ensures CalendarSearchURL(Some("1D4433"))
         == Ok("https://calendar.google.com/calendar/r/search?q=amtrak2calendar%201D4433")
    ensures GmailSearchURL(Some("1D4433")) == Ok("https://mail.google.com/mail/u/0/#search/amtrak+1D4433")
  {
    assert CalendarSearchPrefix + "1D4433"
        == "https://calendar.google.com/calendar/r/search?q=amtrak2calendar%201D4433";
    assert GmailSearchPrefix + "1D4433" == "https://mail.google.com/mail/u/0/#search/amtrak+1D4433";
  }

  /** What `toDisplayObject()` shows of a reservation. The trains are shown
      as they are: their display formatting is not part of this model. */
  datatype Display = Display(
    calendarSearchURL: string,
    description: string,
    gmailSearchURL: string,
    isCancelled: bool,
    reservationNumber: string,
    trains: seq<Train>,
    rescheduledTrains: seq<seq<Train>>)

  /** `toDisplayObject()`: fails, like the two links, when the number is
      null; otherwise shows the reservation's number, summary, links,
      cancellation and both current and older itineraries. */
  function ToDisplayObject(s: ReservationState): (shown: Result<Display, Error>)
    ensures shown.Err? <==> s.reservationNumber.None?
    ensures shown.Err? ==> shown.error == ReservationNumberNotSet
    ensures shown.Ok? ==>
      && Some(shown.value.reservationNumber) == s.reservationNumber
      && Ok(shown.value.calendarSearchURL) == CalendarSearchURL(s.reservationNumber)
      && Ok(shown.value.gmailSearchURL) == GmailSearchURL(s.reservationNumber)
      && shown.value.description == Description(s.trains)
      && shown.value.isCancelled == s.isCancelled
      && shown.value.trains == s.trains && shown.value.rescheduledTrains == s.rescheduledTrains
  {
    match (CalendarSearchURL(s.reservationNumber), GmailSearchURL(s.reservationNumber))
    case (Ok(calendar), Ok(gmail)) =>
      Ok(Display(calendar, Description(s.trains), gmail, s.isCancelled, s.reservationNumber.value,
                 s.trains, s.rescheduledTrains))
    case (Err(e), _) => Err(e)
    case (_, Err(e)) => Err(e)
  }

  // ---------------------------------------------------------------------
  // The reservation object.

  class Reservation {
    var reservationNumber: Option<string>
    var trains: seq<Train>
    var rescheduledTrains: seq<seq<Train>>
    var isCancelled: bool
    var date: Option<Instant>

    /** The object's fields as a value. */
    function State(): ReservationState
      reads this
    {
      ReservationState(reservationNumber, date, trains, rescheduledTrains, isCancelled)
    }

    constructor (reservationNumber: Option<string>, date: Option<Instant>, trains: seq<Train>)
      ensures State() == ReservationState(reservationNumber, date, trains, [], false)
    {
      this.reservationNumber := reservationNumber;
      this.date := date;
      this.trains := trains;
      rescheduledTrains := [];
      isCancelled := false;
    }

    constructor NewBlank()
      ensures State() == Blank()
    {
      reservationNumber := Some("");
      date := None;
      trains := [];
      rescheduledTrains := [];
      isCancelled := false;
    }

    /** Files one OCR'd ticket: settles the reservation number, then merges
        the itinerary. On an error nothing changes. */
    method AddOcrText(snapshotDate: Instant, parsed: Option<string>, itinerary: seq<Train>)
      returns (outcome: Outcome<Error>)
      modifies this
      ensures match OcrAdd(old(State()), snapshotDate, parsed, itinerary)
        case Ok(s) => outcome == Pass && State() == s
        case Err(e) => outcome == Fail(e) && State() == old(State())
    {
      if parsed.None? {
        return Fail(NullReservationNumber);
      }
      if reservationNumber == Some("") || reservationNumber.None? {
        reservationNumber := parsed;
      }
      if reservationNumber != parsed {
        return Fail(ReservationNumberMismatch);
      }
      outcome := Pass;
      FileItinerary(snapshotDate, itinerary);
    }

    /** Files one e-mail message body: settles the reservation number, then
        merges the itinerary. On an error nothing changes. */
    method AddEmailMessageBody(snapshotDate: Instant, parsed: Option<string>, itinerary: seq<Train>)
      returns (outcome: Outcome<Error>)
      modifies this
      ensures match EmailAdd(old(State()), snapshotDate, parsed, itinerary)
        case Ok(s) => outcome == Pass && State() == s
        case Err(e) => outcome == Fail(e) && State() == old(State())
    {
      if reservationNumber == Some("") {
        reservationNumber := parsed;
      }
      if reservationNumber != parsed {
        return Fail(ReservationNumberMismatch);
      }
      outcome := Pass;
      FileItinerary(snapshotDate, itinerary);
    }

    /** The merge steps the two adds share. */
    method FileItinerary(snapshotDate: Instant, itinerary: seq<Train>)
      modifies this
      ensures State() == Merge(old(State()), snapshotDate, itinerary)
    {
      if date.None? {
        date := Some(snapshotDate);
        trains := itinerary;
        return;
      }
      if date.value < snapshotDate {
        date := Some(snapshotDate);
        if |trains| != 0 {
          rescheduledTrains := rescheduledTrains + [trains];
        }
        trains := itinerary;
        return;
      }
      rescheduledTrains := rescheduledTrains + [itinerary];
    }

    /** `cancel()`: marks the reservation cancelled and changes nothing else. */
    method Cancel()
      modifies this
      ensures State() == old(State()).(isCancelled := true)
    {
      isCancelled := true;
    }

    /** `syncEvents`: which trains get a new calendar event and which of the
        reservation's existing events are deleted. A cancelled reservation
        deletes every event and creates none; otherwise pass 1 creates each
        train no event stands for, and pass 2 keeps each event that claims
        the first matching train not claimed before it and deletes the
        rest. */
    method SyncEvents<E>(events: seq<E>, matches: EventSync.Matcher<E>) returns (toCreate: seq<nat>, toDelete: seq<nat>)
      ensures isCancelled ==> toCreate == [] && toDelete == EventSync.Indices(|events|)
      ensures !isCancelled ==> toCreate == EventSync.Uncovered(trains, reservationNumber, events, matches)
      ensures !isCancelled ==>
                toDelete == EventSync.Unclaimed(EventSync.Claims(trains, reservationNumber, events, matches))
    {
      if isCancelled {
        toCreate, toDelete := [], [];
        var j := 0;
        while j < |events|
          invariant j <= |events| && toDelete == EventSync.Indices(j)
        {
          toDelete := toDelete + [j];
          j := j + 1;
        }
        return;
      }
      toCreate := UnmatchedTrains(events, matches);
      toDelete := UnclaimedEvents(events, matches);
    }

    /** Pass 1 of `syncEvents`: for each train in order, look for an event
        that stands for it; the trains without one get created. */
    method UnmatchedTrains<E>(events: seq<E>, matches: EventSync.Matcher<E>) returns (toCreate: seq<nat>)
      ensures toCreate == EventSync.Uncovered(trains, reservationNumber, events, matches)
    {
      toCreate := [];
      var i := 0;
      while i < |trains|
        invariant i <= |trains|
        invariant toCreate == EventSync.Uncovered(trains[..i], reservationNumber, events, matches)
      {
        var matchFound := false;
        var j := 0;
        while j < |events|
          invariant j <= |events|
          invariant !matchFound
          invariant forall k :: 0 <= k < j ==> !matches(trains[i], reservationNumber, events[k])
        {
          if matches(trains[i], reservationNumber, events[j]) {
            matchFound := true;
            break;
          }
          j := j + 1;
        }
        if !matchFound {
          toCreate := toCreate + [i];
        }
        assert trains[..i + 1][..i] == trains[..i];
        i := i + 1;
      }
      assert trains[..i] == trains;
    }

    /** Pass 2 of `syncEvents`: for each event in order, claim the first
        train that it stands for and that no earlier event claimed, marking
        it in a per-train array; the events that claim nothing get
        deleted. */
    method UnclaimedEvents<E>(events: seq<E>, matches: EventSync.Matcher<E>) returns (toDelete: seq<nat>)
      ensures toDelete == EventSync.Unclaimed(EventSync.Claims(trains, reservationNumber, events, matches))
    {
      toDelete := [];
      var trainMatchesByIndex := new bool[|trains|](_ => false);
      ghost var claims: seq<Option<nat>> := [];
      var j := 0;
      while j < |events|
        invariant j <= |events|
        invariant claims == EventSync.Claims(trains, reservationNumber, events[..j], matches)
        invariant toDelete == EventSync.Unclaimed(claims)
        invariant forall k :: 0 <= k < |trains| ==> (trainMatchesByIndex[k] <==> k in EventSync.Taken(claims))
      {
        ghost var taken := EventSync.Taken(claims);
        var matchFound, k := ClaimFirstFree(events[j], matches, trainMatchesByIndex, taken);
        ghost var claim := if matchFound then Some(k) else None;
        EventSync.ClaimsExtend(trains, reservationNumber, events, matches, j);
        EventSync.AppendClaim(claims, claim);
        claims := claims + [claim];
        if !matchFound {
          toDelete := toDelete + [j];
        }
        j := j + 1;
      }
      assert events[..j] == events;
    }

    /** The inner loop of pass 2: scans the trains in index order for the
        first one that stands for event `e` and is not marked yet, and marks
        it. `taken` is the set of marked trains. */
    method ClaimFirstFree<E>(e: E, matches: EventSync.Matcher<E>, trainMatchesByIndex: array<bool>, ghost taken: set<nat>)
      returns (matchFound: bool, k: nat)
      requires trainMatchesByIndex.Length == |trains|
      requires forall m :: 0 <= m < |trains| ==> (trainMatchesByIndex[m] <==> m in taken)
      modifies trainMatchesByIndex
      ensures (if matchFound then Some(k) else None) == EventSync.FirstFree(trains, reservationNumber, e, taken, matches, 0)
      ensures forall m :: 0 <= m < |trains| ==> (trainMatchesByIndex[m] <==> m in taken || (matchFound && m == k))
    {
      matchFound := false;
      k := 0;
      while k < |trains|
        invariant k <= |trains|
        invariant !matchFound
        invariant forall m :: 0 <= m < |trains| ==> (trainMatchesByIndex[m] <==> m in taken)
        invariant EventSync.FirstFree(trains, reservationNumber, e, taken, matches, 0)
               == EventSync.FirstFree(trains, reservationNumber, e, taken, matches, k)
      {
        if matches(trains[k], reservationNumber, e) {
          if !trainMatchesByIndex[k] {
            matchFound := true;
            trainMatchesByIndex[k] := true;
            break;
          }
        }
        k := k + 1;
      }
    }
  }
}
