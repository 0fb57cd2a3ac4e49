/** Train legs as the extractors produce them, and the pure helpers of the
    source's `Train` and `IncompleteTrain` classes. Instants are opaque
    integers: the moment library and its time-zone arithmetic are not part
    of this model. */
module Trains {
  import opened Wrappers
  import TzData

  type Instant = int

  /** One directed leg of an itinerary.
      `Complete` is the source's `Train`: train name (usually just the train
      number), origin and destination station codes, reservation number and
      the two instants.
      `Incomplete` is the source's `IncompleteTrain`, built from an e-mail:
      a human-readable name, the reservation number and a departure instant
      only. Its two station names are parsed out of the name by code this
      model does not include, so they are carried as given. */
  datatype Train =
    | Complete(train: string, originStation: string, destinationStation: string,
               reservationNumber: string, depart: Instant, arrive: Instant)
    | Incomplete(name: string, reservationNumber: string, depart: Instant,
                 departName: string, arriveName: string)

  /** The station name a reservation summary shows for where the leg starts:
      the origin code for a complete train (so an OCR itinerary is summarised
      as "NYP -> WAS"), the parsed name for an incomplete one. */
  function DepartStationName(t: Train): string
  {
    match t
    case Complete(_, origin, _, _, _, _) => origin
    case Incomplete(_, _, _, departName, _) => departName
  }

  /** The station name a reservation summary shows for where the leg ends. */
  function ArriveStationName(t: Train): string
  {
    match t
    case Complete(_, _, destination, _, _, _) => destination
    case Incomplete(_, _, _, _, arriveName) => arriveName
  }

  // ---------------------------------------------------------------------
  // The `number` getter: the first run of digits in the train name.

  /** JavaScript's `\d`: an ASCII decimal digit. */
  predicate IsDigit(c: char)
  {
    '0' <= c <= '9'
  }

  /** Where the first digit of `s` is, or `|s|` when it has none. */
  function FirstDigitIndex(s: string): (i: nat)
    ensures i <= |s|
    ensures forall k :: 0 <= k < i ==> !IsDigit(s[k])
    ensures i < |s| ==> IsDigit(s[i])
  {
    if s == [] || IsDigit(s[0]) then 0 else 1 + FirstDigitIndex(s[1..])
  }

  /** The longest prefix of `s` made only of digits. */
  function DigitPrefix(s: string): (run: string)
    ensures |run| <= |s| && run == s[..|run|]
    ensures forall k :: 0 <= k < |run| ==> IsDigit(run[k])
    ensures |run| < |s| ==> !IsDigit(s[|run|])
  {
    if s == [] || !IsDigit(s[0]) then "" else [s[0]] + DigitPrefix(s[1..])
  }

  /** The train number inside a train name, like "123" in
      "Amtrak 123: Foo - Bar"; the empty string when there is no digit. */
  function Number(trainName: string): (number: string)
    ensures |number| <= |trainName|
    ensures forall k :: 0 <= k < |number| ==> IsDigit(number[k])
  {
    DigitPrefix(trainName[FirstDigitIndex(trainName)..])
  }

  /** `Number` is the regular expression `\d+`'s first match: the digits
      begin at the first digit of the name, the run is maximal, and the
      result is empty exactly when the name has no digit. */
  lemma NumberIsFirstDigitRun(trainName: string)
    ensures var start, number := FirstDigitIndex(trainName), Number(trainName);
      && (forall k :: 0 <= k < start ==> !IsDigit(trainName[k]))
      && start + |number| <= |trainName|
      && number == trainName[start..start + |number|]
      && (forall k :: 0 <= k < |number| ==> IsDigit(number[k]))
      && (start + |number| < |trainName| ==> !IsDigit(trainName[start + |number|]))
      && (number == "" <==> forall k :: 0 <= k < |trainName| ==> !IsDigit(trainName[k]))
  {
    var start, number := FirstDigitIndex(trainName), Number(trainName);
    var rest := trainName[start..];
    assert number == DigitPrefix(rest);
    assert number == rest[..|number|];
    assert rest[..|number|] == trainName[start..start + |number|];
    if start < |trainName| {
      assert rest[0] == trainName[start];
      assert number != "";
    }
  }

  /** A name made of a digit-free prefix, a run of digits and a tail that
      does not continue the run has that run as its number. */
  lemma NumberOfDigitRun(prefix: string, digits: string, tail: string)
    requires forall k :: 0 <= k < |prefix| ==> !IsDigit(prefix[k])
    requires digits != [] && forall k :: 0 <= k < |digits| ==> IsDigit(digits[k])
    requires tail != [] ==> !IsDigit(tail[0])
    ensures Number(prefix + digits + tail) == digits
  {
    var name := prefix + digits + tail;
    var start := FirstDigitIndex(name);
    assert name[|prefix|] == digits[0];
    assert start == |prefix|;
    var rest := name[start..];
    assert rest == digits + tail;
    if tail != [] {
      assert rest[|digits|] == tail[0];
    }
    assert DigitPrefix(rest) == rest[..|digits|] == digits;
  }

  lemma NumberExample()
    ensures Number("Amtrak 123: Foo - Bar") == "123"
  {
    NumberOfDigitRun("Amtrak ", "123", ": Foo - Bar");
    assert "Amtrak " + "123" + ": Foo - Bar" == "Amtrak 123: Foo - Bar";
  }

  // ---------------------------------------------------------------------
  // The `description` getter and the time-zone getters.

  /** The calendar title of a complete train: it names the train by its
      number and ends with the route. */
  function Description(t: Train): (title: string)
    requires t.Complete?
    ensures var number, route := Number(t.train), t.originStation + " -> " + t.destinationStation;
      && |title| == 15 + |number| + |route|
      && title[..13] == "Amtrak Train "
      && title[13..13 + |number|] == number
      && title[13 + |number|..15 + |number|] == ": "
      && title[|title| - |route|..] == route
  {
    TitleParts(Number(t.train), t.originStation + " -> " + t.destinationStation);
    "Amtrak Train " + Number(t.train) + ": " + (t.originStation + " -> " + t.destinationStation)
  }

  lemma TitleParts(number: string, route: string)
    ensures var title := "Amtrak Train " + number + ": " + route;
      && |title| == 15 + |number| + |route|
      && title[..13] == "Amtrak Train "
      && title[13..13 + |number|] == number
      && title[13 + |number|..15 + |number|] == ": "
      && title[|title| - |route|..] == route
  {
    var head := "Amtrak Train " + number + ": ";
    assert head[..13] == "Amtrak Train " && head[13..13 + |number|] == number;
    assert (head + route)[..|head|] == head;
  }

  lemma DescriptionExample(depart: Instant, arrive: Instant)
    ensures Description(Complete("123", "WAS", "NYP", "", depart, arrive)) == "Amtrak Train 123: WAS -> NYP"
  {
    assert FirstDigitIndex("123") == 0;
    assert DigitPrefix("123") == "123";
    assert Number("123") == "123";
  }

  /** The zone a complete train departs in: its origin station's, which
      exists exactly when one of the tables lists that station. */
  function DepartTimeZone(t: Train): (zone: Option<string>)
    requires t.Complete?
    ensures zone.Some? <==> TzData.IsListedStation(t.originStation)
    ensures zone.Some? ==> zone.value in TzData.KnownZones
  {
    TzData.ListedStationsHaveZones(t.originStation);
    TzData.StationToTimeZone(t.originStation)
  }

  /** The zone a complete train arrives in: its destination station's,
      which exists exactly when one of the tables lists that station. */
  function ArriveTimeZone(t: Train): (zone: Option<string>)
    requires t.Complete?
    ensures zone.Some? <==> TzData.IsListedStation(t.destinationStation)
    ensures zone.Some? ==> zone.value in TzData.KnownZones
  {
    TzData.ListedStationsHaveZones(t.destinationStation);
    TzData.StationToTimeZone(t.destinationStation)
  }

  /** A Washington to Seattle train leaves in New York's zone and arrives in
      Los Angeles's. */
  lemma TimeZoneExample(t: Train)
    requires t.Complete? && t.originStation == "WAS" && t.destinationStation == "SEA"
    ensures DepartTimeZone(t) == Some("America/New_York")
    ensures ArriveTimeZone(t) == Some("America/Los_Angeles")
  {
    TzData.UsStationZones();
  }

  // ---------------------------------------------------------------------
  // Callback parameters: `toParams` and `FromParams`.

  /** A callback parameter: a string, or an instant that the source writes
      as an ISO-8601 string with its UTC offset (which parses back to the
      same instant, whatever zone it is then shown in). */
  datatype ParamValue = Text(text: string) | Moment(instant: Instant)

  type Params = map<string, ParamValue>

  /** `Train.toParams`: the six fields under the keys `FromParams` reads. */
  function ToParams(t: Train): (params: Params)
    requires t.Complete?
    ensures params.Keys == {"arrive", "depart", "originStation", "destinationStation", "reservationNumber", "trainName"}
  {
    map[
      "arrive" := Moment(t.arrive),
      "depart" := Moment(t.depart),
      "originStation" := Text(t.originStation),
      "destinationStation" := Text(t.destinationStation),
      "reservationNumber" := Text(t.reservationNumber),
      "trainName" := Text(t.train)
    ]
  }

  /** `IncompleteTrain.toParams`: departure, name and reservation number. */
  function IncompleteToParams(t: Train): (params: Params)
    requires t.Incomplete?
    ensures params.Keys == {"depart", "name", "reservationNumber"}
  {
    map[
      "depart" := Moment(t.depart),
      "name" := Text(t.name),
      "reservationNumber" := Text(t.reservationNumber)
    ]
  }

  /** The parameters of an incomplete train identify its departure, name
      and reservation number. */
  lemma IncompleteParamsIdentifyTrain(a: Train, b: Train)
    requires a.Incomplete? && b.Incomplete?
    ensures IncompleteToParams(a) == IncompleteToParams(b) <==>
      a.depart == b.depart && a.name == b.name && a.reservationNumber == b.reservationNumber
  {
    if IncompleteToParams(a) == IncompleteToParams(b) {
      assert IncompleteToParams(a)["depart"] == IncompleteToParams(b)["depart"];
      assert IncompleteToParams(a)["name"] == IncompleteToParams(b)["name"];
      assert IncompleteToParams(a)["reservationNumber"] == IncompleteToParams(b)["reservationNumber"];
    }
  }

  predicate HasText(params: Params, key: string)
  {
    key in params && params[key].Text?
  }

  predicate HasMoment(params: Params, key: string)
  {
    key in params && params[key].Moment?
  }

  /** `Train.FromParams`: rebuilds a complete train from the keys
      `trainName`, `originStation`, `destinationStation`,
      `reservationNumber`, `depart` and `arrive`. Where the source would
      read `undefined` for a missing key, the model yields `None`. */
  function FromParams(params: Params): (t: Option<Train>)
    ensures t.Some? <==>
      && HasText(params, "trainName") && HasText(params, "originStation")
      && HasText(params, "destinationStation") && HasText(params, "reservationNumber")
      && HasMoment(params, "depart") && HasMoment(params, "arrive")
    ensures t.Some? ==> t.value.Complete?
  {
    if && HasText(params, "trainName") && HasText(params, "originStation")
       && HasText(params, "destinationStation") && HasText(params, "reservationNumber")
       && HasMoment(params, "depart") && HasMoment(params, "arrive")
    then
      Some(Complete(params["trainName"].text, params["originStation"].text,
                    params["destinationStation"].text, params["reservationNumber"].text,
                    params["depart"].instant, params["arrive"].instant))
    else None
  }

  /** The documented round trip: rebuilding a complete train from its
      parameters gives back the same train. */
  lemma ParamsRoundTrip(t: Train)
    requires t.Complete?
    ensures FromParams(ToParams(t)) == Some(t)
  {
  }

  /** The same round trip does not hold for an incomplete train: its
      parameters lack the train name and both station codes. */
  lemma IncompleteParamsDoNotRoundTrip(t: Train)
    requires t.Incomplete?
    ensures FromParams(IncompleteToParams(t)) == None
  {
    assert !HasText(IncompleteToParams(t), "trainName");
  }

  // ---------------------------------------------------------------------
  // `Train.FromOcrText`: the accumulation loop over the ticket's matches.

  /** One match of the ticket regular expression: train number, year,
      the "(Sun Nov 25)" date string and the two times of day. */
  datatype OcrMatch = OcrMatch(trainNumber: string, year: string, dateString: string,
                               departureString: string, arrivalString: string)

  /** The local date-time text the source hands to the moment parser. */
  function LocalTimeText(m: OcrMatch, timeOfDay: string): string
  {
    m.dateString + " " + m.year + " " + timeOfDay
  }

  /** The legs of one ticket. `stations` is the ticket's "XXX YYY
      Round-Trip|One-Way" pair, `None` when it is absent; `reservationNumber`
      is the ticket's number if found; `matches` are the successive matches
      of the train regular expression; `parseLocal` stands for moment's
      parsing of a local time in a zone. The first leg runs as printed,
      every later leg the other way, and all legs carry one reservation
      number ("" when the ticket has none). */
  method FromOcrText(stations: Option<(string, string)>, reservationNumber: Option<string>,
                     matches: seq<OcrMatch>, parseLocal: (string, Option<string>) -> Instant)
    returns (trains: seq<Train>)
    ensures stations.None? ==> trains == []
    ensures stations.Some? ==> |trains| == |matches|
    ensures forall i :: 0 <= i < |trains| ==>
      && trains[i].Complete?
      && trains[i].train == matches[i].trainNumber
      && trains[i].reservationNumber == (if reservationNumber.Some? then reservationNumber.value else "")
      && trains[i].depart == parseLocal(LocalTimeText(matches[i], matches[i].departureString),
                                        TzData.StationToTimeZone(trains[i].originStation))
      && trains[i].arrive == parseLocal(LocalTimeText(matches[i], matches[i].arrivalString),
                                        TzData.StationToTimeZone(trains[i].destinationStation))
    ensures 0 < |trains| ==>
      trains[0].originStation == stations.value.0 && trains[0].destinationStation == stations.value.1
    ensures forall i :: 0 < i < |trains| ==>
      trains[i].originStation == stations.value.1 && trains[i].destinationStation == stations.value.0
  {
    if stations.None? {
      return [];
    }
    var (originStation, destinationStation) := stations.value;
    var number := "";
    if reservationNumber.Some? {
      number := reservationNumber.value;
    }
    trains := [];
    var firstMatch := true;
    var next := 0;
    while next < |matches|
      invariant 0 <= next <= |matches| && |trains| == next
      invariant firstMatch <==> next == 0
      invariant forall i :: 0 <= i < |trains| ==>
        && trains[i].Complete?
        && trains[i].train == matches[i].trainNumber
        && trains[i].reservationNumber == number
        && trains[i].originStation == (if i == 0 then originStation else destinationStation)
        && trains[i].destinationStation == (if i == 0 then destinationStation else originStation)
        && trains[i].depart == parseLocal(LocalTimeText(matches[i], matches[i].departureString),
                                          TzData.StationToTimeZone(trains[i].originStation))
        && trains[i].arrive == parseLocal(LocalTimeText(matches[i], matches[i].arrivalString),
                                          TzData.StationToTimeZone(trains[i].destinationStation))
    {
      var m := matches[next];
      var origin, destination := originStation, destinationStation;
      if !firstMatch {
        // The return trip has the stations reversed.
        origin, destination := destinationStation, originStation;
      }
      firstMatch := false;
      var departureTime := parseLocal(LocalTimeText(m, m.departureString), TzData.StationToTimeZone(origin));
      var arrivalTime := parseLocal(LocalTimeText(m, m.arrivalString), TzData.StationToTimeZone(destination));
      trains := trains + [Complete(m.trainNumber, origin, destination, number, departureTime, arrivalTime)];
      next := next + 1;
    }
  }
}
