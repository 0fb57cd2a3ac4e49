/** The source's `ReservationCollection`: the reservations found so far,
    keyed by reservation number. Each snapshot goes to the reservation of
    its number, a reservation is created for a number not seen before, and
    the whole collection is shown entry by entry.

    The dictionary is a plain JavaScript object, so two rules of the
    language show through: a `null` number is stored under the key
    `"null"`, and a `for...in` loop lists the keys that are array indices
    (canonical decimal numbers below 2^32 - 1) first, in ascending numeric
    order, and the other keys after them in the order they were added. */
module ReservationCollections {
  import opened Wrappers
  import opened Trains
  import opened Reservations

  // ---------------------------------------------------------------------
  // Property keys and the order `for...in` lists them in.

  /** The property key a reservation number is stored under: JavaScript
      turns `null` into the string "null". */
  function KeyOf(reservationNumber: Option<string>): (key: string)
    ensures reservationNumber.Some? ==> key == reservationNumber.value
    ensures reservationNumber.None? ==> key == "null"
  {
    match reservationNumber
    case None => "null"
    case Some(n) => n
  }

  /** The value of a decimal digit string. */
  function DecimalValue(s: string): nat
  {
    if s == [] then 0
    else
      var c := s[|s| - 1];
      DecimalValue(s[..|s| - 1]) * 10 + if IsDigit(c) then c as int - '0' as int else 0
  }

  /** A key that is an array index: the canonical decimal form of an integer
      below 2^32 - 1. */
  predicate IsArrayIndex(key: string)
  {
    && key != []
    && (forall i :: 0 <= i < |key| ==> IsDigit(key[i]))
    && (|key| > 1 ==> key[0] != '0')
    && DecimalValue(key) < 0xFFFF_FFFF
  }

  predicate Ascending(keys: seq<string>)
  {
    forall i, j :: 0 <= i < j < |keys| ==> DecimalValue(keys[i]) <= DecimalValue(keys[j])
  }

  /** The array-index keys, in the order they were added. */
  function IndexKeys(keys: seq<string>): (r: seq<string>)
    ensures forall k :: k in r <==> k in keys && IsArrayIndex(k)
  {
    if keys == [] then []
    else
      var earlier := IndexKeys(keys[..|keys| - 1]);
      if IsArrayIndex(keys[|keys| - 1]) then earlier + [keys[|keys| - 1]] else earlier
  }

  /** The other keys, in the order they were added. */
  function NamedKeys(keys: seq<string>): (r: seq<string>)
    ensures forall k :: k in r <==> k in keys && !IsArrayIndex(k)
  {
    if keys == [] then []
    else
      var earlier := NamedKeys(keys[..|keys| - 1]);
      if IsArrayIndex(keys[|keys| - 1]) then earlier else earlier + [keys[|keys| - 1]]
  }

  /** Places `key` into a sequence before its first element of larger
      value. */
  function InsertByValue(key: string, sorted: seq<string>): seq<string>
  {
    if sorted == [] || DecimalValue(key) <= DecimalValue(sorted[0]) then [key] + sorted
    else [sorted[0]] + InsertByValue(key, sorted[1..])
  }

  /** The keys in ascending numeric order, by insertion sort. */
  function SortByValue(keys: seq<string>): seq<string>
  {
    if keys == [] then []
    else InsertByValue(keys[|keys| - 1], SortByValue(keys[..|keys| - 1]))
  }

  lemma {:induction false} InsertByValueKeepsKeys(key: string, sorted: seq<string>)
    ensures multiset(InsertByValue(key, sorted)) == multiset(sorted) + multiset{key}
  {
    if sorted != [] && DecimalValue(sorted[0]) < DecimalValue(key) {
      InsertByValueKeepsKeys(key, sorted[1..]);
      assert sorted == [sorted[0]] + sorted[1..];
    }
  }

  lemma {:induction false} InsertByValueAscends(key: string, sorted: seq<string>)
    requires Ascending(sorted)
    ensures Ascending(InsertByValue(key, sorted))
  {
    if sorted == [] || DecimalValue(key) <= DecimalValue(sorted[0]) {
      PrependAscending(key, sorted);
    } else {
      var rest := InsertByValue(key, sorted[1..]);
      InsertByValueAscends(key, sorted[1..]);
      InsertByValueKeepsKeys(key, sorted[1..]);
      forall k | k in rest
        ensures DecimalValue(sorted[0]) <= DecimalValue(k)
      {
        assert k in multiset(rest);
      }
      PrependAscending(sorted[0], rest);
    }
  }

  lemma PrependAscending(key: string, sorted: seq<string>)
    requires Ascending(sorted)
    requires forall k :: k in sorted ==> DecimalValue(key) <= DecimalValue(k)
    ensures Ascending([key] + sorted)
  {
    var r := [key] + sorted;
    forall i, j | 0 <= i < j < |r|
      ensures DecimalValue(r[i]) <= DecimalValue(r[j])
    {
      assert r[j] == sorted[j - 1];
      if i > 0 {
        assert r[i] == sorted[i - 1];
      }
    }
  }

  /** Insertion sort orders the keys by value and keeps each of them. */
  lemma SortByValueSorts(keys: seq<string>)
    ensures Ascending(SortByValue(keys))
    ensures multiset(SortByValue(keys)) == multiset(keys)
  {
    SortByValueAscends(keys);
    SortByValueKeepsKeys(keys);
  }

  lemma {:induction false} SortByValueAscends(keys: seq<string>)
    ensures Ascending(SortByValue(keys))
  {
    if keys != [] {
      SortByValueAscends(keys[..|keys| - 1]);
      InsertByValueAscends(keys[|keys| - 1], SortByValue(keys[..|keys| - 1]));
    }
  }

  lemma {:induction false} SortByValueKeepsKeys(keys: seq<string>)
    ensures multiset(SortByValue(keys)) == multiset(keys)
  {
    if keys != [] {
      var front, last := keys[..|keys| - 1], keys[|keys| - 1];
      SortByValueKeepsKeys(front);
      InsertByValueKeepsKeys(last, SortByValue(front));
      assert keys == front + [last];
      assert multiset(keys) == multiset(front) + multiset{last};
    }
  }

  /** The order in which `for...in` visits the keys of an object whose keys
      were added in the order `keys`. */
  function EnumerationOrder(keys: seq<string>): seq<string>
  {
    SortByValue(IndexKeys(keys)) + NamedKeys(keys)
  }

  lemma {:induction false} IndexAndNamedKeysSplit(keys: seq<string>)
    ensures multiset(IndexKeys(keys)) + multiset(NamedKeys(keys)) == multiset(keys)
  {
    if keys != [] {
      var front := keys[..|keys| - 1];
      IndexAndNamedKeysSplit(front);
      assert keys == front + [keys[|keys| - 1]];
    }
  }

  /** `for...in` visits every key exactly as often as it was added, the
      array indices first and in ascending numeric order. */
  lemma EnumerationOrderProperties(keys: seq<string>)
    ensures var order := EnumerationOrder(keys);
      && multiset(order) == multiset(keys)
      && (forall i, j :: 0 <= i < j < |order| && !IsArrayIndex(order[i]) ==> !IsArrayIndex(order[j]))
      && (forall i, j :: 0 <= i < j < |order| && IsArrayIndex(order[j]) ==>
            DecimalValue(order[i]) <= DecimalValue(order[j]))
  {
    IndexAndNamedKeysSplit(keys);
    SortByValueSorts(IndexKeys(keys));
    var sorted, named := SortByValue(IndexKeys(keys)), NamedKeys(keys);
    SortedAreIndices(sorted, IndexKeys(keys));
    IndicesBeforeNames(sorted, named);
  }

  lemma SortedAreIndices(sorted: seq<string>, indices: seq<string>)
    requires multiset(sorted) == multiset(indices)
    requires forall k :: k in indices ==> IsArrayIndex(k)
    ensures forall i :: 0 <= i < |sorted| ==> IsArrayIndex(sorted[i])
  {
    forall i | 0 <= i < |sorted|
      ensures IsArrayIndex(sorted[i])
    {
      assert sorted[i] in multiset(indices);
    }
  }

  lemma IndicesBeforeNames(sorted: seq<string>, named: seq<string>)
    requires Ascending(sorted)
    requires forall i :: 0 <= i < |sorted| ==> IsArrayIndex(sorted[i])
    requires forall k :: k in named ==> !IsArrayIndex(k)
    ensures var order := sorted + named;
      && (forall i, j :: 0 <= i < j < |order| && !IsArrayIndex(order[i]) ==> !IsArrayIndex(order[j]))
      && (forall i, j :: 0 <= i < j < |order| && IsArrayIndex(order[j]) ==>
            DecimalValue(order[i]) <= DecimalValue(order[j]))
  {
    var order := sorted + named;
    forall i, j | 0 <= i < j < |order| && IsArrayIndex(order[j])
      ensures DecimalValue(order[i]) <= DecimalValue(order[j])
    {
      if j < |sorted| {
        assert order[i] == sorted[i] && order[j] == sorted[j];
      }
    }
    forall i, j | 0 <= i < j < |order| && !IsArrayIndex(order[i])
      ensures !IsArrayIndex(order[j])
    {
      if i >= |sorted| {
        assert order[j] in named;
      }
    }
  }

  /** A key that is not an array index, added after all the others, is
      visited last: without numeric keys the visiting order is the order
      of insertion. */
  lemma NamedKeyIsVisitedLast(keys: seq<string>, key: string)
    requires !IsArrayIndex(key)
    ensures EnumerationOrder(keys + [key]) == EnumerationOrder(keys) + [key]
  {
    assert (keys + [key])[..|keys|] == keys;
  }

  /** A collection none of whose keys is an array index is visited in
      insertion order. */
  lemma {:induction false} InsertionOrderWithoutIndexKeys(keys: seq<string>)
    requires forall i :: 0 <= i < |keys| ==> !IsArrayIndex(keys[i])
    ensures EnumerationOrder(keys) == keys
  {
    if keys != [] {
      var front := keys[..|keys| - 1];
      InsertionOrderWithoutIndexKeys(front);
      NamedKeyIsVisitedLast(front, keys[|keys| - 1]);
      assert keys == front + [keys[|keys| - 1]];
    }
  }

  // ---------------------------------------------------------------------
  // The collection as a value: each key's reservation state.

  type Registry = map<string, ReservationState>

  /** The reservation a snapshot with this number goes to: the stored one,
      or a blank one when the number is new. */
  function Target(entries: Registry, key: string): ReservationState
  {
    if key in entries then entries[key] else Blank()
  }

  /** Stores the outcome of an add under `key`, or passes its error on. */
  function Store(entries: Registry, key: string, added: Result<ReservationState, Error>): Result<Registry, Error>
  {
    match added
    case Ok(s) => Ok(entries[key := s])
    case Err(e) => Err(e)
  }

  /** `addOcrText` of the collection. */
  function CollectOcr(entries: Registry, date: Instant, parsed: Option<string>, trains: seq<Train>)
    : Result<Registry, Error>
  {
    var key := KeyOf(parsed);
    Store(entries, key, OcrAdd(Target(entries, key), date, parsed, trains))
  }

  /** `addEmailMessageBody` of the collection. */
  function CollectEmail(entries: Registry, date: Instant, parsed: Option<string>, trains: seq<Train>)
    : Result<Registry, Error>
  {
    var key := KeyOf(parsed);
    Store(entries, key, EmailAdd(Target(entries, key), date, parsed, trains))
  }

  /** An add reaches only the entry of its own number: it succeeds exactly
      when that reservation accepts the snapshot, every other entry stays
      as it was, and the only key it can add is its own. */
  lemma AddTouchesOnlyItsNumber(entries: Registry, date: Instant, parsed: Option<string>, trains: seq<Train>)
    ensures var key := KeyOf(parsed);
      && (CollectOcr(entries, date, parsed, trains).Ok? <==> OcrAdd(Target(entries, key), date, parsed, trains).Ok?)
      && (CollectEmail(entries, date, parsed, trains).Ok? <==> EmailAdd(Target(entries, key), date, parsed, trains).Ok?)
      && forall r :: r in {CollectOcr(entries, date, parsed, trains), CollectEmail(entries, date, parsed, trains)} && r.Ok? ==>
           && r.value.Keys == entries.Keys + {key}
           && (forall k :: k in entries && k != key ==> r.value[k] == entries[k])
  {
  }

  /** A ticket without a reservation number is refused, stored or not, so
      OCR never files anything under "null". */
  lemma TicketWithoutNumberIsRefused(entries: Registry, date: Instant, trains: seq<Train>)
    ensures CollectOcr(entries, date, None, trains) == Err(NullReservationNumber)
  {
  }

  /** The first snapshot of a number becomes a reservation of that number
      holding just that itinerary; a ticket needs a number for it, an
      e-mail does not. */
  lemma FirstSnapshotIsFiled(entries: Registry, date: Instant, parsed: Option<string>, trains: seq<Train>)
    requires KeyOf(parsed) !in entries
    ensures var filed := ReservationState(parsed, Some(date), trains, [], false);
      && CollectEmail(entries, date, parsed, trains) == Ok(entries[KeyOf(parsed) := filed])
      && (parsed.Some? ==> CollectOcr(entries, date, parsed, trains) == Ok(entries[KeyOf(parsed) := filed]))
  {
  }

  /** An e-mail without a reservation number is filed under "null" as a
      reservation whose number is null, and from then on the collection can
      no longer be shown. */
  lemma EmailWithoutNumberBreaksDisplay(entries: Registry, date: Instant, trains: seq<Train>, keys: seq<string>)
    requires "null" !in entries
    requires "null" in keys
    ensures CollectEmail(entries, date, None, trains).Ok?
    ensures DisplayAll(CollectEmail(entries, date, None, trains).value, keys) == Err(ReservationNumberNotSet)
  {
    var shown := CollectEmail(entries, date, None, trains).value;
    var i :| 0 <= i < |keys| && keys[i] == "null";
    assert shown[keys[i]].reservationNumber.None?;
    DisplayFailsOnNullNumber(shown, keys);
  }

  /** `cancel(n)` of the collection. */
  function CancelIn(entries: Registry, key: string): (r: Registry)
    ensures r.Keys == entries.Keys
    ensures forall k :: k in entries && k != key ==> r[k] == entries[k]
    ensures key in entries ==> r[key] == entries[key].(isCancelled := true)
  {
    if key in entries then entries[key := entries[key].(isCancelled := true)] else entries
  }

  /** Each reservation's display object, or the error showing it throws. */
  type Rendered = map<string, Result<Display, Error>>

  function Render(entries: Registry): (rendered: Rendered)
    ensures rendered.Keys == entries.Keys
    ensures forall k :: k in entries ==> rendered[k] == ToDisplayObject(entries[k])
  {
    map k | k in entries :: ToDisplayObject(entries[k])
  }

  /** The `for...in` loop over the keys in `order`: the display objects of
      the stored keys, in that order, skipping keys that are not stored, or
      the error of the first reservation that cannot be shown. */
  function Visit(rendered: Rendered, order: seq<string>): Result<seq<Display>, Error>
  {
    if order == [] then Ok([])
    else
      var key := order[|order| - 1];
      match Visit(rendered, order[..|order| - 1])
      case Err(e) => Err(e)
      case Ok(earlier) =>
        if key !in rendered then Ok(earlier)
        else
          match rendered[key]
          case Err(e) => Err(e)
          case Ok(d) => Ok(earlier + [d])
  }

  /** What `toDisplayObject()` returns when `eachReservation` visits the
      keys in `order`. */
  function DisplayAll(entries: Registry, order: seq<string>): Result<seq<Display>, Error>
  {
    Visit(Render(entries), order)
  }

  /** The loop fails exactly when a visited reservation cannot be shown,
      and then with that reservation's error. */
  lemma {:induction false} VisitFails(rendered: Rendered, order: seq<string>)
    ensures var shown := Visit(rendered, order);
      && (shown.Err? <==> exists i :: 0 <= i < |order| && order[i] in rendered && rendered[order[i]].Err?)
      && (shown.Err? ==> exists i :: 0 <= i < |order| && order[i] in rendered && rendered[order[i]].Err? && rendered[order[i]].error == shown.error)
  {
    if order != [] {
      var front := order[..|order| - 1];
      VisitFails(rendered, front);
      assert forall i :: 0 <= i < |front| ==> front[i] == order[i];
    }
  }

  /** When every visited key is stored and the loop succeeds, the result
      holds each visited key's display object, in visiting order. */
  lemma {:induction false} VisitFollowsOrder(rendered: Rendered, order: seq<string>)
    requires forall i :: 0 <= i < |order| ==> order[i] in rendered
    ensures var shown := Visit(rendered, order);
      shown.Ok? ==>
        && |shown.value| == |order|
        && forall i :: 0 <= i < |order| ==> Ok(shown.value[i]) == rendered[order[i]]
  {
    if order != [] {
      var front := order[..|order| - 1];
      VisitFollowsOrder(rendered, front);
    }
  }

  /** Once a reservation cannot be shown, the keys visited after it do not
      change the error. */
  lemma {:induction false} VisitErrorPersists(rendered: Rendered, order: seq<string>, n: nat)
    requires n <= |order| && Visit(rendered, order[..n]).Err?
    ensures Visit(rendered, order) == Visit(rendered, order[..n])
    decreases |order| - n
  {
    if n < |order| {
      assert order[..n + 1][..n] == order[..n];
      VisitErrorPersists(rendered, order, n + 1);
    } else {
      assert order[..n] == order;
    }
  }

  /** One more turn of the loop. */
  lemma VisitStep(rendered: Rendered, order: seq<string>, i: nat)
    requires i < |order|
    ensures var earlier := Visit(rendered, order[..i]);
      Visit(rendered, order[..i + 1]) ==
        if earlier.Err? || order[i] !in rendered then earlier
        else if rendered[order[i]].Err? then Err(rendered[order[i]].error)
        else Ok(earlier.value + [rendered[order[i]].value])
  {
    assert order[..i + 1][..i] == order[..i];
  }

  /** Showing the collection fails exactly when a visited reservation has a
      null number, and then with the error of the search links. */
  lemma DisplayFailsOnNullNumber(entries: Registry, order: seq<string>)
    ensures var shown := DisplayAll(entries, order);
      && (shown.Err? <==>
            exists i :: 0 <= i < |order| && order[i] in entries && entries[order[i]].reservationNumber.None?)
      && (shown.Err? ==> shown.error == ReservationNumberNotSet)
  {
    VisitFails(Render(entries), order);
  }

  /** When every visited key is stored and showing succeeds, the result
      holds each visited reservation's display object, in visiting order. */
  lemma DisplayFollowsOrder(entries: Registry, order: seq<string>)
    requires forall i :: 0 <= i < |order| ==> order[i] in entries
    ensures var shown := DisplayAll(entries, order);
      shown.Ok? ==>
        && |shown.value| == |order|
        && forall i :: 0 <= i < |order| ==> Ok(shown.value[i]) == ToDisplayObject(entries[order[i]])
  {
    VisitFollowsOrder(Render(entries), order);
  }

  /** A collection whose keys are exactly its entries, each added once, is
      shown as one display object per reservation, each reservation once. */
  lemma ShowsEachReservationOnce(entries: Registry, keys: seq<string>)
    requires forall i, j :: 0 <= i < j < |keys| ==> keys[i] != keys[j]
    requires forall k :: k in entries <==> k in keys
    ensures var shown := DisplayAll(entries, EnumerationOrder(keys));
      shown.Ok? ==>
        && |shown.value| == |keys|
        && forall k :: k in entries ==>
             entries[k].reservationNumber.Some? && ToDisplayObject(entries[k]).value in shown.value
  {
    var order := EnumerationOrder(keys);
    EnumerationOrderProperties(keys);
    assert |order| == |keys| by {
      assert |multiset(order)| == |multiset(keys)|;
    }
    forall i | 0 <= i < |order|
      ensures order[i] in entries
    {
      assert order[i] in multiset(keys);
    }
    forall k | k in entries
      ensures k in order
    {
      assert k in multiset(order);
    }
    DisplayContainsEach(entries, order);
  }

  lemma DisplayContainsEach(entries: Registry, order: seq<string>)
    requires forall i :: 0 <= i < |order| ==> order[i] in entries
    requires forall k :: k in entries ==> k in order
    ensures var shown := DisplayAll(entries, order);
      shown.Ok? ==>
        && |shown.value| == |order|
        && forall k :: k in entries ==>
             entries[k].reservationNumber.Some? && ToDisplayObject(entries[k]).value in shown.value
  {
    var shown := DisplayAll(entries, order);
    DisplayFailsOnNullNumber(entries, order);
    DisplayFollowsOrder(entries, order);
    if shown.Ok? {
      forall k | k in entries
        ensures entries[k].reservationNumber.Some? && ToDisplayObject(entries[k]).value in shown.value
      {
        var i :| 0 <= i < |order| && order[i] == k;
        assert Ok(shown.value[i]) == ToDisplayObject(entries[order[i]]);
      }
    }
  }

  // ---------------------------------------------------------------------
  // The collection object.

  class ReservationCollection {
    /** The reservations, by the key of their number. */
    var reservationsByNumber: map<string, Reservation>
    /** The keys in the order they were first stored, which `for...in`
        follows for keys that are not array indices. */
    var keys: seq<string>

    /** The keys are the dictionary's keys, each once, and no reservation
        is stored under two keys. */
    ghost predicate Valid()
      reads this
    {
      && (forall i, j :: 0 <= i < j < |keys| ==> keys[i] != keys[j])
      && (forall k :: k in reservationsByNumber <==> k in keys)
      && (forall a, b :: a in reservationsByNumber && b in reservationsByNumber && a != b ==>
            reservationsByNumber[a] != reservationsByNumber[b])
    }

    /** The collection as a value. */
    function Entries(): Registry
      reads this, reservationsByNumber.Values
    {
      map k | k in reservationsByNumber :: reservationsByNumber[k].State()
    }

    constructor ()
      ensures Valid() && Entries() == map[] && keys == []
    {
      reservationsByNumber := map[];
      keys := [];
    }

    /** `hasReservation`: an own property, not one inherited by every object. */
    predicate HasReservation(key: string)
      requires Valid()
      reads this
      ensures HasReservation(key) <==> key in keys
    {
      key in reservationsByNumber
    }

    /** `addOcrText`: files a ticket with the reservation of its number,
        creating that reservation when the number is new. When the add is
        refused, the collection is as it was. */
    method AddOcrText(snapshotDate: Instant, parsed: Option<string>, itinerary: seq<Train>)
      returns (outcome: Outcome<Error>)
      requires Valid()
      modifies this, reservationsByNumber.Values
      ensures Valid()
      ensures match CollectOcr(old(Entries()), snapshotDate, parsed, itinerary)
        case Ok(e) => outcome == Pass && Entries() == e
        case Err(err) => outcome == Fail(err) && Entries() == old(Entries())
      ensures keys == if outcome.Pass? && KeyOf(parsed) !in old(keys) then old(keys) + [KeyOf(parsed)] else old(keys)
    {
      var key := KeyOf(parsed);
      if HasReservation(key) {
        var res := reservationsByNumber[key];
        outcome := res.AddOcrText(snapshotDate, parsed, itinerary);
        StateChange(key, old(Entries()));
        return;
      }
      var res := new Reservation.NewBlank();
      outcome := res.AddOcrText(snapshotDate, parsed, itinerary);
      if outcome.Pass? {
        Insert(key, res, old(Entries()));
      }
    }

    /** `addEmailMessageBody`: files an e-mail with the reservation of its
        number, creating that reservation when the number is new. When the
        add is refused, the collection is as it was. */
    method AddEmailMessageBody(snapshotDate: Instant, parsed: Option<string>, itinerary: seq<Train>)
      returns (outcome: Outcome<Error>)
      requires Valid()
      modifies this, reservationsByNumber.Values
      ensures Valid()
      ensures match CollectEmail(old(Entries()), snapshotDate, parsed, itinerary)
        case Ok(e) => outcome == Pass && Entries() == e
        case Err(err) => outcome == Fail(err) && Entries() == old(Entries())
      ensures keys == if outcome.Pass? && KeyOf(parsed) !in old(keys) then old(keys) + [KeyOf(parsed)] else old(keys)
    {
      var key := KeyOf(parsed);
      if HasReservation(key) {
        var res := reservationsByNumber[key];
        outcome := res.AddEmailMessageBody(snapshotDate, parsed, itinerary);
        StateChange(key, old(Entries()));
        return;
      }
      var res := new Reservation.NewBlank();
      outcome := res.AddEmailMessageBody(snapshotDate, parsed, itinerary);
      if outcome.Pass? {
        Insert(key, res, old(Entries()));
      }
    }

    /** After the reservation stored under `key` changed, and no other
        object did, the collection differs from `before` in that entry only. */
    lemma StateChange(key: string, before: Registry)
      requires Valid() && key in reservationsByNumber
      requires before.Keys == reservationsByNumber.Keys
      requires forall k :: k in reservationsByNumber && k != key ==> before[k] == reservationsByNumber[k].State()
      ensures Entries() == before[key := reservationsByNumber[key].State()]
    {
    }

    /** Stores a new reservation under a new key. */
    method Insert(key: string, res: Reservation, ghost before: Registry)
      requires Valid() && key !in reservationsByNumber && res !in reservationsByNumber.Values
      requires before == Entries()
      modifies this
      ensures Valid() && reservationsByNumber == old(reservationsByNumber)[key := res]
      ensures keys == old(keys) + [key]
      ensures Entries() == before[key := res.State()]
    {
      reservationsByNumber := reservationsByNumber[key := res];
      keys := keys + [key];
    }

    /** `cancel(n)`: cancels the reservation stored under `n`, if any, and
        never creates one. */
    method Cancel(reservationNumber: string)
      requires Valid()
      modifies reservationsByNumber.Values
      ensures Valid()
      ensures Entries() == CancelIn(old(Entries()), reservationNumber)
    {
      if HasReservation(reservationNumber) {
        var res := reservationsByNumber[reservationNumber];
        res.Cancel();
        StateChange(reservationNumber, old(Entries()));
      }
    }

    /** `toDisplayObject`: the display object of each reservation in the
        order `for...in` visits the keys, or the error of the first that
        cannot be shown. */
    method ToDisplayObject() returns (shown: Result<seq<Display>, Error>)
      ensures shown == DisplayAll(Entries(), EnumerationOrder(keys))
    {
      shown := ShowEach(Entries(), EnumerationOrder(keys));
    }
  }

  /** The loop of `eachReservation` over the keys in `order`, with the
      callback of `toDisplayObject`: each stored reservation's display
      object is appended, and the first error thrown ends the loop. */
  method ShowEach(entries: Registry, order: seq<string>) returns (shown: Result<seq<Display>, Error>)
    ensures shown == DisplayAll(entries, order)
  {
    ghost var rendered := Render(entries);
    var reservations: seq<Display> := [];
    var i := 0;
    while i < |order|
      invariant i <= |order|
      invariant Visit(rendered, order[..i]) == Ok(reservations)
    {
      var key := order[i];
      VisitStep(rendered, order, i);
      if key in entries {
        var d := Reservations.ToDisplayObject(entries[key]);
        if d.Err? {
          VisitErrorPersists(rendered, order, i + 1);
          return Err(d.error);
        }
        reservations := reservations + [d.value];
      }
      i := i + 1;
    }
    assert order[..i] == order;
    return Ok(reservations);
  }

  /** The collection test: an empty collection shows nothing; after the
      e-mails of two reservations it shows both, the first one unchanged
      and in first place. */
  lemma TwoReservationsScenario(d1: Instant, t1: seq<Train>, d2: Instant, t2: seq<Train>)
    ensures DisplayAll(map[], EnumerationOrder([])) == Ok([])
    ensures var s1 := ReservationState(Some("1D4433"), Some(d1), t1, [], false);
            var s2 := ReservationState(Some("AEF964"), Some(d2), t2, [], false);
      && CollectEmail(map[], d1, Some("1D4433"), t1) == Ok(map["1D4433" := s1])
      && CollectEmail(map["1D4433" := s1], d2, Some("AEF964"), t2) == Ok(map["1D4433" := s1, "AEF964" := s2])
      && DisplayAll(map["1D4433" := s1], EnumerationOrder(["1D4433"])) == Ok([ToDisplayObject(s1).value])
      && DisplayAll(map["1D4433" := s1, "AEF964" := s2], EnumerationOrder(["1D4433", "AEF964"]))
         == Ok([ToDisplayObject(s1).value, ToDisplayObject(s2).value])
  {
    var k1, k2: string := "1D4433", "AEF964";
    var s1 := ReservationState(Some(k1), Some(d1), t1, [], false);
    var s2 := ReservationState(Some(k2), Some(d2), t2, [], false);
    assert k1 != k2 by { assert k1[0] != k2[0]; }
    FirstSnapshotIsFiled(map[], d1, Some(k1), t1);
    FirstSnapshotIsFiled(map[k1 := s1], d2, Some(k2), t2);
    ScenarioKeysAreNamed();
    InsertionOrderWithoutIndexKeys([k1]);
    InsertionOrderWithoutIndexKeys([k1, k2]);
    DisplayOne(map[k1 := s1], k1);
    DisplayTwo(map[k1 := s1, k2 := s2], k1, k2);
  }

  lemma ScenarioKeysAreNamed()
    ensures !IsArrayIndex("1D4433") && !IsArrayIndex("AEF964")
  {
    var k1, k2: string := "1D4433", "AEF964";
    assert !IsDigit(k1[1]) && !IsDigit(k2[0]);
  }

  lemma DisplayOne(entries: Registry, a: string)
    requires a in entries && entries[a].reservationNumber.Some?
    ensures DisplayAll(entries, [a]) == Ok([ToDisplayObject(entries[a]).value])
  {
    VisitOne(Render(entries), a);
  }

  lemma DisplayTwo(entries: Registry, a: string, b: string)
    requires a in entries && entries[a].reservationNumber.Some?
    requires b in entries && entries[b].reservationNumber.Some?
    ensures DisplayAll(entries, [a, b])
         == Ok([ToDisplayObject(entries[a]).value, ToDisplayObject(entries[b]).value])
  {
    VisitTwo(Render(entries), a, b);
  }

  lemma VisitOne(rendered: Rendered, a: string)
    requires a in rendered && rendered[a].Ok?
    ensures Visit(rendered, [a]) == Ok([rendered[a].value])
  {
    assert [a][..0] == [];
    assert Visit(rendered, []) == Ok([]);
    assert [] + [rendered[a].value] == [rendered[a].value];
  }

  lemma VisitTwo(rendered: Rendered, a: string, b: string)
    requires a in rendered && rendered[a].Ok?
    requires b in rendered && rendered[b].Ok?
    ensures Visit(rendered, [a, b]) == Ok([rendered[a].value, rendered[b].value])
  {
    var da, db := rendered[a].value, rendered[b].value;
    VisitOne(rendered, a);
    assert [a, b][..1] == [a];
    assert Visit(rendered, [a, b]) == Ok([da] + [db]);
    assert [da] + [db] == [da, db];
  }
}
