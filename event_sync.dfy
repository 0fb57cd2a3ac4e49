/** What `Reservation.syncEvents` decides, as pure functions over indices:
    which trains get a new calendar event and which existing events are
    deleted. Whether an event stands for a train is decided by the train's
    own matcher, which this model takes as a parameter. */
module EventSync {
  import opened Wrappers
  import opened Trains

  /** `matches(t, number, e)`: event `e` is the calendar entry of train `t`
      under reservation number `number`. */
  type Matcher<-E> = (Train, Option<string>, E) -> bool

  /** 0, 1, ..., n - 1. */
  function Indices(n: nat): (s: seq<nat>)
    ensures |s| == n && forall k :: 0 <= k < n ==> s[k] == k
  {
    seq(n, k => k)
  }

  // ---------------------------------------------------------------------
  // Pass 1: trains that no event stands for.

  /** Some event stands for train `t`. */
  predicate Covered<E>(t: Train, number: Option<string>, events: seq<E>, matches: Matcher<E>)
  {
    exists j :: 0 <= j < |events| && matches(t, number, events[j])
  }

  /** The indices of the trains for which pass 1 creates an event, in train
      order: exactly the trains no event stands for. */
  function Uncovered<E>(trains: seq<Train>, number: Option<string>, events: seq<E>, matches: Matcher<E>)
    : (created: seq<nat>)
    ensures forall i :: i in created <==> 0 <= i < |trains| && !Covered(trains[i], number, events, matches)
    ensures forall a, b :: 0 <= a < b < |created| ==> created[a] < created[b]
  {
    if trains == [] then []
    else
      var last := |trains| - 1;
      var earlier := Uncovered(trains[..last], number, events, matches);
      assert forall a :: 0 <= a < |earlier| ==> earlier[a] in earlier;
      if Covered(trains[last], number, events, matches) then earlier else earlier + [last]
  }

  /** With no event on the calendar every train is created, in order. */
  lemma {:induction false} NoEventsCreatesEveryTrain<E>(trains: seq<Train>, number: Option<string>, matches: Matcher<E>)
    ensures Uncovered(trains, number, [], matches) == Indices(|trains|)
  {
    if trains != [] {
      var last := |trains| - 1;
      NoEventsCreatesEveryTrain(trains[..last], number, matches);
      assert !Covered(trains[last], number, [], matches);
    }
  }

  // ---------------------------------------------------------------------
  // Pass 2: each event claims the first matching train not yet claimed.

  /** Train `k` matches event `e` and no earlier event has claimed it. */
  predicate Free<E>(trains: seq<Train>, number: Option<string>, e: E, taken: set<nat>, matches: Matcher<E>, k: nat)
  {
    k < |trains| && matches(trains[k], number, e) && k !in taken
  }

  /** The scan over the trains from index `from` on, stopping at the first
      free train. */
  function FirstFree<E>(trains: seq<Train>, number: Option<string>, e: E, taken: set<nat>, matches: Matcher<E>, from: nat)
    : (claim: Option<nat>)
    ensures claim.Some? ==> from <= claim.value && Free(trains, number, e, taken, matches, claim.value)
    ensures forall k :: from <= k && Free(trains, number, e, taken, matches, k) ==> claim.Some? && claim.value <= k
    decreases |trains| - from
  {
    if from >= |trains| then None
    else if matches(trains[from], number, e) && from !in taken then Some(from)
    else FirstFree(trains, number, e, taken, matches, from + 1)
  }

  /** The trains claimed by the events scanned so far. */
  function Taken(claims: seq<Option<nat>>): set<nat>
  {
    if claims == [] then {}
    else
      var last := claims[|claims| - 1];
      Taken(claims[..|claims| - 1]) + if last.Some? then {last.value} else {}
  }

  /** For each event, in event order, the train it claims, or `None` when it
      is deleted. A claim always names a train the event stands for. */
  function Claims<E>(trains: seq<Train>, number: Option<string>, events: seq<E>, matches: Matcher<E>)
    : (claims: seq<Option<nat>>)
    ensures |claims| == |events|
    ensures forall j :: 0 <= j < |events| && claims[j].Some? ==>
                          claims[j].value < |trains| && matches(trains[claims[j].value], number, events[j])
  {
    if events == [] then []
    else
      var last := |events| - 1;
      var earlier := Claims(trains, number, events[..last], matches);
      earlier + [FirstFree(trains, number, events[last], Taken(earlier), matches, 0)]
  }

  /** The events pass 2 deletes, in event order. */
  function Unclaimed(claims: seq<Option<nat>>): (deleted: seq<nat>)
    ensures forall j :: j in deleted <==> 0 <= j < |claims| && claims[j].None?
    ensures forall a, b :: 0 <= a < b < |deleted| ==> deleted[a] < deleted[b]
  {
    if claims == [] then []
    else
      var last := |claims| - 1;
      var earlier := Unclaimed(claims[..last]);
      assert forall a :: 0 <= a < |earlier| ==> earlier[a] in earlier;
      if claims[last].None? then earlier + [last] else earlier
  }

  lemma {:induction false} TakenHolds(claims: seq<Option<nat>>, j: nat)
    requires j < |claims| && claims[j].Some?
    ensures claims[j].value in Taken(claims)
  {
    if j < |claims| - 1 {
      TakenHolds(claims[..|claims| - 1], j);
    }
  }

  lemma {:induction false} TakenGrows(claims: seq<Option<nat>>, n: nat)
    requires n <= |claims|
    ensures Taken(claims[..n]) <= Taken(claims)
  {
    if n < |claims| {
      assert claims[..|claims| - 1][..n] == claims[..n];
      TakenGrows(claims[..|claims| - 1], n);
    } else {
      assert claims[..n] == claims;
    }
  }

  /** Scanning a prefix of the events yields a prefix of the claims. */
  lemma {:induction false} ClaimsOfPrefix<E>(trains: seq<Train>, number: Option<string>, events: seq<E>, matches: Matcher<E>, n: nat)
    requires n <= |events|
    ensures Claims(trains, number, events[..n], matches) == Claims(trains, number, events, matches)[..n]
  {
    if n < |events| {
      var last := |events| - 1;
      assert events[..last][..n] == events[..n];
      ClaimsOfPrefix(trains, number, events[..last], matches, n);
    } else {
      assert events[..n] == events;
    }
  }

  /** Scanning one more event appends its claim. */
  lemma ClaimsExtend<E>(trains: seq<Train>, number: Option<string>, events: seq<E>, matches: Matcher<E>, j: nat)
    requires j < |events|
    ensures var claims := Claims(trains, number, events[..j], matches);
      Claims(trains, number, events[..j + 1], matches)
        == claims + [FirstFree(trains, number, events[j], Taken(claims), matches, 0)]
  {
    assert events[..j + 1][..j] == events[..j];
  }

  /** Event `j` claims the first train that matches it and that no earlier
      event claimed. */
  lemma ClaimAt<E>(trains: seq<Train>, number: Option<string>, events: seq<E>, matches: Matcher<E>, j: nat)
    requires j < |events|
    ensures var claims := Claims(trains, number, events, matches);
      claims[j] == FirstFree(trains, number, events[j], Taken(claims[..j]), matches, 0)
  {
    var claims := Claims(trains, number, events, matches);
    ClaimsOfPrefix(trains, number, events, matches, j + 1);
    ClaimsOfPrefix(trains, number, events, matches, j);
    assert events[..j + 1][..j] == events[..j];
  }

  /** An event is deleted exactly when, at the moment it is scanned, every
      train it stands for has already been claimed; in particular an event
      that stands for no train at all is deleted. */
  lemma DeletedIffNoFreeTrain<E>(trains: seq<Train>, number: Option<string>, events: seq<E>, matches: Matcher<E>, j: nat)
    requires j < |events|
    ensures var claims := Claims(trains, number, events, matches);
      j in Unclaimed(claims) <==>
        forall k :: 0 <= k < |trains| && matches(trains[k], number, events[j]) ==> k in Taken(claims[..j])
    ensures (forall k :: 0 <= k < |trains| ==> !matches(trains[k], number, events[j])) ==>
              j in Unclaimed(Claims(trains, number, events, matches))
  {
    var claims := Claims(trains, number, events, matches);
    ClaimAt(trains, number, events, matches, j);
    if claims[j].None? {
      forall k | 0 <= k < |trains| && matches(trains[k], number, events[j])
        ensures k in Taken(claims[..j])
      {
        assert !Free(trains, number, events[j], Taken(claims[..j]), matches, k);
      }
    }
  }

  /** No train is claimed by two events. */
  lemma ClaimsAreDistinct<E>(trains: seq<Train>, number: Option<string>, events: seq<E>, matches: Matcher<E>, a: nat, b: nat)
    requires a < b < |events|
    ensures var claims := Claims(trains, number, events, matches);
      claims[a].Some? && claims[b].Some? ==> claims[a].value != claims[b].value
  {
    var claims := Claims(trains, number, events, matches);
    ClaimAt(trains, number, events, matches, b);
    if claims[a].Some? {
      assert claims[..b][a] == claims[a];
      TakenHolds(claims[..b], a);
    }
  }

  lemma AppendClaim(claims: seq<Option<nat>>, c: Option<nat>)
    ensures Taken(claims + [c]) == Taken(claims) + if c.Some? then {c.value} else {}
    ensures Unclaimed(claims + [c]) == Unclaimed(claims) + if c.None? then [|claims|] else []
    ensures c.Some? && c.value !in Taken(claims) ==> |Taken(claims + [c])| == |Taken(claims)| + 1
    ensures c.None? ==> |Taken(claims + [c])| == |Taken(claims)| && |Unclaimed(claims + [c])| == |Unclaimed(claims)| + 1
    ensures c.Some? ==> |Unclaimed(claims + [c])| == |Unclaimed(claims)|
  {
    assert (claims + [c])[..|claims|] == claims;
  }

  /** Each kept event adds one train to the claimed set and each deleted
      event adds one index to the deleted list. */
  lemma {:induction false} KeptCount<E>(trains: seq<Train>, number: Option<string>, events: seq<E>, matches: Matcher<E>)
    ensures |Taken(Claims(trains, number, events, matches))| + |Unclaimed(Claims(trains, number, events, matches))| == |events|
  {
    if events != [] {
      var last := |events| - 1;
      var earlier := Claims(trains, number, events[..last], matches);
      var c := FirstFree(trains, number, events[last], Taken(earlier), matches, 0);
      assert Claims(trains, number, events, matches) == earlier + [c];
      KeptCount(trains, number, events[..last], matches);
      assert c.Some? ==> c.value !in Taken(earlier);
      AppendClaim(earlier, c);
    }
  }

  /** Only trains are claimed. */
  lemma {:induction false} TakenAreTrains<E>(trains: seq<Train>, number: Option<string>, events: seq<E>, matches: Matcher<E>)
    ensures forall k :: k in Taken(Claims(trains, number, events, matches)) ==> k < |trains|
  {
    if events != [] {
      var last := |events| - 1;
      var earlier := Claims(trains, number, events[..last], matches);
      var c := FirstFree(trains, number, events[last], Taken(earlier), matches, 0);
      assert Claims(trains, number, events, matches) == earlier + [c];
      TakenAreTrains(trains, number, events[..last], matches);
      AppendClaim(earlier, c);
    }
  }

  lemma EmptyWithoutMembers(s: seq<nat>)
    ensures (forall x :: x !in s) ==> s == []
  {
    assert s != [] ==> s[0] in s;
  }

  lemma {:induction false} BoundedSetSize(s: set<nat>, n: nat)
    requires forall k :: k in s ==> k < n
    ensures |s| <= n
  {
    if n > 0 {
      BoundedSetSize(s - {n - 1}, n - 1);
    } else {
      assert s == {};
    }
  }

  /** Each kept event holds its own train, so no more events are kept than
      there are trains. */
  lemma KeptAtMostTrains<E>(trains: seq<Train>, number: Option<string>, events: seq<E>, matches: Matcher<E>)
    ensures |events| - |Unclaimed(Claims(trains, number, events, matches))| <= |trains|
  {
    KeptCount(trains, number, events, matches);
    TakenAreTrains(trains, number, events, matches);
    BoundedSetSize(Taken(Claims(trains, number, events, matches)), |trains|);
  }

  /** Of two events that each stand for train `i` alone, the later one is
      deleted. */
  lemma DuplicateIsDeleted<E>(trains: seq<Train>, number: Option<string>, events: seq<E>, matches: Matcher<E>,
                              i: nat, first: nat, second: nat)
    requires first < second < |events| && i < |trains|
    requires forall k :: 0 <= k < |trains| ==> (matches(trains[k], number, events[first]) <==> k == i)
    requires forall k :: 0 <= k < |trains| ==> (matches(trains[k], number, events[second]) <==> k == i)
    ensures second in Unclaimed(Claims(trains, number, events, matches))
  {
    var claims := Claims(trains, number, events, matches);
    ClaimAt(trains, number, events, matches, first);
    ClaimAt(trains, number, events, matches, second);
    TakenGrows(claims[..second], first);
    assert claims[..second][..first] == claims[..first];
    if i !in Taken(claims[..first]) {
      assert Free(trains, number, events[first], Taken(claims[..first]), matches, i);
      assert claims[first] == Some(i);
      assert claims[..second][first] == claims[first];
      TakenHolds(claims[..second], first);
    }
    assert i in Taken(claims[..second]);
  }

  /** A calendar that already holds exactly one event per train, event `j`
      standing for train `pairing[j]` alone, is left as it is: nothing is
      created and nothing deleted. */
  lemma ConvergedCalendarIsKept<E>(trains: seq<Train>, number: Option<string>, events: seq<E>, matches: Matcher<E>,
                                   pairing: seq<nat>)
    requires |pairing| == |events|
    requires forall j :: 0 <= j < |events| ==> pairing[j] < |trains|
    requires forall a, b :: 0 <= a < b < |pairing| ==> pairing[a] != pairing[b]
    requires forall i, j :: 0 <= i < |trains| && 0 <= j < |events| ==>
               (matches(trains[i], number, events[j]) <==> i == pairing[j])
    requires forall i :: 0 <= i < |trains| ==> i in pairing
    ensures Uncovered(trains, number, events, matches) == []
    ensures Unclaimed(Claims(trains, number, events, matches)) == []
  {
    var claims := Claims(trains, number, events, matches);
    forall i | 0 <= i < |trains|
      ensures Covered(trains[i], number, events, matches)
    {
      assert i in pairing;
      var j :| 0 <= j < |events| && pairing[j] == i;
      assert matches(trains[i], number, events[j]);
    }
    EmptyWithoutMembers(Uncovered(trains, number, events, matches));
    PairedClaims(trains, number, events, matches, pairing, |events|);
    EmptyWithoutMembers(Unclaimed(claims));
  }

  lemma {:induction false} PairedClaims<E>(trains: seq<Train>, number: Option<string>, events: seq<E>, matches: Matcher<E>,
                                           pairing: seq<nat>, n: nat)
    requires n <= |pairing| == |events|
    requires forall j :: 0 <= j < |events| ==> pairing[j] < |trains|
    requires forall a, b :: 0 <= a < b < |pairing| ==> pairing[a] != pairing[b]
    requires forall i, j :: 0 <= i < |trains| && 0 <= j < |events| ==>
               (matches(trains[i], number, events[j]) <==> i == pairing[j])
    ensures var claims := Claims(trains, number, events, matches);
      (forall j :: 0 <= j < n ==> claims[j] == Some(pairing[j]))
      && Taken(claims[..n]) == set j | 0 <= j < n :: pairing[j]
  {
    var claims := Claims(trains, number, events, matches);
    if n > 0 {
      var j := n - 1;
      PairedClaims(trains, number, events, matches, pairing, j);
      ClaimAt(trains, number, events, matches, j);
      assert claims[..n][..j] == claims[..j];
      var p := pairing[j];
      assert Free(trains, number, events[j], Taken(claims[..j]), matches, p);
      assert claims[j] == Some(p);
      assert Taken(claims[..n]) == Taken(claims[..j]) + {p};
    }
  }

  /** The "removes duplicate events" scenario: two trains, and two copies of
      each train's event. The first copy of each claims its train, the
      second copies are deleted, and no train is created. */
  lemma DuplicateScenario<E>(trains: seq<Train>, number: Option<string>, events: seq<E>, matches: Matcher<E>)
    requires |trains| == 2 && |events| == 4
    requires forall i, j :: 0 <= i < 2 && 0 <= j < 4 ==> (matches(trains[i], number, events[j]) <==> i == [0, 0, 1, 1][j])
    ensures Uncovered(trains, number, events, matches) == []
    ensures Unclaimed(Claims(trains, number, events, matches)) == [1, 3]
  {
    DuplicateScenarioCovers(trains, number, events, matches);
    DuplicateScenarioDeletes(trains, number, events, matches);
    DuplicateScenarioKeeps(trains, number, events, matches);
    TwoDeleted(Unclaimed(Claims(trains, number, events, matches)), 1, 3);
  }

  lemma DuplicateScenarioDeletes<E>(trains: seq<Train>, number: Option<string>, events: seq<E>, matches: Matcher<E>)
    requires |trains| == 2 && |events| == 4
    requires forall i, j :: 0 <= i < 2 && 0 <= j < 4 ==> (matches(trains[i], number, events[j]) <==> i == [0, 0, 1, 1][j])
    ensures var deleted := Unclaimed(Claims(trains, number, events, matches));
      1 in deleted && 3 in deleted
  {
    DuplicateIsDeleted(trains, number, events, matches, 0, 0, 1);
    DuplicateIsDeleted(trains, number, events, matches, 1, 2, 3);
  }

  lemma DuplicateScenarioCovers<E>(trains: seq<Train>, number: Option<string>, events: seq<E>, matches: Matcher<E>)
    requires |trains| == 2 && |events| == 4
    requires forall i, j :: 0 <= i < 2 && 0 <= j < 4 ==> (matches(trains[i], number, events[j]) <==> i == [0, 0, 1, 1][j])
    ensures Uncovered(trains, number, events, matches) == []
  {
    assert Covered(trains[0], number, events, matches) by { assert matches(trains[0], number, events[0]); }
    assert Covered(trains[1], number, events, matches) by { assert matches(trains[1], number, events[2]); }
    EmptyWithoutMembers(Uncovered(trains, number, events, matches));
  }

  lemma DuplicateScenarioKeeps<E>(trains: seq<Train>, number: Option<string>, events: seq<E>, matches: Matcher<E>)
    requires |trains| == 2 && |events| == 4
    requires forall i, j :: 0 <= i < 2 && 0 <= j < 4 ==> (matches(trains[i], number, events[j]) <==> i == [0, 0, 1, 1][j])
    ensures var claims := Claims(trains, number, events, matches);
      claims[0] == Some(0) && claims[2] == Some(1)
  {
    var claims := Claims(trains, number, events, matches);
    ClaimAt(trains, number, events, matches, 0);
    assert Free(trains, number, events[0], {}, matches, 0);
    ClaimAt(trains, number, events, matches, 2);
    assert claims[..2][0] == claims[0];
    TakenHolds(claims[..2], 0);
    assert Free(trains, number, events[2], Taken(claims[..2]), matches, 1);
  }

  /** An increasing list holding `a` and `b` and nothing else is `[a, b]`. */
  lemma TwoDeleted(s: seq<nat>, a: nat, b: nat)
    requires a < b && a in s && b in s
    requires forall k :: k in s ==> k == a || k == b
    requires forall x, y :: 0 <= x < y < |s| ==> s[x] < s[y]
    ensures s == [a, b]
  {
    var i :| 0 <= i < |s| && s[i] == a;
    var j :| 0 <= j < |s| && s[j] == b;
    assert forall x :: 0 <= x < |s| ==> s[x] in s;
    assert s[0] <= s[i] && s[0] == a;
    assert s[j] <= s[|s| - 1] && s[|s| - 1] == b;
    assert |s| >= 2 && s[1] == b;
    assert |s| == 2;
  }
}
