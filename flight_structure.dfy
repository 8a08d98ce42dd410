/**
 * Structural keys of flights and the change gate that decides whether a
 * flight-list edit must reconcile the ops groups. The package store and the
 * server-side builder carry identical copies of these two functions.
 */
module FlightStructure {
  import opened Wrappers
  import opened Types

  /** `x || ""` on an optional string. */
  function OrEmpty(s: Option<string>): (r: string)
    ensures s.Some? ==> r == s.value
    ensures s.None? ==> r == ""
  {
    match s
    case Some(v) => v
    case None => ""
  }

  /** `departureDate|airline|returnDate` */
  function StructureKey(departureDate: string, airline: string, returnDate: string): string {
    departureDate + "|" + airline + "|" + returnDate
  }

  /** The key starts with the departure date and ends with the return date, each set off by `|`. */
  lemma StructureKeyParts(departureDate: string, airline: string, returnDate: string)
    ensures var k := StructureKey(departureDate, airline, returnDate);
      |k| == |departureDate| + |airline| + |returnDate| + 2 &&
      k[..|departureDate|] == departureDate && k[|departureDate|] == '|' &&
      k[|k| - |returnDate|..] == returnDate && k[|k| - |returnDate| - 1] == '|'
  {
  }

  /**
   * `flightStructureKey`: the departure date, the airline and the return date in that
   * order, each part recoverable from its position.
   */
  function FlightStructureKey(flight: FlightSegment): (k: string)
    ensures |k| == |flight.departureDate| + |flight.airline| + |flight.returnDate| + 2
    ensures k[..|flight.departureDate|] == flight.departureDate && k[|flight.departureDate|] == '|'
    ensures k[|flight.departureDate| + 1..|flight.departureDate| + 1 + |flight.airline|] == flight.airline
    ensures k[|k| - |flight.returnDate|..] == flight.returnDate && k[|k| - |flight.returnDate| - 1] == '|'
  {
    var d, a, rd := flight.departureDate, flight.airline, flight.returnDate;
    StructureKeyParts(d, a, rd);
    assert StructureKey(d, a, rd)[|d| + 1..|d| + 1 + |a|] == a by {
      assert StructureKey(d, a, rd) == d + "|" + a + "|" + rd;
    }
    StructureKey(d, a, rd)
  }

  function FlightKeys(flights: seq<FlightSegment>): (keys: seq<string>)
    ensures |keys| == |flights|
    ensures forall i :: 0 <= i < |flights| ==> keys[i] == FlightStructureKey(flights[i])
  {
    seq(|flights|, i requires 0 <= i < |flights| => FlightStructureKey(flights[i]))
  }

  /** The reference meaning of a structure change: the multisets of keys differ. */
  predicate StructureChanged(previous: seq<FlightSegment>, next: seq<FlightSegment>) {
    multiset(FlightKeys(previous)) != multiset(FlightKeys(next))
  }

  /** The per-key occurrence counts, filled one flight at a time. */
  method CountKeys(flights: seq<FlightSegment>) returns (counts: map<string, nat>)
    ensures forall k :: k in counts <==> k in multiset(FlightKeys(flights))
    ensures forall k :: k in counts ==> counts[k] == multiset(FlightKeys(flights))[k]
  {
    ghost var keys := FlightKeys(flights);
    counts := map[];
    var i := 0;
    while i < |flights|
      invariant 0 <= i <= |flights|
      invariant forall k :: k in counts <==> k in multiset(keys[..i])
      invariant forall k :: k in counts ==> counts[k] == multiset(keys[..i])[k]
    {
      var key := FlightStructureKey(flights[i]);
      var current := if key in counts then counts[key] else 0;
      counts := counts[key := current + 1];
      CountStep(keys, i);
      i := i + 1;
    }
    assert keys[..i] == keys;
  }

  lemma CountStep(keys: seq<string>, i: nat)
    requires i < |keys|
    ensures multiset(keys[..i + 1]) == multiset(keys[..i]) + multiset{keys[i]}
  {
    assert keys[..i + 1] == keys[..i] + [keys[i]];
  }

  /** The change gate: false exactly when both lists have the same keys, each as often. */
  method HasFlightStructureChanged(previous: seq<FlightSegment>, next: seq<FlightSegment>) returns (changed: bool)
    ensures changed == StructureChanged(previous, next)
  {
    if |previous| != |next| {
      StructureChangeSymmetric(previous, next);
      return true;
    }
    var previousCounts := CountKeys(previous);
    var nextCounts := CountKeys(next);
    CountsDetermineMultiset(FlightKeys(previous), FlightKeys(next), previousCounts, nextCounts);
    if |previousCounts| != |nextCounts| {
      return true;
    }
    var unchecked := previousCounts.Keys;
    while unchecked != {}
      invariant unchecked <= previousCounts.Keys
      invariant forall k :: k in previousCounts && k !in unchecked ==> k in nextCounts && nextCounts[k] == previousCounts[k]
      decreases |unchecked|
    {
      var key :| key in unchecked;
      if key !in nextCounts || nextCounts[key] != previousCounts[key] {
        return true;
      }
      unchecked := unchecked - {key};
    }
    SameCountsSameMap(previousCounts, nextCounts);
    return false;
  }

  /** Two count maps are equal exactly when the key sequences they count are permutations. */
  lemma CountsDetermineMultiset(pk: seq<string>, nk: seq<string>, pc: map<string, nat>, nc: map<string, nat>)
    requires forall k :: k in pc <==> k in multiset(pk)
    requires forall k :: k in pc ==> pc[k] == multiset(pk)[k]
    requires forall k :: k in nc <==> k in multiset(nk)
    requires forall k :: k in nc ==> nc[k] == multiset(nk)[k]
    ensures (pc == nc) <==> (multiset(pk) == multiset(nk))
  {
    if pc == nc {
      assert forall k :: multiset(pk)[k] == multiset(nk)[k] by {
        forall k ensures multiset(pk)[k] == multiset(nk)[k] {
          if k in pc {
            assert nc[k] == pc[k];
          }
        }
      }
    }
  }

  lemma SameCountsSameMap(pc: map<string, nat>, nc: map<string, nat>)
    requires |pc| == |nc|
    requires forall k :: k in pc ==> k in nc && nc[k] == pc[k]
    ensures pc == nc
  {
    SubsetOfSameSize(pc.Keys, nc.Keys);
  }

  lemma SubsetOfSameSize<T>(a: set<T>, b: set<T>)
    requires a <= b && |a| == |b|
    ensures a == b
  {
    assert b == a + (b - a);
    assert |b - a| == 0;
  }

  lemma FlightKeysConcat(a: seq<FlightSegment>, b: seq<FlightSegment>)
    ensures FlightKeys(a + b) == FlightKeys(a) + FlightKeys(b)
  {
  }

  /** Taking one flight out takes exactly its key out of the multiset of keys. */
  lemma KeysWithout(s: seq<FlightSegment>, j: nat)
    requires j < |s|
    ensures multiset(FlightKeys(s)) == multiset(FlightKeys(s[..j] + s[j + 1..])) + multiset{FlightStructureKey(s[j])}
  {
    var a, b := s[..j], s[j + 1..];
    assert s == (a + [s[j]]) + b;
    FlightKeysConcat(a + [s[j]], b);
    FlightKeysConcat(a, [s[j]]);
    FlightKeysConcat(a, b);
    SplitOut(FlightKeys(a), FlightStructureKey(s[j]), FlightKeys(b));
  }

  lemma KeysWithoutFirst(s: seq<FlightSegment>)
    requires s != []
    ensures multiset(FlightKeys(s)) == multiset(FlightKeys(s[1..])) + multiset{FlightStructureKey(s[0])}
  {
    var t := s[1..];
    assert s == [s[0]] + t;
    FlightKeysConcat([s[0]], t);
    assert FlightKeys([s[0]]) == [FlightStructureKey(s[0])];
    SplitOut([], FlightStructureKey(s[0]), FlightKeys(t));
  }

  lemma SplitOut<T>(a: seq<T>, x: T, b: seq<T>)
    ensures multiset((a + [x]) + b) == multiset(a + b) + multiset{x}
  {
  }

  lemma MultisetWithout<T>(s: seq<T>, j: nat)
    requires j < |s|
    ensures multiset(s[..j] + s[j + 1..]) == multiset(s) - multiset{s[j]}
  {
    assert s == s[..j] + [s[j]] + s[j + 1..];
  }

  lemma MultisetWithoutFirst<T>(s: seq<T>)
    requires s != []
    ensures multiset(s[1..]) == multiset(s) - multiset{s[0]}
  {
    assert s == [s[0]] + s[1..];
  }

  /** Reordering the flights is never a structure change. */
  lemma {:induction false} ReorderIsNoChange(previous: seq<FlightSegment>, next: seq<FlightSegment>)
    requires multiset(previous) == multiset(next)
    ensures !StructureChanged(previous, next)
    decreases |previous|
  {
    if previous != [] {
      var x := previous[0];
      assert x in multiset(next);
      var j :| 0 <= j < |next| && next[j] == x;
      var tail, rest := previous[1..], next[..j] + next[j + 1..];
      assert multiset(tail) == multiset(rest) by {
        MultisetWithoutFirst(previous);
        MultisetWithout(next, j);
      }
      var key := multiset{FlightStructureKey(x)};
      assert multiset(FlightKeys(tail)) == multiset(FlightKeys(rest)) by {
        ReorderIsNoChange(tail, rest);
      }
      assert multiset(FlightKeys(previous)) == multiset(FlightKeys(tail)) + key by {
        KeysWithoutFirst(previous);
      }
      assert multiset(FlightKeys(next)) == multiset(FlightKeys(rest)) + key by {
        KeysWithout(next, j);
      }
    }
  }

  /** The gate is symmetric, and any change in length is a change. */
  lemma StructureChangeSymmetric(previous: seq<FlightSegment>, next: seq<FlightSegment>)
    ensures StructureChanged(previous, next) == StructureChanged(next, previous)
    ensures |previous| != |next| ==> StructureChanged(previous, next)
  {
    if |previous| != |next| {
      assert |multiset(FlightKeys(previous))| != |multiset(FlightKeys(next))|;
    }
  }
}
