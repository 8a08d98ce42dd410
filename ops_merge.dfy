/**
 * Reconciliation of a package's ops groups with its flights: existing groups
 * are indexed by structural key (first writer wins), then every flight either
 * refreshes the group its full key finds or gets a fresh group.
 *
 * Identifier generation is a supply `newId`: the group created for flight i is
 * `newId(i)` and a project created from nothing is `newId(|flights|)`.
 */
module OpsMerge {
  import opened Wrappers
  import opened Text
  import opened Types
  import opened FlightStructure

  const GROUP_CREATED := "Groupe créé"

  function FormatFlightLabel(flight: FlightSegment): string {
    flight.airline + " - départ " + flight.departureDate
  }

  function GroupStructureKey(group: OpsGroup): string {
    StructureKey(OrEmpty(group.departureDate), OrEmpty(group.airline), OrEmpty(group.returnDate))
  }

  /** The group has a non-empty departure date. */
  predicate HasDeparture(group: OpsGroup) {
    group.departureDate.Some? && group.departureDate.value != ""
  }

  /** `date|airline|`, registered only for groups with a departure date. */
  function PartialKey(group: OpsGroup): string
    requires HasDeparture(group)
  {
    group.departureDate.value + "|" + OrEmpty(group.airline) + "|"
  }

  /** `date||`, registered only for groups with a departure date. */
  function DegradedKey(group: OpsGroup): string
    requires HasDeparture(group)
  {
    group.departureDate.value + "||"
  }

  /** The keys a group registers: its full key, and with a departure date also the partial and degraded keys. */
  predicate Registers(group: OpsGroup, key: string) {
    key == GroupStructureKey(group) || (HasDeparture(group) && (key == PartialKey(group) || key == DegradedKey(group)))
  }

  /** `registerGroupKey`: a key already taken keeps its first group. */
  function RegisterKey(index: map<string, OpsGroup>, key: string, group: OpsGroup): map<string, OpsGroup> {
    if key in index then index else index[key := group]
  }

  function RegisterGroup(index: map<string, OpsGroup>, group: OpsGroup): map<string, OpsGroup> {
    var withBase := RegisterKey(index, GroupStructureKey(group), group);
    if HasDeparture(group) then
      RegisterKey(RegisterKey(withBase, PartialKey(group), group), DegradedKey(group), group)
    else
      withBase
  }

  /** The index after registering every group in order. */
  function GroupIndex(groups: seq<OpsGroup>): map<string, OpsGroup>
    decreases |groups|
  {
    if groups == [] then map[] else RegisterGroup(GroupIndex(groups[..|groups| - 1]), groups[|groups| - 1])
  }

  /** The position of the earliest group that registers `key`, if any. */
  function FirstRegistrant(groups: seq<OpsGroup>, key: string): (r: Option<nat>)
    ensures r.Some? ==> r.value < |groups| && Registers(groups[r.value], key)
    ensures r.Some? ==> forall j :: 0 <= j < r.value ==> !Registers(groups[j], key)
    ensures r.None? ==> forall j :: 0 <= j < |groups| ==> !Registers(groups[j], key)
    decreases |groups|
  {
    if groups == [] then None
    else
      var prefix := groups[..|groups| - 1];
      var earlier := FirstRegistrant(prefix, key);
      if earlier.Some? then earlier
      else if Registers(groups[|groups| - 1], key) then Some(|groups| - 1)
      else None
  }

  lemma RegisterGroupDefines(index: map<string, OpsGroup>, group: OpsGroup, key: string)
    ensures key in RegisterGroup(index, group) <==> key in index || Registers(group, key)
    ensures key in RegisterGroup(index, group) ==>
      RegisterGroup(index, group)[key] == if key in index then index[key] else group
  {
  }

  /** First writer wins: the index maps a key to the earliest group registering it. */
  lemma {:induction false} IndexIsFirstRegistrant(groups: seq<OpsGroup>, key: string)
    ensures key in GroupIndex(groups) <==> FirstRegistrant(groups, key).Some?
    ensures key in GroupIndex(groups) ==> GroupIndex(groups)[key] == groups[FirstRegistrant(groups, key).value]
    decreases |groups|
  {
    if groups != [] {
      var prefix := groups[..|groups| - 1];
      IndexIsFirstRegistrant(prefix, key);
      RegisterGroupDefines(GroupIndex(prefix), groups[|groups| - 1], key);
    }
  }

  lemma GroupIndexSnoc(groups: seq<OpsGroup>, i: nat)
    requires i < |groups|
    ensures GroupIndex(groups[..i + 1]) == RegisterGroup(GroupIndex(groups[..i]), groups[i])
  {
    assert groups[..i + 1][..i] == groups[..i];
  }

  /** Fills the key index one group at a time. */
  method BuildGroupIndex(groups: seq<OpsGroup>) returns (index: map<string, OpsGroup>)
    ensures index == GroupIndex(groups)
    ensures forall key :: key in index <==> FirstRegistrant(groups, key).Some?
    ensures forall key :: key in index ==> index[key] == groups[FirstRegistrant(groups, key).value]
  {
    index := map[];
    var i := 0;
    while i < |groups|
      invariant 0 <= i <= |groups|
      invariant index == GroupIndex(groups[..i])
    {
      var group := groups[i];
      ghost var before := index;
      var baseKey := GroupStructureKey(group);
      index := RegisterKey(index, baseKey, group);
      if HasDeparture(group) {
        index := RegisterKey(index, PartialKey(group), group);
        index := RegisterKey(index, DegradedKey(group), group);
      }
      assert index == RegisterGroup(before, group);
      GroupIndexSnoc(groups, i);
      i := i + 1;
    }
    assert groups[..i] == groups;
    IndexIsEveryFirstRegistrant(groups);
  }

  lemma IndexIsEveryFirstRegistrant(groups: seq<OpsGroup>)
    ensures forall key :: key in GroupIndex(groups) <==> FirstRegistrant(groups, key).Some?
    ensures forall key :: key in GroupIndex(groups) ==> GroupIndex(groups)[key] == groups[FirstRegistrant(groups, key).value]
  {
    forall key ensures (key in GroupIndex(groups) <==> FirstRegistrant(groups, key).Some?) &&
      (key in GroupIndex(groups) ==> GroupIndex(groups)[key] == groups[FirstRegistrant(groups, key).value])
    {
      IndexIsFirstRegistrant(groups, key);
    }
  }

  /** The group built for an unmatched flight at position `idx`. */
  function NewGroup(flight: FlightSegment, idx: nat, id: string, now: string): (g: OpsGroup)
    ensures g.id == id && g.flightLabel == FormatFlightLabel(flight)
    ensures g.airline == Some(flight.airline)
    ensures g.departureDate == Some(flight.departureDate) && g.returnDate == Some(flight.returnDate)
    ensures GroupStructureKey(g) == FlightStructureKey(flight)
    ensures g.status == PendingValidation && g.validationDate.None? && g.suppliers == [] && g.costs == []
    ensures g.timeline == [OpsTimelineItem(GROUP_CREATED, Some(now), Some("Vol " + NatToString(idx + 1)), Some(Info))]
  {
    OpsGroup(id, FormatFlightLabel(flight), Some(flight.airline), Some(flight.departureDate), Some(flight.returnDate),
      PendingValidation, None, [], [],
      [OpsTimelineItem(GROUP_CREATED, Some(now), Some("Vol " + NatToString(idx + 1)), Some(Info))])
  }

  /** A matched group keeps its identity and children; only the flight-derived fields change. */
  function RefreshGroup(group: OpsGroup, flight: FlightSegment): (r: OpsGroup)
    ensures r.id == group.id && r.status == group.status && r.validationDate == group.validationDate
    ensures r.suppliers == group.suppliers && r.costs == group.costs && r.timeline == group.timeline
    ensures r.flightLabel == FormatFlightLabel(flight) && r.airline == Some(flight.airline)
    ensures r.departureDate == Some(flight.departureDate) && r.returnDate == Some(flight.returnDate)
  {
    group.(flightLabel := FormatFlightLabel(flight), airline := Some(flight.airline),
      departureDate := Some(flight.departureDate), returnDate := Some(flight.returnDate))
  }

  function MergeFlight(index: map<string, OpsGroup>, flight: FlightSegment, idx: nat, newId: nat -> string, now: string): OpsGroup {
    var key := FlightStructureKey(flight);
    if key in index then RefreshGroup(index[key], flight) else NewGroup(flight, idx, newId(idx), now)
  }

  function ExistingGroups(existingOps: Option<OpsProject>): seq<OpsGroup> {
    if existingOps.Some? then existingOps.value.groups else []
  }

  /** The project the merge produces. */
  function MergedProject(existingOps: Option<OpsProject>, pkg: TravelPackage, newId: nat -> string, now: string): OpsProject {
    var index := GroupIndex(ExistingGroups(existingOps));
    var flights := pkg.flights.flights;
    OpsProject(
      if existingOps.Some? then existingOps.value.id else newId(|flights|),
      pkg.id,
      seq(|flights|, i requires 0 <= i < |flights| => MergeFlight(index, flights[i], i, newId, now)))
  }

  /** The merge as written: the index is filled by a loop, then each flight is mapped. */
  method MergeOpsProject(existingOps: Option<OpsProject>, pkg: TravelPackage, newId: nat -> string, now: string)
    returns (ops: OpsProject)
    ensures ops == MergedProject(existingOps, pkg, newId, now)
  {
    var index := BuildGroupIndex(ExistingGroups(existingOps));
    var flights := pkg.flights.flights;
    var groups := seq(|flights|, i requires 0 <= i < |flights| => MergeFlight(index, flights[i], i, newId, now));
    var id := if existingOps.Some? then existingOps.value.id else newId(|flights|);
    ops := OpsProject(id, pkg.id, groups);
  }

  /**
   * One group per flight, in flight order: the refreshed earliest group registering
   * the flight's full key, or a fresh pending group with a single creation entry.
   */
  lemma MergeMatchesFirstRegistrant(existingOps: Option<OpsProject>, pkg: TravelPackage, newId: nat -> string, now: string)
    ensures
      var ops := MergedProject(existingOps, pkg, newId, now);
      var previous := ExistingGroups(existingOps);
      var flights := pkg.flights.flights;
      |ops.groups| == |flights| && ops.packageId == pkg.id &&
      ops.id == (if existingOps.Some? then existingOps.value.id else newId(|flights|)) &&
      forall i :: 0 <= i < |flights| ==>
        match FirstRegistrant(previous, FlightStructureKey(flights[i]))
        case Some(j) => ops.groups[i] == RefreshGroup(previous[j], flights[i])
        case None =>
          ops.groups[i].id == newId(i) &&
          ops.groups[i].airline == Some(flights[i].airline) &&
          ops.groups[i].departureDate == Some(flights[i].departureDate) &&
          ops.groups[i].returnDate == Some(flights[i].returnDate) &&
          ops.groups[i].flightLabel == flights[i].airline + " - départ " + flights[i].departureDate &&
          ops.groups[i].status == PendingValidation && ops.groups[i].validationDate.None? &&
          ops.groups[i].suppliers == [] && ops.groups[i].costs == [] &&
          ops.groups[i].timeline == [OpsTimelineItem("Groupe créé", Some(now), Some("Vol " + NatToString(i + 1)), Some(Info))]
  {
    var previous := ExistingGroups(existingOps);
    forall key {
      IndexIsFirstRegistrant(previous, key);
    }
  }

  /**
   * A flight whose return date is non-empty and does not end in `|` can only find
   * a group through that group's own full key: partial and degraded keys never match it.
   */
  lemma ReturnDateRestrictsLookup(group: OpsGroup, flight: FlightSegment)
    requires flight.returnDate != "" && flight.returnDate[|flight.returnDate| - 1] != '|'
    ensures Registers(group, FlightStructureKey(flight)) <==> GroupStructureKey(group) == FlightStructureKey(flight)
  {
    var key := FlightStructureKey(flight);
    StructureKeyParts(flight.departureDate, flight.airline, flight.returnDate);
    assert key[|key| - 1] == flight.returnDate[|flight.returnDate| - 1];
    if HasDeparture(group) {
      assert PartialKey(group)[|PartialKey(group)| - 1] == '|';
      assert DegradedKey(group)[|DegradedKey(group)| - 1] == '|';
    }
  }

  /** A flight without return date is found by the partial key of a group with its date and airline. */
  lemma PartialKeyServesMissingReturn(group: OpsGroup, flight: FlightSegment)
    requires flight.returnDate == "" && flight.departureDate != ""
    requires group.departureDate == Some(flight.departureDate) && OrEmpty(group.airline) == flight.airline
    ensures Registers(group, FlightStructureKey(flight))
  {
    assert FlightStructureKey(flight) == PartialKey(group);
  }

  /** A flight with neither airline nor return date is found by the degraded key of any group on its date. */
  lemma DegradedKeyServesBareDate(group: OpsGroup, flight: FlightSegment)
    requires flight.returnDate == "" && flight.airline == "" && flight.departureDate != ""
    requires group.departureDate == Some(flight.departureDate)
    ensures Registers(group, FlightStructureKey(flight))
  {
    assert FlightStructureKey(flight) == DegradedKey(group);
  }

  /** Flights with the same key that find a group both receive it, so group ids can repeat. */
  lemma SameKeySharesGroup(existingOps: Option<OpsProject>, pkg: TravelPackage, newId: nat -> string, now: string, i: nat, j: nat)
    requires i < |pkg.flights.flights| && j < |pkg.flights.flights|
    requires FlightStructureKey(pkg.flights.flights[i]) == FlightStructureKey(pkg.flights.flights[j])
    requires FirstRegistrant(ExistingGroups(existingOps), FlightStructureKey(pkg.flights.flights[i])).Some?
    ensures MergedProject(existingOps, pkg, newId, now).groups[i].id == MergedProject(existingOps, pkg, newId, now).groups[j].id
  {
    MergeMatchesFirstRegistrant(existingOps, pkg, newId, now);
  }

  /**
   * A group that is the first registrant of no flight's key leaves no trace: no
   * merged group carries its id, given distinct existing ids and a supply that
   * does not reuse them.
   */
  lemma UnclaimedGroupIsDropped(existing: OpsProject, pkg: TravelPackage, newId: nat -> string, now: string, j: nat)
    requires j < |existing.groups|
    requires forall a, b :: 0 <= a < b < |existing.groups| ==> existing.groups[a].id != existing.groups[b].id
    requires forall i :: 0 <= i < |pkg.flights.flights| ==>
      FirstRegistrant(existing.groups, FlightStructureKey(pkg.flights.flights[i])) != Some(j)
    requires forall i :: 0 <= i < |pkg.flights.flights| ==> newId(i) != existing.groups[j].id
    ensures forall g :: g in MergedProject(Some(existing), pkg, newId, now).groups ==> g.id != existing.groups[j].id
  {
    MergeMatchesFirstRegistrant(Some(existing), pkg, newId, now);
    var ops := MergedProject(Some(existing), pkg, newId, now);
    forall g | g in ops.groups ensures g.id != existing.groups[j].id {
      var i :| 0 <= i < |ops.groups| && ops.groups[i] == g;
      var first := FirstRegistrant(existing.groups, FlightStructureKey(pkg.flights.flights[i]));
      if first.Some? {
        var k := first.value;
        assert k != j;
        if k < j {
          assert existing.groups[k].id != existing.groups[j].id;
        } else {
          assert existing.groups[j].id != existing.groups[k].id;
        }
      }
    }
  }
}
