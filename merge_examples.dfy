/** Concrete reconciliations that show what the key lookup does and does not preserve. */
module MergeExamples {
  import opened Wrappers
  import opened Types
  import opened FlightStructure
  import opened OpsMerge

  function PackageWithFlights(id: string, flights: seq<FlightSegment>): TravelPackage {
    TravelPackage(id, Draft,
      PackageGeneralInfo("Omra Printemps", "OMR-24", "Nadia", "2024-01-10", None, 20),
      PackageFlights("Makkah", [], flights, None, None),
      [], AgencyCommissions(0, 0, 0, 0, 0), Itinerary(true, []), None)
  }

  const ValidatedGroup := OpsGroup("grp-1", "AF - départ 2024-05-01", Some("AF"), Some("2024-05-01"), Some("2024-05-08"),
    Validated, Some("2024-04-20"), [Supplier("Hotel Hilton", None, Some(1200), None)], [], [])

  const ExistingProject := OpsProject("ops-1", "pkg-1", [ValidatedGroup])

  /** Keeping the flight's three fields keeps the validated group with its suppliers. */
  lemma SameFlightKeepsGroup(newId: nat -> string, now: string)
    ensures
      var ops := MergedProject(Some(ExistingProject), PackageWithFlights("pkg-1", [FlightSegment("AF", "2024-05-01", "2024-05-08", None, None)]), newId, now);
      |ops.groups| == 1 && ops.id == "ops-1" && ops.groups[0].id == "grp-1" &&
      ops.groups[0].status == Validated && ops.groups[0].suppliers == ValidatedGroup.suppliers
  {
    var pkg := PackageWithFlights("pkg-1", [FlightSegment("AF", "2024-05-01", "2024-05-08", None, None)]);
    MergeMatchesFirstRegistrant(Some(ExistingProject), pkg, newId, now);
    assert Registers(ValidatedGroup, FlightStructureKey(pkg.flights.flights[0]));
  }

  /**
   * Changing only the airline of the flight loses the group: the lookup uses the
   * flight's full key, which none of the group's keys equals, so a fresh pending
   * group replaces the validated one.
   */
  lemma AirlineChangeCreatesFreshGroup(newId: nat -> string, now: string)
    ensures
      var ops := MergedProject(Some(ExistingProject), PackageWithFlights("pkg-1", [FlightSegment("KL", "2024-05-01", "2024-05-08", None, None)]), newId, now);
      |ops.groups| == 1 && ops.groups[0].id == newId(0) &&
      ops.groups[0].status == PendingValidation && ops.groups[0].suppliers == []
  {
    var pkg := PackageWithFlights("pkg-1", [FlightSegment("KL", "2024-05-01", "2024-05-08", None, None)]);
    MergeMatchesFirstRegistrant(Some(ExistingProject), pkg, newId, now);
    ReturnDateRestrictsLookup(ValidatedGroup, pkg.flights.flights[0]);
    assert GroupStructureKey(ValidatedGroup)[11] != FlightStructureKey(pkg.flights.flights[0])[11];
    assert FirstRegistrant(ExistingProject.groups, FlightStructureKey(pkg.flights.flights[0])).None?;
  }

  const WithReturn := FlightSegment("AF", "2024-05-01", "2024-05-08", None, None)
  const OneWay := FlightSegment("AF", "2024-05-01", "", None, None)

  /**
   * Merging the same flights a second time is not stable: the one-way flight's key
   * `2024-05-01|AF|` is the partial key the first group registered, so the second
   * merge hands the first group to both flights.
   */
  lemma RemergeCanReassignGroup(newId: nat -> string, now: string)
    requires newId(0) != newId(1)
    ensures
      var pkg := PackageWithFlights("pkg-1", [WithReturn, OneWay]);
      var first := MergedProject(None, pkg, newId, now);
      var second := MergedProject(Some(first), pkg, newId, now);
      first.groups[1].id == newId(1) && second.groups[1].id == newId(0) &&
      second.groups[1].id != first.groups[1].id
  {
    var pkg := PackageWithFlights("pkg-1", [WithReturn, OneWay]);
    var first := MergedProject(None, pkg, newId, now);
    MergeMatchesFirstRegistrant(None, pkg, newId, now);
    MergeMatchesFirstRegistrant(Some(first), pkg, newId, now);
    assert first.groups[0].id == newId(0);
    assert PartialKey(first.groups[0]) == FlightStructureKey(OneWay);
    assert FirstRegistrant(first.groups, FlightStructureKey(OneWay)) == Some(0);
  }
}
