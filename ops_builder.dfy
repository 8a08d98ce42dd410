/**
 * The server-side twin of the store's key functions: the key of a stored
 * departure (whose dates are instants) and the records created for a new
 * package's flights. The flight key and the change gate are shared with the
 * store and live in module FlightStructure.
 */
module OpsBuilder {
  import opened Wrappers
  import opened Text
  import opened Types
  import opened FlightStructure

  /** A stored instant, observed only through its ISO-8601 rendering. */
  datatype Instant = Instant(iso: string)

  datatype DepartureSnapshot = DepartureSnapshot(
    id: string,
    airline: Option<string>,
    departureDate: Option<Instant>,
    returnDate: Option<Instant>,
    flightLabel: string)

  datatype TimelineDraft = TimelineDraft(title: string, date: Instant, note: string, kind: TimelineKind)

  /** A departure to be created; the database assigns its id. */
  datatype DepartureDraft = DepartureDraft(
    flightLabel: string,
    airline: Option<string>,
    departureDate: Option<Instant>,
    returnDate: Option<Instant>,
    timelineItems: seq<TimelineDraft>)

  /** `s.slice(0, 10)` */
  function Slice10(s: string): (r: string)
    ensures |r| == if |s| < 10 then |s| else 10
    ensures r == s[..|r|]
  {
    if |s| <= 10 then s else s[..10]
  }

  /** `d?.toISOString().slice(0, 10) || ""` */
  function DayOf(d: Option<Instant>): (r: string)
    ensures d.None? ==> r == ""
    ensures d.Some? ==> r == Slice10(d.value.iso)
  {
    match d
    case None => ""
    case Some(i) => Slice10(i.iso)
  }

  function DepartureStructureKey(departure: DepartureSnapshot): string {
    StructureKey(DayOf(departure.departureDate), OrEmpty(departure.airline), DayOf(departure.returnDate))
  }

  const DEPARTURE_CREATED := "Groupe cree"

  function DepartureLabel(flight: FlightSegment): string {
    flight.airline + " - depart " + flight.departureDate
  }

  /** `s ? new Date(s) : null`, with date parsing a parameter. */
  function ParsedOrNull(s: string, parse: string -> Instant): (r: Option<Instant>)
    ensures r.None? <==> s == ""
    ensures r.Some? ==> r.value == parse(s)
  {
    if s == "" then None else Some(parse(s))
  }

  function BuildDeparturesFromFlights(flights: seq<FlightSegment>, parse: string -> Instant, now: Instant): (ds: seq<DepartureDraft>)
    ensures |ds| == |flights|
    ensures forall i :: 0 <= i < |flights| ==>
      ds[i].flightLabel == flights[i].airline + " - depart " + flights[i].departureDate &&
      ds[i].airline == Some(flights[i].airline) &&
      (ds[i].departureDate.None? <==> flights[i].departureDate == "") &&
      (ds[i].departureDate.Some? ==> ds[i].departureDate.value == parse(flights[i].departureDate)) &&
      (ds[i].returnDate.None? <==> flights[i].returnDate == "") &&
      (ds[i].returnDate.Some? ==> ds[i].returnDate.value == parse(flights[i].returnDate)) &&
      ds[i].timelineItems == [TimelineDraft(DEPARTURE_CREATED, now, "Vol " + NatToString(i + 1), Info)]
  {
    seq(|flights|, i requires 0 <= i < |flights| =>
      DepartureDraft(
        DepartureLabel(flights[i]),
        Some(flights[i].airline),
        ParsedOrNull(flights[i].departureDate, parse),
        ParsedOrNull(flights[i].returnDate, parse),
        [TimelineDraft(DEPARTURE_CREATED, now, "Vol " + NatToString(i + 1), Info)]))
  }

  /** Parsing a `YYYY-MM-DD` string gives back the same day in ISO form. */
  predicate DayRoundTrips(s: string, parse: string -> Instant) {
    s == "" || Slice10(parse(s).iso) == s
  }

  /**
   * Once stored, a built departure has the same structural key as the flight it
   * came from, provided the flight's dates are days that survive parsing.
   */
  lemma BuiltDepartureKeepsKey(flights: seq<FlightSegment>, parse: string -> Instant, now: Instant, i: nat, id: string)
    requires i < |flights|
    requires DayRoundTrips(flights[i].departureDate, parse) && DayRoundTrips(flights[i].returnDate, parse)
    ensures
      var d := BuildDeparturesFromFlights(flights, parse, now)[i];
      DepartureStructureKey(DepartureSnapshot(id, d.airline, d.departureDate, d.returnDate, d.flightLabel))
        == FlightStructureKey(flights[i])
  {
  }

  /** A flight whose date carries a time of day no longer matches its stored departure. */
  lemma TimeOfDayBreaksKey(parse: string -> Instant, now: Instant)
    requires parse("2024-02-01T10:00") == Instant("2024-02-01T10:00:00.000Z")
    ensures
      var f := FlightSegment("AF", "2024-02-01T10:00", "", None, None);
      var d := BuildDeparturesFromFlights([f], parse, now)[0];
      DepartureStructureKey(DepartureSnapshot("dep-1", d.airline, d.departureDate, d.returnDate, d.flightLabel))
        != FlightStructureKey(f)
  {
    var f := FlightSegment("AF", "2024-02-01T10:00", "", None, None);
    var d := BuildDeparturesFromFlights([f], parse, now)[0];
    assert DayOf(d.departureDate) == "2024-02-01";
    var k := DepartureStructureKey(DepartureSnapshot("dep-1", d.airline, d.departureDate, d.returnDate, d.flightLabel));
    StructureKeyParts("2024-02-01", "AF", "");
    StructureKeyParts("2024-02-01T10:00", "AF", "");
    assert |k| != |FlightStructureKey(f)|;
  }
}
