/**
 * The package form's validation, the publish and save gates that depend on it,
 * and the renumbering of itinerary days after one is removed.
 */
module PackageEditor {
  import opened Wrappers
  import opened Text
  import opened Types
  import opened Seqs
  import PackageStore

  /** `${idx + 1}`: the one-based position the issues are numbered by. */
  function OneBased(i: nat): string { NatToString(i + 1) }

  function GeneralIssues(pkg: TravelPackage): seq<string> {
    (if Trim(pkg.general.productName) == "" then ["Nom du produit requis"] else []) +
    (if Trim(pkg.general.productCode) == "" then ["Code produit requis"] else []) +
    (if Trim(pkg.general.responsible) == "" then ["Responsable requis"] else []) +
    (if pkg.general.creationDate == "" then ["Date de création requise"] else []) +
    (if Trim(pkg.flights.destination) == "" then ["Destination requise"] else []) +
    (if pkg.general.stock < 0 then ["Stock doit être positif"] else [])
  }

  /** The issues of flight number `i + 1`. */
  function FlightLineIssues(f: FlightSegment, i: nat): seq<string> {
    (if Trim(f.airline) == "" then ["Vol " + OneBased(i) + ": compagnie requise"] else []) +
    (if f.departureDate == "" then ["Vol " + OneBased(i) + ": date départ requise"] else []) +
    (if f.returnDate == "" then ["Vol " + OneBased(i) + ": date retour requise"] else [])
  }

  function FlightsIssues(flights: seq<FlightSegment>): seq<string>
    decreases |flights|
  {
    if flights == [] then []
    else FlightsIssues(flights[..|flights| - 1]) + FlightLineIssues(flights[|flights| - 1], |flights| - 1)
  }

  function PriceLineIssues(p: PricingItem, i: nat, strict: bool): seq<string> {
    (if Trim(p.labelText) == "" then ["Tarif " + OneBased(i) + ": label requis"] else []) +
    (if strict && p.unitPrice <= 0 then ["Tarif " + OneBased(i) + ": prix > 0 requis"] else [])
  }

  function PricesIssues(pricing: seq<PricingItem>, strict: bool): seq<string>
    decreases |pricing|
  {
    if pricing == [] then []
    else PricesIssues(pricing[..|pricing| - 1], strict) + PriceLineIssues(pricing[|pricing| - 1], |pricing| - 1, strict)
  }

  function DayLineIssues(d: ItineraryDay, i: nat): seq<string> {
    if Trim(d.description) == "" then ["Itinéraire J" + OneBased(i) + ": description requise"] else []
  }

  function DaysIssues(days: seq<ItineraryDay>): seq<string>
    decreases |days|
  {
    if days == [] then [] else DaysIssues(days[..|days| - 1]) + DayLineIssues(days[|days| - 1], |days| - 1)
  }

  function FlightSection(flights: seq<FlightSegment>): seq<string> {
    (if |flights| == 0 then ["Au moins un vol requis"] else []) + FlightsIssues(flights)
  }

  function PricingSection(pricing: seq<PricingItem>, strict: bool): seq<string> {
    (if |pricing| == 0 then ["Au moins un tarif requis"] else []) + PricesIssues(pricing, strict)
  }

  function ItinerarySection(days: seq<ItineraryDay>, strict: bool): seq<string> {
    (if |days| == 0 then ["Itinéraire: ajouter au moins un jour"] else []) +
    (if strict then DaysIssues(days) else [])
  }

  /** All issues in the order the form reports them; `strict` is the publish intent. */
  function PackageIssues(pkg: TravelPackage, strict: bool): seq<string> {
    GeneralIssues(pkg) + FlightSection(pkg.flights.flights) +
    PricingSection(pkg.pricing, strict) + ItinerarySection(pkg.itinerary.days, strict)
  }

  lemma FlightsIssuesSnoc(flights: seq<FlightSegment>, i: nat)
    requires i < |flights|
    ensures FlightsIssues(flights[..i + 1]) == FlightsIssues(flights[..i]) + FlightLineIssues(flights[i], i)
  {
    assert flights[..i + 1][..i] == flights[..i];
  }

  lemma PricesIssuesSnoc(pricing: seq<PricingItem>, j: nat, strict: bool)
    requires j < |pricing|
    ensures PricesIssues(pricing[..j + 1], strict) == PricesIssues(pricing[..j], strict) + PriceLineIssues(pricing[j], j, strict)
  {
    assert pricing[..j + 1][..j] == pricing[..j];
  }

  lemma DaysIssuesSnoc(days: seq<ItineraryDay>, k: nat)
    requires k < |days|
    ensures DaysIssues(days[..k + 1]) == DaysIssues(days[..k]) + DayLineIssues(days[k], k)
  {
    assert days[..k + 1][..k] == days[..k];
  }

  /** The per-flight part of the flight section of `validatePackage`, one flight at a time. */
  method CollectFlightIssues(flights: seq<FlightSegment>) returns (issues: seq<string>)
    ensures issues == FlightsIssues(flights)
  {
    issues := [];
    var i := 0;
    while i < |flights|
      invariant 0 <= i <= |flights|
      invariant issues == FlightsIssues(flights[..i])
    {
      FlightsIssuesSnoc(flights, i);
      issues := issues + FlightLineIssues(flights[i], i);
      i := i + 1;
    }
    assert flights[..i] == flights;
  }

  /** The per-line part of the pricing section of `validatePackage`, one line at a time. */
  method CollectPriceIssues(pricing: seq<PricingItem>, strict: bool) returns (issues: seq<string>)
    ensures issues == PricesIssues(pricing, strict)
  {
    issues := [];
    var j := 0;
    while j < |pricing|
      invariant 0 <= j <= |pricing|
      invariant issues == PricesIssues(pricing[..j], strict)
    {
      PricesIssuesSnoc(pricing, j, strict);
      issues := issues + PriceLineIssues(pricing[j], j, strict);
      j := j + 1;
    }
    assert pricing[..j] == pricing;
  }

  /** The per-day part of the itinerary section of `validatePackage`, one day at a time. */
  method CollectDayIssues(days: seq<ItineraryDay>) returns (issues: seq<string>)
    ensures issues == DaysIssues(days)
  {
    issues := [];
    var k := 0;
    while k < |days|
      invariant 0 <= k <= |days|
      invariant issues == DaysIssues(days[..k])
    {
      DaysIssuesSnoc(days, k);
      issues := issues + DayLineIssues(days[k], k);
      k := k + 1;
    }
    assert days[..k] == days;
  }

  /** `validatePackage`: the sections in order; `strict` is the publish intent. */
  method ValidatePackage(pkg: TravelPackage, strict: bool) returns (issues: seq<string>)
    ensures issues == PackageIssues(pkg, strict)
  {
    var flights := if |pkg.flights.flights| == 0 then ["Au moins un vol requis"] else [];
    var perFlight := CollectFlightIssues(pkg.flights.flights);
    flights := flights + perFlight;
    var prices := if |pkg.pricing| == 0 then ["Au moins un tarif requis"] else [];
    var perPrice := CollectPriceIssues(pkg.pricing, strict);
    prices := prices + perPrice;
    var days := if |pkg.itinerary.days| == 0 then ["Itinéraire: ajouter au moins un jour"] else [];
    if strict {
      var perDay := CollectDayIssues(pkg.itinerary.days);
      days := days + perDay;
    } else {
      assert days == days + [];
    }
    assert flights == FlightSection(pkg.flights.flights);
    assert prices == PricingSection(pkg.pricing, strict);
    assert days == ItinerarySection(pkg.itinerary.days, strict);
    issues := GeneralIssues(pkg) + flights + prices + days;
  }

  lemma {:induction false} PricesSaveWithinPublish(pricing: seq<PricingItem>)
    ensures Subsequence(PricesIssues(pricing, false), PricesIssues(pricing, true))
    decreases |pricing|
  {
    if pricing != [] {
      var n := |pricing| - 1;
      PricesSaveWithinPublish(pricing[..n]);
      var p := pricing[n];
      var labelIssue := if Trim(p.labelText) == "" then ["Tarif " + OneBased(n) + ": label requis"] else [];
      var price := if p.unitPrice <= 0 then ["Tarif " + OneBased(n) + ": prix > 0 requis"] else [];
      SubsequenceReflexive(labelIssue);
      EmptyIsSubsequence(price);
      SubsequenceConcat(labelIssue, labelIssue, [], price);
      assert PriceLineIssues(p, n, false) == labelIssue + [];
      SubsequenceConcat(PricesIssues(pricing[..n], false), PricesIssues(pricing[..n], true), PriceLineIssues(p, n, false), PriceLineIssues(p, n, true));
    }
  }

  lemma Regroup(a: seq<string>, b: seq<string>, c: seq<string>, d: seq<string>)
    ensures a + b + c + d == (a + b) + (c + d)
  {
  }

  /** Every issue a save reports is also reported, in the same order, when publishing. */
  lemma SaveIssuesWithinPublishIssues(pkg: TravelPackage)
    ensures Subsequence(PackageIssues(pkg, false), PackageIssues(pkg, true))
  {
    var head := GeneralIssues(pkg) + FlightSection(pkg.flights.flights);
    var days := pkg.itinerary.days;
    var noDay := if |days| == 0 then ["Itinéraire: ajouter au moins un jour"] else [];
    var noPrice := if |pkg.pricing| == 0 then ["Au moins un tarif requis"] else [];
    PricesSaveWithinPublish(pkg.pricing);
    SubsequenceReflexive(noPrice);
    SubsequenceConcat(noPrice, noPrice, PricesIssues(pkg.pricing, false), PricesIssues(pkg.pricing, true));
    SubsequenceReflexive(noDay);
    EmptyIsSubsequence(DaysIssues(days));
    SubsequenceConcat(noDay, noDay, [], DaysIssues(days));
    assert ItinerarySection(days, false) == noDay + [];
    SubsequenceConcat(PricingSection(pkg.pricing, false), PricingSection(pkg.pricing, true),
      ItinerarySection(days, false), ItinerarySection(days, true));
    SubsequenceReflexive(head);
    SubsequenceConcat(head, head,
      PricingSection(pkg.pricing, false) + ItinerarySection(days, false),
      PricingSection(pkg.pricing, true) + ItinerarySection(days, true));
    Regroup(GeneralIssues(pkg), FlightSection(pkg.flights.flights), PricingSection(pkg.pricing, false), ItinerarySection(days, false));
    Regroup(GeneralIssues(pkg), FlightSection(pkg.flights.flights), PricingSection(pkg.pricing, true), ItinerarySection(days, true));
  }

  /** A package valid for publishing is valid for saving. */
  lemma PublishableIsSavable(pkg: TravelPackage)
    requires |PackageIssues(pkg, true)| == 0
    ensures |PackageIssues(pkg, false)| == 0
  {
    SaveIssuesWithinPublishIssues(pkg);
  }

  /** Validation does not look at the status. */
  lemma IssuesIgnoreStatus(pkg: TravelPackage, status: PackageStatus, strict: bool)
    ensures PackageIssues(pkg.(status := status), strict) == PackageIssues(pkg, strict)
  {
  }

  /** Removes day `idx` and numbers the rest from 1; an emptied itinerary keeps one blank day 1. */
  function RemoveDay(days: seq<ItineraryDay>, idx: int): (r: seq<ItineraryDay>)
    ensures r != []
    ensures forall i :: 0 <= i < |r| ==> r[i].dayNumber == i + 1
    ensures |PackageStore.WithoutIndex(days, idx)| > 0 ==>
      |r| == |PackageStore.WithoutIndex(days, idx)| &&
      forall i :: 0 <= i < |r| ==> r[i].description == PackageStore.WithoutIndex(days, idx)[i].description
    ensures |PackageStore.WithoutIndex(days, idx)| == 0 ==> r == [ItineraryDay(1, "")]
  {
    var kept := PackageStore.WithoutIndex(days, idx);
    var renumbered := seq(|kept|, i requires 0 <= i < |kept| => kept[i].(dayNumber := i + 1));
    if |renumbered| > 0 then renumbered else [ItineraryDay(1, "")]
  }

  /** The form's package and the errors it shows. */
  class Editor {
    var form: TravelPackage
    var errors: seq<string>

    /**
     * The form starts from `base` (the package being edited, or the empty one), with a
     * blank product code, responsible or creation date filled in from `productCode`
     * (`generateProductCode()`), `responsible` (`DEFAULT_RESPONSIBLE_NAME`) and `today`
     * (`todayISO()`).
     */
    constructor (base: TravelPackage, productCode: string, responsible: string, today: string)
      ensures form == base.(general := form.general) && errors == []
      ensures form.general == base.general.(productCode := OrElse(base.general.productCode, productCode),
        responsible := OrElse(base.general.responsible, responsible), creationDate := OrElse(base.general.creationDate, today))
      ensures productCode != "" ==> form.general.productCode != ""
      ensures responsible != "" ==> form.general.responsible != ""
      ensures today != "" ==> form.general.creationDate != ""
    {
      form := base.(general := base.general.(
        productCode := OrElse(base.general.productCode, productCode),
        responsible := OrElse(base.general.responsible, responsible),
        creationDate := OrElse(base.general.creationDate, today)));
      errors := [];
    }

    /** `setStatus`: publishing is refused while publish validation reports issues. */
    method SetStatus(next: PackageStatus)
      modifies this
      ensures next == Published && |PackageIssues(old(form), true)| > 0 ==>
        form == old(form) && errors == PackageIssues(old(form), true)
      ensures !(next == Published && |PackageIssues(old(form), true)| > 0) ==>
        form == old(form).(status := next) && errors == []
    {
      if next == Published {
        var issues := ValidatePackage(form, true);
        errors := issues;
        if |issues| > 0 {
          return;
        }
      }
      errors := [];
      form := form.(status := next);
    }

    /**
     * `save`: validates with the publish intent exactly when the final status is
     * published, and hands back the package to store only when there is no issue.
     */
    method Save(nextStatus: Option<PackageStatus>) returns (payload: Option<TravelPackage>)
      modifies this
      ensures form == old(form)
      ensures var finalStatus := nextStatus.GetOr(old(form).status);
        errors == PackageIssues(old(form), finalStatus == Published) &&
        (payload.Some? <==> |errors| == 0) &&
        (payload.Some? ==> payload.value == old(form).(status := finalStatus))
    {
      var finalStatus := nextStatus.GetOr(form.status);
      var issues := ValidatePackage(form, finalStatus == Published);
      errors := issues;
      if |issues| > 0 {
        return None;
      }
      payload := Some(form.(status := finalStatus));
    }
  }

  /** What the form requires of a flight line. */
  predicate FlightComplete(f: FlightSegment) {
    !IsBlank(f.airline) && f.departureDate != "" && f.returnDate != ""
  }

  predicate PriceComplete(p: PricingItem, strict: bool) {
    !IsBlank(p.labelText) && (strict ==> p.unitPrice > 0)
  }

  predicate DayDescribed(d: ItineraryDay) {
    !IsBlank(d.description)
  }

  predicate GeneralComplete(pkg: TravelPackage) {
    !IsBlank(pkg.general.productName) && !IsBlank(pkg.general.productCode) &&
    !IsBlank(pkg.general.responsible) && pkg.general.creationDate != "" &&
    !IsBlank(pkg.flights.destination) && pkg.general.stock >= 0
  }

  predicate FlightsComplete(flights: seq<FlightSegment>) {
    flights != [] && forall i :: 0 <= i < |flights| ==> FlightComplete(flights[i])
  }

  predicate PricingComplete(pricing: seq<PricingItem>, strict: bool) {
    pricing != [] && forall i :: 0 <= i < |pricing| ==> PriceComplete(pricing[i], strict)
  }

  predicate ItineraryComplete(days: seq<ItineraryDay>, strict: bool) {
    days != [] && (strict ==> forall i :: 0 <= i < |days| ==> DayDescribed(days[i]))
  }

  /** The package the form accepts, stated section by section; `strict` is the publish intent. */
  predicate Acceptable(pkg: TravelPackage, strict: bool) {
    GeneralComplete(pkg) && FlightsComplete(pkg.flights.flights) &&
    PricingComplete(pkg.pricing, strict) && ItineraryComplete(pkg.itinerary.days, strict)
  }

  /** Every element of `xs` is `ok`, checked from the back as the issue lists are built. */
  ghost predicate All<T>(xs: seq<T>, ok: T -> bool)
    decreases |xs|
  {
    xs == [] || (All(xs[..|xs| - 1], ok) && ok(xs[|xs| - 1]))
  }

  lemma {:induction false} AllMeansEvery<T>(xs: seq<T>, ok: T -> bool)
    ensures All(xs, ok) <==> forall i :: 0 <= i < |xs| ==> ok(xs[i])
    decreases |xs|
  {
    if xs != [] {
      var init := xs[..|xs| - 1];
      AllMeansEvery(init, ok);
      assert forall i :: 0 <= i < |init| ==> init[i] == xs[i];
    }
  }

  lemma FlightLineEmptyIff(f: FlightSegment, n: nat)
    ensures |FlightLineIssues(f, n)| == 0 <==> FlightComplete(f)
  {
    TrimEmptyIffBlank(f.airline);
  }

  lemma PriceLineEmptyIff(p: PricingItem, n: nat, strict: bool)
    ensures |PriceLineIssues(p, n, strict)| == 0 <==> PriceComplete(p, strict)
  {
    TrimEmptyIffBlank(p.labelText);
  }

  lemma DayLineEmptyIff(d: ItineraryDay, n: nat)
    ensures |DayLineIssues(d, n)| == 0 <==> DayDescribed(d)
  {
    TrimEmptyIffBlank(d.description);
  }

  lemma {:induction false} FlightsIssuesEmptyIff(fs: seq<FlightSegment>)
    ensures |FlightsIssues(fs)| == 0 <==> All(fs, FlightComplete)
    decreases |fs|
  {
    if fs != [] {
      var n := |fs| - 1;
      FlightsIssuesEmptyIff(fs[..n]);
      FlightLineEmptyIff(fs[n], n);
    }
  }

  lemma {:induction false} PricesIssuesEmptyIff(ps: seq<PricingItem>, strict: bool)
    ensures |PricesIssues(ps, strict)| == 0 <==> All(ps, (p: PricingItem) => PriceComplete(p, strict))
    decreases |ps|
  {
    if ps != [] {
      var n := |ps| - 1;
      PricesIssuesEmptyIff(ps[..n], strict);
      PriceLineEmptyIff(ps[n], n, strict);
    }
  }

  lemma {:induction false} DaysIssuesEmptyIff(ds: seq<ItineraryDay>)
    ensures |DaysIssues(ds)| == 0 <==> All(ds, DayDescribed)
    decreases |ds|
  {
    if ds != [] {
      var n := |ds| - 1;
      DaysIssuesEmptyIff(ds[..n]);
      DayLineEmptyIff(ds[n], n);
    }
  }

  lemma GeneralIssuesEmptyIff(pkg: TravelPackage)
    ensures |GeneralIssues(pkg)| == 0 <==> GeneralComplete(pkg)
  {
    TrimEmptyIffBlank(pkg.general.productName);
    TrimEmptyIffBlank(pkg.general.productCode);
    TrimEmptyIffBlank(pkg.general.responsible);
    TrimEmptyIffBlank(pkg.flights.destination);
  }

  /** The form reports no issue exactly when the package meets every field rule. */
  lemma NoIssuesIffAcceptable(pkg: TravelPackage, strict: bool)
    ensures |PackageIssues(pkg, strict)| == 0 <==> Acceptable(pkg, strict)
  {
    var flights, pricing, days := pkg.flights.flights, pkg.pricing, pkg.itinerary.days;
    GeneralIssuesEmptyIff(pkg);
    assert |FlightSection(flights)| == 0 <==> FlightsComplete(flights) by {
      FlightsIssuesEmptyIff(flights);
      AllMeansEvery(flights, FlightComplete);
    }
    assert |PricingSection(pricing, strict)| == 0 <==> PricingComplete(pricing, strict) by {
      PricesIssuesEmptyIff(pricing, strict);
      AllMeansEvery(pricing, (p: PricingItem) => PriceComplete(p, strict));
    }
    assert |ItinerarySection(days, strict)| == 0 <==> ItineraryComplete(days, strict) by {
      DaysIssuesEmptyIff(days);
      AllMeansEvery(days, DayDescribed);
    }
    var issues := PackageIssues(pkg, strict);
    assert |issues| == |GeneralIssues(pkg)| + |FlightSection(flights)| +
      |PricingSection(pricing, strict)| + |ItinerarySection(days, strict)|;
  }
}
