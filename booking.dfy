/**
 * Booking arithmetic: passenger counts per type, unit prices resolved from a
 * package's price lines, the agency commission and the payment classification.
 * Label normalisation (lower-casing and diacritic removal) is a parameter.
 */
module Booking {
  import opened Wrappers
  import opened Text
  import opened Types

  datatype PaxCounts = PaxCounts(adl: nat, chd: nat, inf: nat)

  /** Occupants of type `t`, counted from the back. */
  function CountType(occupants: seq<RoomOccupant>, t: PaxType): nat
    decreases |occupants|
  {
    if occupants == [] then 0
    else CountType(occupants[..|occupants| - 1], t) + if occupants[|occupants| - 1].paxType == t then 1 else 0
  }

  function RoomsCount(rooms: seq<BookingRoom>, t: PaxType): nat
    decreases |rooms|
  {
    if rooms == [] then 0 else RoomsCount(rooms[..|rooms| - 1], t) + CountType(rooms[|rooms| - 1].occupants, t)
  }

  /** The number of occupants over all rooms. */
  function Occupants(rooms: seq<BookingRoom>): nat
    decreases |rooms|
  {
    if rooms == [] then 0 else Occupants(rooms[..|rooms| - 1]) + |rooms[|rooms| - 1].occupants|
  }

  function PaxCountsOf(rooms: seq<BookingRoom>): PaxCounts {
    PaxCounts(RoomsCount(rooms, ADL), RoomsCount(rooms, CHD), RoomsCount(rooms, INF))
  }

  lemma {:induction false} TypesPartitionOccupants(occupants: seq<RoomOccupant>)
    ensures CountType(occupants, ADL) + CountType(occupants, CHD) + CountType(occupants, INF) == |occupants|
    decreases |occupants|
  {
    if occupants != [] {
      TypesPartitionOccupants(occupants[..|occupants| - 1]);
    }
  }

  /** Every occupant is counted exactly once, under its own type. */
  lemma {:induction false} PaxCountsCoverOccupants(rooms: seq<BookingRoom>)
    ensures PaxCountsOf(rooms).adl + PaxCountsOf(rooms).chd + PaxCountsOf(rooms).inf == Occupants(rooms)
    decreases |rooms|
  {
    if rooms != [] {
      PaxCountsCoverOccupants(rooms[..|rooms| - 1]);
      TypesPartitionOccupants(rooms[|rooms| - 1].occupants);
    }
  }

  /** `computePaxCounts`: one increment per occupant, room by room. */
  method ComputePaxCounts(rooms: seq<BookingRoom>) returns (counts: PaxCounts)
    ensures counts == PaxCountsOf(rooms)
    ensures counts.adl + counts.chd + counts.inf == Occupants(rooms)
  {
    var adl, chd, inf := 0, 0, 0;
    var r := 0;
    while r < |rooms|
      invariant 0 <= r <= |rooms|
      invariant adl == RoomsCount(rooms[..r], ADL) && chd == RoomsCount(rooms[..r], CHD) && inf == RoomsCount(rooms[..r], INF)
    {
      var occupants := rooms[r].occupants;
      var o := 0;
      while o < |occupants|
        invariant 0 <= o <= |occupants|
        invariant adl == RoomsCount(rooms[..r], ADL) + CountType(occupants[..o], ADL)
        invariant chd == RoomsCount(rooms[..r], CHD) + CountType(occupants[..o], CHD)
        invariant inf == RoomsCount(rooms[..r], INF) + CountType(occupants[..o], INF)
      {
        assert occupants[..o + 1][..o] == occupants[..o];
        match occupants[o].paxType {
          case ADL => adl := adl + 1;
          case CHD => chd := chd + 1;
          case INF => inf := inf + 1;
        }
        o := o + 1;
      }
      assert occupants[..o] == occupants;
      assert rooms[..r + 1][..r] == rooms[..r];
      r := r + 1;
    }
    assert rooms[..r] == rooms;
    counts := PaxCounts(adl, chd, inf);
    PaxCountsCoverOccupants(rooms);
  }

  /** A price line as the matcher sees it. */
  datatype Candidate = Candidate(text: string, unit: int)

  /** The text the matcher reads for a price line: the normalised `label subLabel`. */
  function LineText(p: PricingItem, normalize: string -> string): string {
    normalize(p.labelText + " " + p.subLabel.GetOr(""))
  }

  /** Price lines with a positive unit price, labelled by their text. */
  function Candidates(pricing: seq<PricingItem>, normalize: string -> string): (cs: seq<Candidate>)
    ensures |cs| <= |pricing|
  {
    if pricing == [] then []
    else
      var p := pricing[0];
      var rest := Candidates(pricing[1..], normalize);
      if p.unitPrice > 0 then [Candidate(LineText(p, normalize), p.unitPrice)] + rest
      else rest
  }

  function UnitsOf(cs: seq<Candidate>): (us: seq<int>)
    ensures |us| == |cs| && forall j :: 0 <= j < |cs| ==> us[j] == cs[j].unit
  {
    seq(|cs|, j requires 0 <= j < |cs| => cs[j].unit)
  }

  function PricesOf(pricing: seq<PricingItem>): (ps: seq<int>)
    ensures |ps| == |pricing| && forall i :: 0 <= i < |pricing| ==> ps[i] == pricing[i].unitPrice
  {
    seq(|pricing|, i requires 0 <= i < |pricing| => pricing[i].unitPrice)
  }

  /** The candidates' units are exactly the positive unit prices. */
  lemma {:induction false} CandidatesArePositivePrices(pricing: seq<PricingItem>, normalize: string -> string)
    ensures forall x :: x in UnitsOf(Candidates(pricing, normalize)) <==> x > 0 && x in PricesOf(pricing)
    decreases |pricing|
  {
    if pricing != [] {
      var p := pricing[0];
      CandidatesArePositivePrices(pricing[1..], normalize);
      var rest := Candidates(pricing[1..], normalize);
      assert UnitsOf(Candidates(pricing, normalize)) == (if p.unitPrice > 0 then [p.unitPrice] else []) + UnitsOf(rest);
      assert PricesOf(pricing) == [p.unitPrice] + PricesOf(pricing[1..]);
    }
  }

  predicate MentionsAny(text: string, keywords: seq<string>) {
    exists k :: k in keywords && Contains(text, k)
  }

  /** The first candidate whose label mentions a keyword. */
  function FirstMention(cs: seq<Candidate>, keywords: seq<string>): (r: Option<nat>)
    ensures r.Some? ==> r.value < |cs| && MentionsAny(cs[r.value].text, keywords)
    ensures r.Some? ==> forall j :: 0 <= j < r.value ==> !MentionsAny(cs[j].text, keywords)
    ensures r.None? <==> forall j :: 0 <= j < |cs| ==> !MentionsAny(cs[j].text, keywords)
  {
    if cs == [] then None
    else if MentionsAny(cs[0].text, keywords) then Some(0)
    else
      var r := FirstMention(cs[1..], keywords);
      assert forall j :: 0 <= j < |cs| - 1 ==> cs[1..][j] == cs[j + 1];
      if r.Some? then Some(r.value + 1) else None
  }

  /** The least unit among the candidates. */
  function MinUnit(cs: seq<Candidate>): (m: int)
    requires cs != []
    ensures m in UnitsOf(cs)
    ensures forall x :: x in UnitsOf(cs) ==> m <= x
  {
    if |cs| == 1 then cs[0].unit
    else
      var rest := MinUnit(cs[1..]);
      assert UnitsOf(cs) == [cs[0].unit] + UnitsOf(cs[1..]);
      if cs[0].unit <= rest then cs[0].unit else rest
  }

  /** A positive-priced line whose text mentions a keyword. */
  predicate Matches(p: PricingItem, keywords: seq<string>, normalize: string -> string) {
    p.unitPrice > 0 && MentionsAny(LineText(p, normalize), keywords)
  }

  /** A first candidate that mentions no keyword shifts the first mention of the rest by one. */
  lemma FirstMentionSkips(cs: seq<Candidate>, keywords: seq<string>)
    requires cs != [] && !MentionsAny(cs[0].text, keywords)
    ensures var r := FirstMention(cs[1..], keywords);
      FirstMention(cs, keywords) == (if r.Some? then Some(r.value + 1) else None)
  {
  }

  /**
   * When line i is the first positive-priced line whose text mentions a keyword, the
   * first candidate that mentions one carries line i's price.
   */
  lemma {:induction false} FirstMentionIsFirstMatchingLine(pricing: seq<PricingItem>, keywords: seq<string>, normalize: string -> string, i: nat)
    requires i < |pricing| && Matches(pricing[i], keywords, normalize)
    requires forall j :: 0 <= j < i ==> !Matches(pricing[j], keywords, normalize)
    ensures var cs := Candidates(pricing, normalize);
      FirstMention(cs, keywords).Some? && cs[FirstMention(cs, keywords).value].unit == pricing[i].unitPrice
    decreases |pricing|
  {
    var cs := Candidates(pricing, normalize);
    var rest := Candidates(pricing[1..], normalize);
    var p := pricing[0];
    if i == 0 {
      assert cs[0] == Candidate(LineText(p, normalize), p.unitPrice);
    } else {
      assert forall j :: 0 <= j < i - 1 ==> pricing[1..][j] == pricing[j + 1];
      FirstMentionIsFirstMatchingLine(pricing[1..], keywords, normalize, i - 1);
      if p.unitPrice > 0 {
        var c := Candidate(LineText(p, normalize), p.unitPrice);
        assert !Matches(pricing[0], keywords, normalize);
        assert cs == [c] + rest && cs[0] == c && cs[1..] == rest;
        FirstMentionSkips(cs, keywords);
        assert cs[FirstMention(rest, keywords).value + 1] == rest[FirstMention(rest, keywords).value];
      } else {
        assert cs == rest;
      }
    }
  }

  /** No candidate mentions a keyword exactly when no positive-priced line's text does. */
  lemma {:induction false} NoMentionIffNoMatchingLine(pricing: seq<PricingItem>, keywords: seq<string>, normalize: string -> string)
    ensures FirstMention(Candidates(pricing, normalize), keywords).None? <==>
      forall j :: 0 <= j < |pricing| ==> !Matches(pricing[j], keywords, normalize)
    decreases |pricing|
  {
    if pricing != [] {
      var cs := Candidates(pricing, normalize);
      var rest := Candidates(pricing[1..], normalize);
      var p := pricing[0];
      NoMentionIffNoMatchingLine(pricing[1..], keywords, normalize);
      assert forall j :: 0 <= j < |pricing| - 1 ==> pricing[1..][j] == pricing[j + 1];
      assert (forall j :: 0 <= j < |pricing| ==> !Matches(pricing[j], keywords, normalize)) <==>
        !Matches(p, keywords, normalize) && forall j :: 0 <= j < |pricing| - 1 ==> !Matches(pricing[1..][j], keywords, normalize);
      if p.unitPrice > 0 {
        assert cs == [Candidate(LineText(p, normalize), p.unitPrice)] + rest;
      } else {
        assert cs == rest;
      }
    }
  }

  /** `findUnitPrice` */
  function FindUnitPrice(pricing: seq<PricingItem>, keywords: seq<string>, normalize: string -> string): (u: int)
    ensures u == 0 || (u > 0 && u in PricesOf(pricing))
    ensures u == 0 <==> forall x :: x in PricesOf(pricing) ==> x <= 0
  {
    var cs := Candidates(pricing, normalize);
    CandidatesArePositivePrices(pricing, normalize);
    match FirstMention(cs, keywords)
    case Some(j) =>
      assert cs[j].unit in UnitsOf(cs);
      cs[j].unit
    case None =>
      if cs == [] then 0
      else
        assert cs[0].unit in UnitsOf(cs);
        MinUnit(cs)
  }

  /**
   * The unit price is the first positive price whose label mentions a keyword, else
   * the least positive price, else 0; so it is 0 or one of the positive prices.
   */
  lemma FindUnitPriceChoice(pricing: seq<PricingItem>, keywords: seq<string>, normalize: string -> string)
    ensures var u := FindUnitPrice(pricing, keywords, normalize);
      u == 0 || (u > 0 && u in PricesOf(pricing))
    ensures var u := FindUnitPrice(pricing, keywords, normalize);
      u == 0 <==> forall x :: x in PricesOf(pricing) ==> x <= 0
    ensures var cs := Candidates(pricing, normalize);
      FirstMention(cs, keywords).Some? ==> FindUnitPrice(pricing, keywords, normalize) == cs[FirstMention(cs, keywords).value].unit
    ensures FirstMention(Candidates(pricing, normalize), keywords).None? ==>
      forall x :: x in PricesOf(pricing) && x > 0 ==> FindUnitPrice(pricing, keywords, normalize) <= x
  {
    var cs := Candidates(pricing, normalize);
    CandidatesArePositivePrices(pricing, normalize);
    match FirstMention(cs, keywords)
    case Some(j) =>
      assert cs[j].unit in UnitsOf(cs);
    case None =>
      if cs != [] {
        assert cs[0].unit in UnitsOf(cs);
      }
  }

  /** The unit price is the price of the first positive-priced line whose text mentions a keyword. */
  lemma FindUnitPriceIsFirstMatchingLine(pricing: seq<PricingItem>, keywords: seq<string>, normalize: string -> string, i: nat)
    requires i < |pricing| && Matches(pricing[i], keywords, normalize)
    requires forall j :: 0 <= j < i ==> !Matches(pricing[j], keywords, normalize)
    ensures FindUnitPrice(pricing, keywords, normalize) == pricing[i].unitPrice
  {
    FirstMentionIsFirstMatchingLine(pricing, keywords, normalize, i);
  }

  /** With no positive-priced line mentioning a keyword, the unit price is the least positive price, or 0. */
  lemma FindUnitPriceWithoutMatchIsLeast(pricing: seq<PricingItem>, keywords: seq<string>, normalize: string -> string)
    requires forall j :: 0 <= j < |pricing| ==> !Matches(pricing[j], keywords, normalize)
    ensures var u := FindUnitPrice(pricing, keywords, normalize);
      (u == 0 || u in PricesOf(pricing)) && forall x :: x in PricesOf(pricing) && x > 0 ==> u <= x
    ensures FindUnitPrice(pricing, keywords, normalize) == 0 <==> forall x :: x in PricesOf(pricing) ==> x <= 0
  {
    NoMentionIffNoMatchingLine(pricing, keywords, normalize);
    FindUnitPriceChoice(pricing, keywords, normalize);
  }

  const ADULT_KEYWORDS := ["adulte", "adult", "adl"]
  const CHILD_KEYWORDS := ["enfant", "child", "chd"]
  const INFANT_KEYWORDS := ["bebe", "bébé", "infant", "inf"]

  datatype ResolvedPricing = ResolvedPricing(adultUnit: int, childUnit: int, infantUnit: int)

  function ResolvePricing(pkg: TravelPackage, normalize: string -> string): (r: ResolvedPricing)
    ensures r.adultUnit == FindUnitPrice(pkg.pricing, ADULT_KEYWORDS, normalize)
    ensures r.childUnit == FindUnitPrice(pkg.pricing, CHILD_KEYWORDS, normalize)
    ensures r.infantUnit == FindUnitPrice(pkg.pricing, INFANT_KEYWORDS, normalize)
    ensures r.adultUnit >= 0 && r.childUnit >= 0 && r.infantUnit >= 0
  {
    FindUnitPriceChoice(pkg.pricing, ADULT_KEYWORDS, normalize);
    FindUnitPriceChoice(pkg.pricing, CHILD_KEYWORDS, normalize);
    FindUnitPriceChoice(pkg.pricing, INFANT_KEYWORDS, normalize);
    ResolvedPricing(FindUnitPrice(pkg.pricing, ADULT_KEYWORDS, normalize),
      FindUnitPrice(pkg.pricing, CHILD_KEYWORDS, normalize),
      FindUnitPrice(pkg.pricing, INFANT_KEYWORDS, normalize))
  }

  /** The adult commission tier for a number of paying passengers. */
  function AdultCommission(c: AgencyCommissions, payingPax: int): (rate: int)
    ensures payingPax <= 5 ==> rate == c.adultT1
    ensures 5 < payingPax <= 9 ==> rate == c.adultT2
    ensures 9 < payingPax ==> rate == c.adultT3
  {
    if payingPax <= 5 then c.adultT1 else if payingPax <= 9 then c.adultT2 else if payingPax <= 15 then c.adultT3 else c.adultT3
  }

  /** `computeCommissionTotal`: the adult rate is the tier of adults plus children; children and infants pay flat rates. */
  function CommissionTotal(c: AgencyCommissions, pax: PaxCounts): (r: int)
    ensures pax.adl + pax.chd <= 5 ==> r == pax.adl * c.adultT1 + pax.chd * c.enfant + pax.inf * c.bebe
    ensures 5 < pax.adl + pax.chd <= 9 ==> r == pax.adl * c.adultT2 + pax.chd * c.enfant + pax.inf * c.bebe
    ensures 9 < pax.adl + pax.chd ==> r == pax.adl * c.adultT3 + pax.chd * c.enfant + pax.inf * c.bebe
    ensures c.adultT1 >= 0 && c.adultT2 >= 0 && c.adultT3 >= 0 && c.enfant >= 0 && c.bebe >= 0 ==> r >= 0
  {
    var rate := AdultCommission(c, pax.adl + pax.chd);
    var total := pax.adl * rate + pax.chd * c.enfant + pax.inf * c.bebe;
    assert c.adultT1 >= 0 && c.adultT2 >= 0 && c.adultT3 >= 0 && c.enfant >= 0 && c.bebe >= 0 ==> total >= 0 by {
      if c.adultT1 >= 0 && c.adultT2 >= 0 && c.adultT3 >= 0 && c.enfant >= 0 && c.bebe >= 0 {
        ProductNonNegative(pax.adl, rate);
        ProductNonNegative(pax.chd, c.enfant);
        ProductNonNegative(pax.inf, c.bebe);
      }
    }
    total
  }

  /** Infants never move the tier: adding infants adds exactly their flat commission. */
  lemma InfantsOnlyAddTheirCommission(c: AgencyCommissions, pax: PaxCounts, extra: nat)
    ensures CommissionTotal(c, pax.(inf := pax.inf + extra)) == CommissionTotal(c, pax) + extra * c.bebe
  {
  }

  /** Within a tier the commission is linear in adults and children. */
  lemma CommissionWithinTier(c: AgencyCommissions, pax: PaxCounts)
    ensures pax.adl + pax.chd <= 5 ==> CommissionTotal(c, pax) == pax.adl * c.adultT1 + pax.chd * c.enfant + pax.inf * c.bebe
    ensures 5 < pax.adl + pax.chd <= 9 ==> CommissionTotal(c, pax) == pax.adl * c.adultT2 + pax.chd * c.enfant + pax.inf * c.bebe
    ensures 9 < pax.adl + pax.chd ==> CommissionTotal(c, pax) == pax.adl * c.adultT3 + pax.chd * c.enfant + pax.inf * c.bebe
  {
  }

  lemma ProductNonNegative(a: nat, b: int)
    requires b >= 0
    ensures a * b >= 0
  {
  }

  datatype PricingTotals = PricingTotals(pax: PaxCounts, subtotal: int, commissionTotal: int, total: int, pricing: ResolvedPricing)

  /** `computeTotals`: the commission is reported beside the total, never added to it. */
  method ComputeTotals(pkg: TravelPackage, rooms: seq<BookingRoom>, normalize: string -> string) returns (t: PricingTotals)
    ensures t.pax == PaxCountsOf(rooms) && t.pricing == ResolvePricing(pkg, normalize)
    ensures t.subtotal == t.pax.adl * t.pricing.adultUnit + t.pax.chd * t.pricing.childUnit + t.pax.inf * t.pricing.infantUnit
    ensures t.commissionTotal == CommissionTotal(pkg.agencyCommissions, t.pax)
    ensures t.total == t.subtotal && t.total >= 0
  {
    var pax := ComputePaxCounts(rooms);
    var pricing := ResolvePricing(pkg, normalize);
    ProductNonNegative(pax.adl, pricing.adultUnit);
    ProductNonNegative(pax.chd, pricing.childUnit);
    ProductNonNegative(pax.inf, pricing.infantUnit);
    var subtotal := pax.adl * pricing.adultUnit + pax.chd * pricing.childUnit + pax.inf * pricing.infantUnit;
    t := PricingTotals(pax, subtotal, CommissionTotal(pkg.agencyCommissions, pax), subtotal, pricing);
  }

  datatype PaymentLabel = Unpaid | Partial | Paid | Overpaid

  datatype PaymentState = PaymentState(status: PaymentLabel, text: string)

  function PaymentStatus(payment: BookingPayment): (s: PaymentState)
    ensures s.status == Unpaid <==> payment.totalPrice <= 0 || payment.paidAmount <= 0
    ensures s.status == Partial <==> 0 < payment.paidAmount < payment.totalPrice
    ensures s.status == Paid <==> 0 < payment.totalPrice == payment.paidAmount
    ensures s.status == Overpaid <==> 0 < payment.totalPrice < payment.paidAmount
    ensures s.text == match s.status case Unpaid => "Non payé" case Partial => "Partiel" case Paid => "Payé" case Overpaid => "Surpayé"
  {
    if payment.totalPrice <= 0 then PaymentState(Unpaid, "Non payé")
    else if payment.paidAmount <= 0 then PaymentState(Unpaid, "Non payé")
    else if payment.paidAmount < payment.totalPrice then PaymentState(Partial, "Partiel")
    else if payment.paidAmount == payment.totalPrice then PaymentState(Paid, "Payé")
    else PaymentState(Overpaid, "Surpayé")
  }
}
