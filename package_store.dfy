/**
 * The package store: a list of travel packages whose actions replace the list.
 * Every action that makes identifiers or timestamps takes them as parameters
 * (`newId` is an identifier supply, `now` the current ISO timestamp).
 */
module PackageStore {
  import opened Wrappers
  import opened Types
  import opened Text
  import opened Seqs
  import opened FlightStructure
  import opened OpsMerge

  /** A `Partial<TravelPackage>` spread over a package: `None` leaves the field alone. */
  datatype PackagePatch = PackagePatch(
    id: Option<string>,
    status: Option<PackageStatus>,
    general: Option<PackageGeneralInfo>,
    flights: Option<PackageFlights>,
    pricing: Option<seq<PricingItem>>,
    agencyCommissions: Option<AgencyCommissions>,
    itinerary: Option<Itinerary>,
    opsProject: Option<Option<OpsProject>>)

  /** `{ ...pkg, ...patch }` */
  function ApplyPatch(pkg: TravelPackage, patch: PackagePatch): (r: TravelPackage)
    ensures r.id == patch.id.GetOr(pkg.id) && r.status == patch.status.GetOr(pkg.status)
    ensures r.general == patch.general.GetOr(pkg.general) && r.flights == patch.flights.GetOr(pkg.flights)
    ensures r.pricing == patch.pricing.GetOr(pkg.pricing)
    ensures r.agencyCommissions == patch.agencyCommissions.GetOr(pkg.agencyCommissions)
    ensures r.itinerary == patch.itinerary.GetOr(pkg.itinerary) && r.opsProject == patch.opsProject.GetOr(pkg.opsProject)
  {
    TravelPackage(
      patch.id.GetOr(pkg.id), patch.status.GetOr(pkg.status), patch.general.GetOr(pkg.general),
      patch.flights.GetOr(pkg.flights), patch.pricing.GetOr(pkg.pricing),
      patch.agencyCommissions.GetOr(pkg.agencyCommissions), patch.itinerary.GetOr(pkg.itinerary),
      patch.opsProject.GetOr(pkg.opsProject))
  }

  /**
   * One package after `updatePackage`: the patch is spread over it, and only when the
   * patch carries flights whose structure differs is the project re-merged, starting
   * from the project the package had before the patch.
   */
  function UpdatedPackage(pkg: TravelPackage, patch: PackagePatch, newId: nat -> string, now: string): TravelPackage {
    var patched := ApplyPatch(pkg, patch);
    if patch.flights.Some? && StructureChanged(pkg.flights.flights, patched.flights.flights) then
      patched.(opsProject := Some(MergedProject(pkg.opsProject, patched, newId, now)))
    else
      patched
  }

  function UpdatedPackages(pkgs: seq<TravelPackage>, id: string, patch: PackagePatch, newId: nat -> string, now: string): (r: seq<TravelPackage>)
    ensures |r| == |pkgs|
    ensures forall i :: 0 <= i < |pkgs| && pkgs[i].id != id ==> r[i] == pkgs[i]
    ensures forall i :: 0 <= i < |pkgs| && pkgs[i].id == id ==> r[i] == UpdatedPackage(pkgs[i], patch, newId, now)
  {
    seq(|pkgs|, i requires 0 <= i < |pkgs| => if pkgs[i].id == id then UpdatedPackage(pkgs[i], patch, newId, now) else pkgs[i])
  }

  /** The value `updatePackage` returns: the update of the last package with that id, or null. */
  function LastUpdated(pkgs: seq<TravelPackage>, id: string, patch: PackagePatch, newId: nat -> string, now: string): Option<TravelPackage>
    decreases |pkgs|
  {
    if pkgs == [] then None
    else
      var last := pkgs[|pkgs| - 1];
      if last.id == id then Some(UpdatedPackage(last, patch, newId, now))
      else LastUpdated(pkgs[..|pkgs| - 1], id, patch, newId, now)
  }

  /**
   * There is a result exactly when some package has the id, and it is the update of the
   * last of them: each match overwrites `updatedPackage`.
   */
  lemma LastUpdatedIsLastMatch(pkgs: seq<TravelPackage>, id: string, patch: PackagePatch, newId: nat -> string, now: string)
    ensures var r := LastUpdated(pkgs, id, patch, newId, now);
      && (r.None? <==> forall i :: 0 <= i < |pkgs| ==> pkgs[i].id != id)
      && (r.Some? ==> exists i :: 0 <= i < |pkgs| && pkgs[i].id == id && r.value == UpdatedPackage(pkgs[i], patch, newId, now)
                        && forall j :: i < j < |pkgs| ==> pkgs[j].id != id)
  {
    LastUpdatedNoneIff(pkgs, id, patch, newId, now);
    LastUpdatedSomeIsLast(pkgs, id, patch, newId, now);
  }

  /** There is no result exactly when no package has the id. */
  lemma {:induction false} LastUpdatedNoneIff(pkgs: seq<TravelPackage>, id: string, patch: PackagePatch, newId: nat -> string, now: string)
    ensures LastUpdated(pkgs, id, patch, newId, now).None? <==> forall i :: 0 <= i < |pkgs| ==> pkgs[i].id != id
    decreases |pkgs|
  {
    if pkgs != [] {
      var n := |pkgs| - 1;
      var prefix := pkgs[..n];
      assert forall j :: 0 <= j < n ==> pkgs[j] == prefix[j];
      if pkgs[n].id != id {
        LastUpdatedNoneIff(prefix, id, patch, newId, now);
      }
    }
  }

  /** A result is the update of a package with the id after which no package has it. */
  lemma {:induction false} LastUpdatedSomeIsLast(pkgs: seq<TravelPackage>, id: string, patch: PackagePatch, newId: nat -> string, now: string)
    ensures var r := LastUpdated(pkgs, id, patch, newId, now);
      r.Some? ==> exists i :: 0 <= i < |pkgs| && pkgs[i].id == id && r.value == UpdatedPackage(pkgs[i], patch, newId, now)
                    && forall j :: i < j < |pkgs| ==> pkgs[j].id != id
    decreases |pkgs|
  {
    if pkgs != [] {
      var n := |pkgs| - 1;
      var prefix := pkgs[..n];
      if pkgs[n].id != id {
        assert LastUpdated(pkgs, id, patch, newId, now) == LastUpdated(prefix, id, patch, newId, now);
        LastUpdatedSomeIsLast(prefix, id, patch, newId, now);
        var r := LastUpdated(prefix, id, patch, newId, now);
        if r.Some? {
          var i :| 0 <= i < n && prefix[i].id == id && r.value == UpdatedPackage(prefix[i], patch, newId, now)
                   && forall j :: i < j < n ==> prefix[j].id != id;
          assert pkgs[i] == prefix[i];
          assert forall j :: i < j < |pkgs| ==> pkgs[j].id != id by {
            assert forall j :: i < j < n ==> pkgs[j] == prefix[j];
          }
        }
      }
    }
  }

  /** When the patch has no `opsProject`, a second identical update changes nothing. */
  lemma UpdateIsIdempotent(pkg: TravelPackage, patch: PackagePatch, newId: nat -> string, now: string)
    requires patch.opsProject.None?
    ensures UpdatedPackage(UpdatedPackage(pkg, patch, newId, now), patch, newId, now) == UpdatedPackage(pkg, patch, newId, now)
  {
    var once := UpdatedPackage(pkg, patch, newId, now);
    assert ApplyPatch(once, patch) == once;
  }

  /** Reordering the flights keeps the project the patch leaves in place. */
  lemma ReorderKeepsProject(pkg: TravelPackage, patch: PackagePatch, newId: nat -> string, now: string)
    requires patch.flights.Some? && multiset(patch.flights.value.flights) == multiset(pkg.flights.flights)
    ensures UpdatedPackage(pkg, patch, newId, now).opsProject == patch.opsProject.GetOr(pkg.opsProject)
  {
    ReorderIsNoChange(pkg.flights.flights, patch.flights.value.flights);
    StructureChangeSymmetric(pkg.flights.flights, patch.flights.value.flights);
  }

  /**
   * A structure change rebuilds the project from the stored one: its id is the stored
   * project's, and an `opsProject` carried by the same patch is discarded.
   */
  lemma StructureChangeRemergesStoredProject(pkg: TravelPackage, patch: PackagePatch, newId: nat -> string, now: string)
    requires patch.flights.Some? && StructureChanged(pkg.flights.flights, patch.flights.value.flights)
    ensures var r := UpdatedPackage(pkg, patch, newId, now);
      r.opsProject.Some? &&
      r.opsProject.value.id == (if pkg.opsProject.Some? then pkg.opsProject.value.id else newId(|patch.flights.value.flights|)) &&
      r.opsProject.value.packageId == patch.id.GetOr(pkg.id) &&
      |r.opsProject.value.groups| == |patch.flights.value.flights|
  {
    MergeMatchesFirstRegistrant(pkg.opsProject, ApplyPatch(pkg, patch), newId, now);
  }

  /** The body of the `updatePackage` map for a matching package. */
  method UpdateMatching(pkg: TravelPackage, patch: PackagePatch, newId: nat -> string, now: string) returns (next: TravelPackage)
    ensures next == UpdatedPackage(pkg, patch, newId, now)
  {
    next := ApplyPatch(pkg, patch);
    if patch.flights.Some? {
      var changed := HasFlightStructureChanged(pkg.flights.flights, next.flights.flights);
      if changed {
        var ops := MergeOpsProject(pkg.opsProject, next, newId, now);
        next := next.(opsProject := Some(ops));
      }
    }
  }

  /** The `updatePackage` walk over the list, gating the merge on a structure change. */
  method UpdateAll(pkgs: seq<TravelPackage>, id: string, patch: PackagePatch, newId: nat -> string, now: string)
    returns (result: seq<TravelPackage>, updated: Option<TravelPackage>)
    ensures result == UpdatedPackages(pkgs, id, patch, newId, now)
    ensures updated == LastUpdated(pkgs, id, patch, newId, now)
  {
    result := [];
    updated := None;
    var i := 0;
    while i < |pkgs|
      invariant 0 <= i <= |pkgs|
      invariant result == UpdatedPackages(pkgs[..i], id, patch, newId, now)
      invariant updated == LastUpdated(pkgs[..i], id, patch, newId, now)
    {
      var pkg := pkgs[i];
      assert pkgs[..i + 1] == pkgs[..i] + [pkg];
      assert pkgs[..i + 1][..i] == pkgs[..i];
      var next := pkg;
      if pkg.id == id {
        next := UpdateMatching(pkg, patch, newId, now);
        updated := Some(next);
      }
      UpdatedPackagesSnoc(pkgs[..i], pkg, id, patch, newId, now);
      result := result + [next];
      i := i + 1;
    }
    assert pkgs[..i] == pkgs;
  }

  lemma UpdatedPackagesSnoc(pkgs: seq<TravelPackage>, pkg: TravelPackage, id: string, patch: PackagePatch, newId: nat -> string, now: string)
    ensures UpdatedPackages(pkgs + [pkg], id, patch, newId, now) ==
      UpdatedPackages(pkgs, id, patch, newId, now) + [if pkg.id == id then UpdatedPackage(pkg, patch, newId, now) else pkg]
  {
  }

  /** `group.id === groupId ? edit(group) : group` over the groups of the targeted package. */
  function EditPackageGroups(pkg: TravelPackage, packageId: string, groupId: string, edit: OpsGroup -> OpsGroup): TravelPackage {
    if pkg.id != packageId || pkg.opsProject.None? then pkg
    else
      var ops := pkg.opsProject.value;
      pkg.(opsProject := Some(ops.(groups := seq(|ops.groups|, j requires 0 <= j < |ops.groups| =>
        if ops.groups[j].id == groupId then edit(ops.groups[j]) else ops.groups[j]))))
  }

  /**
   * A group edit touches only the groups with that id in packages with that id; other
   * packages, packages without a project and all other groups are left as they were.
   */
  function EditGroups(pkgs: seq<TravelPackage>, packageId: string, groupId: string, edit: OpsGroup -> OpsGroup): (r: seq<TravelPackage>)
    ensures |r| == |pkgs|
    ensures forall i :: 0 <= i < |pkgs| && (pkgs[i].id != packageId || pkgs[i].opsProject.None?) ==> r[i] == pkgs[i]
    ensures forall i :: 0 <= i < |pkgs| && pkgs[i].id == packageId && pkgs[i].opsProject.Some? ==>
      var before := pkgs[i].opsProject.value;
      r[i].opsProject.Some? && r[i] == pkgs[i].(opsProject := r[i].opsProject) &&
      r[i].opsProject.value.id == before.id && r[i].opsProject.value.packageId == before.packageId &&
      |r[i].opsProject.value.groups| == |before.groups| &&
      forall j :: 0 <= j < |before.groups| ==>
        r[i].opsProject.value.groups[j] == if before.groups[j].id == groupId then edit(before.groups[j]) else before.groups[j]
  {
    seq(|pkgs|, i requires 0 <= i < |pkgs| => EditPackageGroups(pkgs[i], packageId, groupId, edit))
  }

  /** `xs.filter((_, idx) => idx !== i)` */
  function WithoutIndex<T>(xs: seq<T>, i: int): (r: seq<T>)
    ensures r == if 0 <= i < |xs| then xs[..i] + xs[i + 1..] else xs
    decreases |xs|
  {
    if xs == [] then []
    else
      var rest := WithoutIndex(xs[1..], i - 1);
      DropSplits(xs, i);
      (if i == 0 then [] else [xs[0]]) + rest
  }

  /** Dropping position i > 0 keeps the head and drops position i - 1 of the tail. */
  lemma DropSplits<T>(xs: seq<T>, i: int)
    ensures 0 < i < |xs| ==> xs[..i] + xs[i + 1..] == [xs[0]] + (xs[1..][..i - 1] + xs[1..][i..])
  {
    if 0 < i < |xs| {
      assert xs[..i] == [xs[0]] + xs[1..][..i - 1];
      assert xs[i + 1..] == xs[1..][i..];
    }
  }

  /** `xs.map((x, idx) => idx === i ? f(x) : x)` */
  function AtIndex<T>(xs: seq<T>, i: int, f: T -> T): (r: seq<T>)
    ensures |r| == |xs|
    ensures !(0 <= i < |xs|) ==> r == xs
    ensures 0 <= i < |xs| ==> r[..i] == xs[..i] && r[i] == f(xs[i]) && r[i + 1..] == xs[i + 1..]
  {
    seq(|xs|, j requires 0 <= j < |xs| => if j == i then f(xs[j]) else xs[j])
  }

  datatype CostPatch = CostPatch(labelText: Option<string>, amount: Option<int>, dueDate: Option<Option<string>>, paid: Option<Option<bool>>)

  function ApplyCostPatch(step: OpsPaymentStep, patch: CostPatch): OpsPaymentStep {
    OpsPaymentStep(patch.labelText.GetOr(step.labelText), patch.amount.GetOr(step.amount),
      patch.dueDate.GetOr(step.dueDate), patch.paid.GetOr(step.paid))
  }

  datatype TimelinePatch = TimelinePatch(title: Option<string>, date: Option<Option<string>>, note: Option<Option<string>>, kind: Option<Option<TimelineKind>>)

  function ApplyTimelinePatch(item: OpsTimelineItem, patch: TimelinePatch): OpsTimelineItem {
    OpsTimelineItem(patch.title.GetOr(item.title), patch.date.GetOr(item.date),
      patch.note.GetOr(item.note), patch.kind.GetOr(item.kind))
  }

  /** Spreading a partial record twice is the same as spreading it once. */
  lemma PatchesAreIdempotent(step: OpsPaymentStep, cost: CostPatch, item: OpsTimelineItem, timeline: TimelinePatch)
    ensures ApplyCostPatch(ApplyCostPatch(step, cost), cost) == ApplyCostPatch(step, cost)
    ensures ApplyTimelinePatch(ApplyTimelinePatch(item, timeline), timeline) == ApplyTimelinePatch(item, timeline)
  {
  }

  function SetStatus(status: OpsStatus, now: string): OpsGroup -> OpsGroup {
    (g: OpsGroup) => g.(status := status, validationDate := if status == Validated then Some(now) else None)
  }

  function AppendSupplier(supplier: Supplier): OpsGroup -> OpsGroup {
    (g: OpsGroup) => g.(suppliers := g.suppliers + [supplier])
  }

  function DropSupplier(index: int): OpsGroup -> OpsGroup {
    (g: OpsGroup) => g.(suppliers := WithoutIndex(g.suppliers, index))
  }

  function AppendCost(step: OpsPaymentStep): OpsGroup -> OpsGroup {
    (g: OpsGroup) => g.(costs := g.costs + [step])
  }

  function PatchCost(index: int, patch: CostPatch): OpsGroup -> OpsGroup {
    (g: OpsGroup) => g.(costs := AtIndex(g.costs, index, c => ApplyCostPatch(c, patch)))
  }

  function DropCost(index: int): OpsGroup -> OpsGroup {
    (g: OpsGroup) => g.(costs := WithoutIndex(g.costs, index))
  }

  function AppendTimelineItem(item: OpsTimelineItem): OpsGroup -> OpsGroup {
    (g: OpsGroup) => g.(timeline := g.timeline + [item])
  }

  function PatchTimelineItem(index: int, patch: TimelinePatch): OpsGroup -> OpsGroup {
    (g: OpsGroup) => g.(timeline := AtIndex(g.timeline, index, t => ApplyTimelinePatch(t, patch)))
  }

  function DropTimelineItem(index: int): OpsGroup -> OpsGroup {
    (g: OpsGroup) => g.(timeline := WithoutIndex(g.timeline, index))
  }

  /** `newId` shifted by `n` slots. */
  function Shift(newId: nat -> string, n: nat): nat -> string {
    (k: nat) => newId(n + k)
  }

  /** `buildOpsProject`: a merge from no existing project. */
  function BuiltProject(pkg: TravelPackage, newId: nat -> string, now: string): (ops: OpsProject)
    ensures ops.id == newId(|pkg.flights.flights|) && ops.packageId == pkg.id
    ensures |ops.groups| == |pkg.flights.flights|
    ensures forall i :: 0 <= i < |ops.groups| ==> ops.groups[i] == NewGroup(pkg.flights.flights[i], i, newId(i), now)
  {
    assert GroupIndex([]) == map[];
    MergedProject(None, pkg, newId, now)
  }

  /** A project built from nothing has one fresh pending group per flight and belongs to the package. */
  lemma BuiltProjectIsFresh(pkg: TravelPackage, newId: nat -> string, now: string)
    ensures var ops := BuiltProject(pkg, newId, now);
      ops.id == newId(|pkg.flights.flights|) && ops.packageId == pkg.id &&
      |ops.groups| == |pkg.flights.flights| &&
      forall i :: 0 <= i < |ops.groups| ==>
        ops.groups[i].id == newId(i) && ops.groups[i].status == PendingValidation &&
        ops.groups[i].suppliers == [] && ops.groups[i].costs == [] && |ops.groups[i].timeline| == 1
  {
    MergeMatchesFirstRegistrant(None, pkg, newId, now);
  }

  /** The first package with that id. */
  function FindPackage(pkgs: seq<TravelPackage>, id: string): (r: Option<TravelPackage>)
    ensures r.None? <==> forall i :: 0 <= i < |pkgs| ==> pkgs[i].id != id
    ensures r.Some? ==> r.value.id == id
    ensures r.Some? ==> exists i :: 0 <= i < |pkgs| && pkgs[i] == r.value && (forall j :: 0 <= j < i ==> pkgs[j].id != id)
  {
    if pkgs == [] then None
    else if pkgs[0].id == id then Some(pkgs[0])
    else
      var r := FindPackage(pkgs[1..], id);
      assert forall j :: 0 <= j < |pkgs| - 1 ==> pkgs[1..][j] == pkgs[j + 1];
      r
  }

  /**
   * `duplicatePackage`: slot 0 of `newId` is the copy's id. Copying the project uses
   * slot 1 for its id and slot 2 + j for group j; otherwise the project is built
   * from the flights with the supply shifted by one.
   */
  function Duplicated(original: TravelPackage, copyOps: bool, newId: nat -> string, now: string): TravelPackage {
    var copy := original.(id := newId(0), status := Draft,
      general := original.general.(productCode := original.general.productCode + "-COPY",
                                   productName := original.general.productName + " (Copy)"));
    var ops :=
      if copyOps && original.opsProject.Some? then
        var source := original.opsProject.value;
        source.(id := newId(1), packageId := copy.id,
          groups := seq(|source.groups|, j requires 0 <= j < |source.groups| => source.groups[j].(id := newId(2 + j))))
      else BuiltProject(copy, Shift(newId, 1), now);
    copy.(opsProject := Some(ops))
  }

  /** The copy is a draft with suffixed name and code, the same content, and a project of its own. */
  lemma DuplicateIsDetachedDraft(original: TravelPackage, copyOps: bool, newId: nat -> string, now: string)
    ensures var d := Duplicated(original, copyOps, newId, now);
      d.id == newId(0) && d.status == Draft &&
      d.general.productName == original.general.productName + " (Copy)" &&
      d.general.productCode == original.general.productCode + "-COPY" &&
      d.general.responsible == original.general.responsible && d.general.stock == original.general.stock &&
      d.flights == original.flights && d.pricing == original.pricing && d.itinerary == original.itinerary &&
      d.opsProject.Some? && d.opsProject.value.packageId == d.id
    ensures var d := Duplicated(original, copyOps, newId, now);
      copyOps && original.opsProject.Some? ==>
        var source := original.opsProject.value;
        |d.opsProject.value.groups| == |source.groups| &&
        forall j :: 0 <= j < |source.groups| ==>
          d.opsProject.value.groups[j].id == newId(2 + j) &&
          d.opsProject.value.groups[j] == source.groups[j].(id := d.opsProject.value.groups[j].id)
    ensures var d := Duplicated(original, copyOps, newId, now);
      !(copyOps && original.opsProject.Some?) ==>
        |d.opsProject.value.groups| == |original.flights.flights| &&
        forall j :: 0 <= j < |d.opsProject.value.groups| ==> d.opsProject.value.groups[j].status == PendingValidation
  {
    var copy := original.(id := newId(0), status := Draft,
      general := original.general.(productCode := original.general.productCode + "-COPY",
                                   productName := original.general.productName + " (Copy)"));
    BuiltProjectIsFresh(copy, Shift(newId, 1), now);
  }

  /** An imported group: any field may be missing. */
  datatype RawGroup = RawGroup(
    id: string,
    flightLabel: string,
    airline: Option<string>,
    departureDate: Option<string>,
    returnDate: Option<string>,
    status: Option<OpsStatus>,
    validationDate: Option<string>,
    suppliers: Option<seq<Supplier>>,
    costs: Option<seq<OpsPaymentStep>>,
    timeline: Option<seq<OpsTimelineItem>>)

  datatype RawProject = RawProject(id: string, packageId: string, groups: seq<RawGroup>)

  datatype RawPackage = RawPackage(
    id: string,
    status: PackageStatus,
    general: PackageGeneralInfo,
    flights: PackageFlights,
    pricing: seq<PricingItem>,
    agencyCommissions: AgencyCommissions,
    itinerary: Itinerary,
    opsProject: Option<RawProject>)

  /** One imported group: an empty id is replaced, a missing status is pending, missing lists are empty. */
  function NormalizeGroup(g: RawGroup, id: string): (r: OpsGroup)
    ensures r.id == OrElse(g.id, id)
    ensures r.status == g.status.GetOr(PendingValidation)
    ensures r.suppliers == g.suppliers.GetOr([]) && r.costs == g.costs.GetOr([]) && r.timeline == g.timeline.GetOr([])
    ensures r.flightLabel == g.flightLabel && r.airline == g.airline && r.departureDate == g.departureDate
    ensures r.returnDate == g.returnDate && r.validationDate == g.validationDate
  {
    OpsGroup(OrElse(g.id, id), g.flightLabel, g.airline, g.departureDate, g.returnDate,
      g.status.GetOr(PendingValidation), g.validationDate,
      g.suppliers.GetOr([]), g.costs.GetOr([]), g.timeline.GetOr([]))
  }

  /** The fields `{ ...pkg }` carries over unchanged into the stored package. */
  predicate KeepsContent(p: TravelPackage, raw: RawPackage) {
    p.status == raw.status && p.general == raw.general && p.flights == raw.flights &&
    p.pricing == raw.pricing && p.agencyCommissions == raw.agencyCommissions && p.itinerary == raw.itinerary
  }

  /** Group j of an imported project: the raw group, normalised with id slot 3 + j. */
  predicate ImportedGroups(ops: OpsProject, raw: RawProject, newId: nat -> string) {
    |ops.groups| == |raw.groups| &&
    forall j :: 0 <= j < |raw.groups| ==> ops.groups[j] == NormalizeGroup(raw.groups[j], newId(3 + j))
  }

  /**
   * `normalizeImportedPackage`: slot 0 of `newId` replaces an empty package id, slot 2
   * an empty project id, slot 3 + j an empty id of group j; a missing project is built
   * with the supply shifted by three.
   */
  function NormalizeImported(raw: RawPackage, newId: nat -> string, now: string): (p: TravelPackage)
    ensures p.id == OrElse(raw.id, newId(0))
    ensures KeepsContent(p, raw)
    ensures p.opsProject.Some? && p.opsProject.value.packageId == p.id
    ensures raw.opsProject.Some? ==>
      p.opsProject.value.id == OrElse(raw.opsProject.value.id, newId(2)) &&
      ImportedGroups(p.opsProject.value, raw.opsProject.value, newId)
    ensures raw.opsProject.None? ==>
      |p.opsProject.value.groups| == |raw.flights.flights| &&
      forall j :: 0 <= j < |p.opsProject.value.groups| ==> p.opsProject.value.groups[j].status == PendingValidation
  {
    var id := OrElse(raw.id, newId(0));
    var base := TravelPackage(id, raw.status, raw.general, raw.flights, raw.pricing, raw.agencyCommissions, raw.itinerary, None);
    match raw.opsProject
    case Some(ops) =>
      base.(opsProject := Some(OpsProject(OrElse(ops.id, newId(2)), id,
        seq(|ops.groups|, j requires 0 <= j < |ops.groups| => NormalizeGroup(ops.groups[j], newId(3 + j))))))
    case None =>
      BuiltProjectIsFresh(base, Shift(newId, 3), now);
      base.(opsProject := Some(BuiltProject(base, Shift(newId, 3), now)))
  }

  /** A package whose id is already in the store moves to slot 1 of its supply. */
  function Rehomed(p: TravelPackage, existingIds: set<string>, newId: nat -> string, now: string): (q: TravelPackage)
    ensures q.id == if p.id in existingIds then newId(1) else p.id
    ensures q == p.(id := q.id, opsProject := q.opsProject)
    ensures p.opsProject.Some? && p.opsProject.value.packageId == p.id ==> q.opsProject == Some(p.opsProject.value.(packageId := q.id))
  {
    if p.id !in existingIds then p
    else
      var moved := p.(id := newId(1));
      match p.opsProject
      case Some(ops) => moved.(opsProject := Some(ops.(packageId := newId(1))))
      case None => moved.(opsProject := Some(BuiltProject(moved, Shift(newId, 3), now)))
  }

  /** `imported.filter(Boolean)`, built from the back: the entries that are there, unwrapped. */
  function Present(imported: seq<Option<RawPackage>>): (r: seq<RawPackage>)
    ensures |r| <= |imported|
    decreases |imported|
  {
    if imported == [] then []
    else
      var n := |imported| - 1;
      Present(imported[..n]) + (if imported[n].Some? then [imported[n].value] else [])
  }

  function Wrapped(ps: seq<RawPackage>): (r: seq<Option<RawPackage>>)
    ensures |r| == |ps| && forall k :: 0 <= k < |ps| ==> r[k] == Some(ps[k])
  {
    seq(|ps|, k requires 0 <= k < |ps| => Some(ps[k]))
  }

  /** Each package is kept as often as it occurs among the entries. */
  lemma {:induction false} PresentCounts(imported: seq<Option<RawPackage>>)
    ensures forall p :: multiset(Present(imported))[p] == multiset(imported)[Some(p)]
    decreases |imported|
  {
    if imported != [] {
      var n := |imported| - 1;
      var init := imported[..n];
      PresentCounts(init);
      assert imported == init + [imported[n]];
      assert multiset(imported) == multiset(init) + multiset{imported[n]};
    }
  }

  /** The kept packages come in input order. */
  lemma {:induction false} PresentInOrder(imported: seq<Option<RawPackage>>)
    ensures Subsequence(Wrapped(Present(imported)), imported)
    decreases |imported|
  {
    if imported != [] {
      var n := |imported| - 1;
      var init := imported[..n];
      var kept := Present(init);
      var tail := if imported[n].Some? then [imported[n].value] else [];
      PresentInOrder(init);
      assert imported == init + [imported[n]];
      assert Wrapped(kept + tail) == Wrapped(kept) + Wrapped(tail);
      if imported[n].Some? {
        assert Wrapped(tail) == [imported[n]];
        SubsequenceReflexive([imported[n]]);
      } else {
        assert Wrapped(tail) == [];
        EmptyIsSubsequence([imported[n]]);
      }
      SubsequenceConcat(Wrapped(kept), init, Wrapped(tail), [imported[n]]);
    }
  }

  /** With no missing entry, every entry is kept. */
  lemma {:induction false} PresentAll(imported: seq<Option<RawPackage>>)
    requires forall i :: 0 <= i < |imported| ==> imported[i].Some?
    ensures Wrapped(Present(imported)) == imported
    decreases |imported|
  {
    if imported != [] {
      var n := |imported| - 1;
      var init := imported[..n];
      PresentAll(init);
      assert Wrapped(Present(init) + [imported[n].value]) == Wrapped(Present(init)) + [imported[n]];
      assert imported == init + [imported[n]];
    }
  }

  /**
   * The import keeps every entry that is there, as often as it occurs and in input
   * order, and only those; with no missing entry it keeps them all.
   */
  lemma PresentKeepsEntries(imported: seq<Option<RawPackage>>)
    ensures Subsequence(Wrapped(Present(imported)), imported)
    ensures forall p :: multiset(Present(imported))[p] == multiset(imported)[Some(p)]
    ensures forall p :: p in Present(imported) <==> Some(p) in imported
    ensures (forall i :: 0 <= i < |imported| ==> imported[i].Some?) ==> Wrapped(Present(imported)) == imported
  {
    PresentCounts(imported);
    PresentInOrder(imported);
    if forall i :: 0 <= i < |imported| ==> imported[i].Some? {
      PresentAll(imported);
    }
  }

  /**
   * The packages an import adds, in input order: package k is the k-th entry present,
   * normalised with the supply `newId(k)` and moved to slot 1 when its id is taken.
   */
  function ImportedPackages(imported: seq<Option<RawPackage>>, existingIds: set<string>, newId: nat -> nat -> string, now: string): (r: seq<TravelPackage>)
    ensures |r| == |Present(imported)|
    ensures forall k :: 0 <= k < |r| ==>
      var raw := Present(imported)[k];
      var id := OrElse(raw.id, newId(k)(0));
      KeepsContent(r[k], raw) &&
      r[k].id == (if id in existingIds then newId(k)(1) else id) &&
      r[k].opsProject.Some? && r[k].opsProject.value.packageId == r[k].id &&
      (raw.opsProject.Some? ==>
        r[k].opsProject.value.id == OrElse(raw.opsProject.value.id, newId(k)(2)) &&
        ImportedGroups(r[k].opsProject.value, raw.opsProject.value, newId(k))) &&
      (raw.opsProject.None? ==>
        |r[k].opsProject.value.groups| == |raw.flights.flights| &&
        forall j :: 0 <= j < |r[k].opsProject.value.groups| ==> r[k].opsProject.value.groups[j].status == PendingValidation)
  {
    var present := Present(imported);
    seq(|present|, k requires 0 <= k < |present| => Rehomed(NormalizeImported(present[k], newId(k), now), existingIds, newId(k), now))
  }

  /**
   * Every imported package owns its project, and none takes an id already in the store
   * so long as the supply's slot 1 is not one either.
   */
  lemma ImportOwnsProjectsAndAvoidsIds(imported: seq<Option<RawPackage>>, existingIds: set<string>, newId: nat -> nat -> string, now: string)
    requires forall k :: 0 <= k < |imported| ==> newId(k)(1) !in existingIds
    ensures var r := ImportedPackages(imported, existingIds, newId, now);
      forall k :: 0 <= k < |r| ==>
        r[k].id !in existingIds && r[k].opsProject.Some? && r[k].opsProject.value.packageId == r[k].id
  {
  }

  /** `filter((pkg) => pkg.id !== id)`: the other packages, each as often as before, in order. */
  function WithoutId(pkgs: seq<TravelPackage>, id: string): (r: seq<TravelPackage>)
    ensures Subsequence(r, pkgs)
    ensures forall p :: multiset(r)[p] == if p.id != id then multiset(pkgs)[p] else 0
    ensures forall p :: p in r <==> p in pkgs && p.id != id
    ensures |r| <= |pkgs|
  {
    var keep := (p: TravelPackage) => p.id != id;
    FilterKeeps(pkgs, keep);
    Filter(pkgs, keep)
  }

  datatype ImportMode = Replace | Merge

  class Store {
    var packages: seq<TravelPackage>

    constructor (initial: seq<TravelPackage>)
      ensures packages == initial
    {
      packages := initial;
    }

    /** `addPackage`: the draft's id and project are replaced; slot 0 is the id, the rest builds the project. */
    method AddPackage(draft: TravelPackage, newId: nat -> string, now: string) returns (created: TravelPackage)
      modifies this
      ensures created.id == newId(0)
      ensures created == draft.(id := newId(0), opsProject := Some(BuiltProject(draft.(id := newId(0)), Shift(newId, 1), now)))
      ensures packages == [created] + old(packages)
    {
      var withId := draft.(id := newId(0));
      created := withId.(opsProject := Some(BuiltProject(withId, Shift(newId, 1), now)));
      packages := [created] + packages;
    }

    /** `updatePackage` */
    method UpdatePackage(id: string, patch: PackagePatch, newId: nat -> string, now: string) returns (updated: Option<TravelPackage>)
      modifies this
      ensures packages == UpdatedPackages(old(packages), id, patch, newId, now)
      ensures updated == LastUpdated(old(packages), id, patch, newId, now)
    {
      var result;
      result, updated := UpdateAll(packages, id, patch, newId, now);
      packages := result;
    }

    method DeletePackage(id: string)
      modifies this
      ensures packages == WithoutId(old(packages), id)
    {
      packages := WithoutId(packages, id);
    }

    method DuplicatePackage(id: string, copyOps: bool, newId: nat -> string, now: string) returns (copy: Option<TravelPackage>)
      modifies this
      ensures FindPackage(old(packages), id).None? ==> copy.None? && packages == old(packages)
      ensures FindPackage(old(packages), id).Some? ==>
        copy == Some(Duplicated(FindPackage(old(packages), id).value, copyOps, newId, now)) &&
        packages == [copy.value] + old(packages)
    {
      var original := FindPackage(packages, id);
      if original.None? {
        return None;
      }
      var d := Duplicated(original.value, copyOps, newId, now);
      packages := [d] + packages;
      copy := Some(d);
    }

    /** `importPackages`: `None` stands for an input that is not an array. */
    method ImportPackages(imported: Option<seq<Option<RawPackage>>>, mode: ImportMode, newId: nat -> nat -> string, now: string)
      returns (count: nat)
      modifies this
      ensures imported.None? ==> count == 0 && packages == old(packages)
      ensures imported.Some? ==>
        var added := ImportedPackages(imported.value, set p | p in old(packages) :: p.id, newId, now);
        count == |added| &&
        packages == if mode == Replace then added else added + old(packages)
    {
      if imported.None? {
        return 0;
      }
      var existingIds := set p | p in packages :: p.id;
      var added := ImportedPackages(imported.value, existingIds, newId, now);
      packages := if mode == Replace then added else added + packages;
      count := |added|;
    }

    method SetPackageStatus(id: string, status: PackageStatus)
      modifies this
      ensures |packages| == |old(packages)|
      ensures forall i :: 0 <= i < |packages| ==>
        packages[i] == if old(packages)[i].id == id then old(packages)[i].(status := status) else old(packages)[i]
    {
      packages := seq(|packages|, i requires 0 <= i < |packages| reads this =>
        if packages[i].id == id then packages[i].(status := status) else packages[i]);
    }

    /** `updateOpsGroupStatus`: `validationDate` is `now` exactly when the new status is validated. */
    method UpdateOpsGroupStatus(packageId: string, groupId: string, status: OpsStatus, now: string)
      modifies this
      ensures packages == EditGroups(old(packages), packageId, groupId, SetStatus(status, now))
    {
      packages := EditGroups(packages, packageId, groupId, SetStatus(status, now));
    }

    method AddSupplier(packageId: string, groupId: string, supplier: Supplier)
      modifies this
      ensures packages == EditGroups(old(packages), packageId, groupId, AppendSupplier(supplier))
    {
      packages := EditGroups(packages, packageId, groupId, AppendSupplier(supplier));
    }

    method RemoveSupplier(packageId: string, groupId: string, supplierIndex: int)
      modifies this
      ensures packages == EditGroups(old(packages), packageId, groupId, DropSupplier(supplierIndex))
    {
      packages := EditGroups(packages, packageId, groupId, DropSupplier(supplierIndex));
    }

    method AddCostStep(packageId: string, groupId: string, step: OpsPaymentStep)
      modifies this
      ensures packages == EditGroups(old(packages), packageId, groupId, AppendCost(step))
    {
      packages := EditGroups(packages, packageId, groupId, AppendCost(step));
    }

    method UpdateCostStep(packageId: string, groupId: string, costIndex: int, patch: CostPatch)
      modifies this
      ensures packages == EditGroups(old(packages), packageId, groupId, PatchCost(costIndex, patch))
    {
      packages := EditGroups(packages, packageId, groupId, PatchCost(costIndex, patch));
    }

    method RemoveCostStep(packageId: string, groupId: string, costIndex: int)
      modifies this
      ensures packages == EditGroups(old(packages), packageId, groupId, DropCost(costIndex))
    {
      packages := EditGroups(packages, packageId, groupId, DropCost(costIndex));
    }

    method AddTimelineItem(packageId: string, groupId: string, item: OpsTimelineItem)
      modifies this
      ensures packages == EditGroups(old(packages), packageId, groupId, AppendTimelineItem(item))
    {
      packages := EditGroups(packages, packageId, groupId, AppendTimelineItem(item));
    }

    method UpdateTimelineItem(packageId: string, groupId: string, itemIndex: int, patch: TimelinePatch)
      modifies this
      ensures packages == EditGroups(old(packages), packageId, groupId, PatchTimelineItem(itemIndex, patch))
    {
      packages := EditGroups(packages, packageId, groupId, PatchTimelineItem(itemIndex, patch));
    }

    method RemoveTimelineItem(packageId: string, groupId: string, itemIndex: int)
      modifies this
      ensures packages == EditGroups(old(packages), packageId, groupId, DropTimelineItem(itemIndex))
    {
      packages := EditGroups(packages, packageId, groupId, DropTimelineItem(itemIndex));
    }

    method Reset()
      modifies this
      ensures packages == []
    {
      packages := [];
    }
  }
}
