/**
 * Versioned migration of a persisted snapshot: an ordered registry of pure,
 * shape-checking steps, and a driver that walks a snapshot from its stored
 * `schemaVersion` up to the current version.
 */
module Migrations {
  import opened Wrappers
  import opened JsonValues

  const VALIDATED := "validated"
  const PENDING := "pending_validation"

  /** Historical spellings of an ops-group status and the canonical status each stands for. */
  const OPS_STATUS_ALIASES: map<string, string> := map[
    "validated" := VALIDATED,
    "validate" := VALIDATED,
    "done" := VALIDATED,
    "closed" := VALIDATED,
    "approved" := VALIDATED,
    "validation_pending" := PENDING,
    "pending_validation" := PENDING,
    "pending" := PENDING,
    "to_validate" := PENDING,
    "awaiting_validation" := PENDING
  ]

  /** A raw stored status: an alias maps to its canonical status, anything else is pending. */
  function NormalizeStatus(raw: Option<Json>): (s: string)
    ensures s == VALIDATED || s == PENDING
    ensures s == VALIDATED <==>
      raw.Some? && raw.value.JStr? && raw.value.s in {"validated", "validate", "done", "closed", "approved"}
  {
    if raw.Some? && raw.value.JStr? && raw.value.s in OPS_STATUS_ALIASES then OPS_STATUS_ALIASES[raw.value.s]
    else if raw == Some(JStr(VALIDATED)) then VALIDATED
    else PENDING
  }

  /** `xs.map(f)` where `f` may throw: the first failure is the result. */
  function MapAll(xs: seq<Json>, f: Json -> Result<Json>): (r: Result<seq<Json>>)
    ensures r.Success? <==> forall i :: 0 <= i < |xs| ==> f(xs[i]).Success?
    ensures r.Success? ==> |r.value| == |xs| && forall i :: 0 <= i < |xs| ==> f(xs[i]) == Success(r.value[i])
  {
    if xs == [] then Success([])
    else
      var head :- f(xs[0]);
      var tail :- MapAll(xs[1..], f);
      assert forall i :: 1 <= i < |xs| ==> xs[i] == xs[1..][i - 1];
      Success([head] + tail)
  }

  /** Fields a migrated group takes over from legacy spellings. */
  function LegacyValidationDate(group: Json): Option<Json> {
    CoalesceAll([Field(group, "validationDate"), Field(group, "validatedAt"),
                 Field(group, "validation_date"), Field(group, "confirmedAt")])
  }

  function LegacyDepartureDate(group: Json): Option<Json> {
    CoalesceAll([Field(group, "departureDate"), Field(group, "departure_date"), Field(group, "flightDate")])
  }

  /** One ops group: canonical status, and the renamed date fields forward-filled; every other field kept. */
  function MigrateGroup(group: Json): (r: Result<Json>)
    ensures r.Failure? <==> group.JNull?
    ensures r.Success? ==> r.value.JObj?
    ensures r.Success? ==> var out := r.value.fields;
      && "status" in out
      && out["status"] == JStr(NormalizeStatus(Coalesce(Field(group, "status"), Field(group, "opsStatus"))))
      && ("validationDate" in out <==> LegacyValidationDate(group).Some?)
      && ("validationDate" in out ==> Some(out["validationDate"]) == LegacyValidationDate(group))
      && ("departureDate" in out <==> LegacyDepartureDate(group).Some?)
      && ("departureDate" in out ==> Some(out["departureDate"]) == LegacyDepartureDate(group))
      && forall k :: k !in {"status", "validationDate", "departureDate"} ==>
           (k in out <==> k in Spread(group)) && (k in out ==> out[k] == Spread(group)[k])
  {
    var status :- Member(group, "status");
    var raw := Coalesce(status, Field(group, "opsStatus"));
    var withStatus := Spread(group)["status" := JStr(NormalizeStatus(raw))];
    Success(JObj(Put(Put(withStatus, "validationDate", LegacyValidationDate(group)),
                     "departureDate", LegacyDepartureDate(group))))
  }

  /** The ops container of a package: `opsProject`, or the legacy `ops` when that is absent. */
  function OpsContainer(pkg: Json): Option<Json> {
    Coalesce(Field(pkg, "opsProject"), Field(pkg, "ops"))
  }

  /** `opsProject?.groups` */
  function OpsGroups(pkg: Json): Option<Json> {
    var ops := OpsContainer(pkg);
    if Nullish(ops) then None else Field(ops.value, "groups")
  }

  /**
   * One package: its ops groups migrated and written back under `opsProject`,
   * with the project id taken from `id`, else the legacy `opsId`, and
   * `packageId` defaulting to the package's own id.
   */
  function MigratePackage(pkg: Json): (r: Result<Json>)
    ensures pkg.JNull? ==> r.Failure?
    ensures !pkg.JNull? && !Truthy(OpsGroups(pkg)) ==> r == Success(pkg)
    ensures Truthy(OpsGroups(pkg)) && !OpsGroups(pkg).value.JArr? ==> r.Failure?
    ensures Truthy(OpsGroups(pkg)) && OpsGroups(pkg).value.JArr? ==>
      (r.Success? <==> MapAll(OpsGroups(pkg).value.items, MigrateGroup).Success?)
    ensures r.Success? && Truthy(OpsGroups(pkg)) ==>
      var ops := OpsContainer(pkg).value;
      && r.value.JObj? && pkg.JObj?
      && (forall k :: k != "opsProject" ==>
            (k in r.value.fields <==> k in pkg.fields) && (k in r.value.fields ==> r.value.fields[k] == pkg.fields[k]))
      && "opsProject" in r.value.fields && r.value.fields["opsProject"].JObj?
      && var project := r.value.fields["opsProject"].fields;
      && ("id" in project <==> Coalesce(Field(ops, "id"), Field(ops, "opsId")).Some?)
      && ("id" in project ==> Some(project["id"]) == Coalesce(Field(ops, "id"), Field(ops, "opsId")))
      && ("packageId" in project <==> Coalesce(Field(ops, "packageId"), Field(pkg, "id")).Some?)
      && ("packageId" in project ==> Some(project["packageId"]) == Coalesce(Field(ops, "packageId"), Field(pkg, "id")))
      && "groups" in project && project["groups"].JArr?
      && MapAll(OpsGroups(pkg).value.items, MigrateGroup) == Success(project["groups"].items)
  {
    var opsProject :- Member(pkg, "opsProject");
    var ops := Coalesce(opsProject, Field(pkg, "ops"));
    var groups := if Nullish(ops) then None else Field(ops.value, "groups");
    if !Truthy(groups) then Success(pkg)
    else if !groups.value.JArr? then Failure(TypeError("groups.map is not a function"))
    else
      var migrated :- MapAll(groups.value.items, MigrateGroup);
      var o := ops.value;
      var project := Put(Put(Spread(o), "id", Coalesce(Field(o, "id"), Field(o, "opsId"))),
                         "packageId", Coalesce(Field(o, "packageId"), Field(pkg, "id")));
      Success(JObj(Spread(pkg)["opsProject" := JObj(project["groups" := JArr(migrated)])]))
  }

  /** Registry step 0: normalise legacy ops-group statuses and renamed date fields. */
  function MigrateOpsStatusChanges(state: Object): (r: Result<Object>)
    ensures !("packages" in state && state["packages"].JArr?) ==> r == Success(state)
    ensures r.Success? ==> forall k :: k != "packages" ==>
      (k in r.value <==> k in state) && (k in r.value ==> r.value[k] == state[k])
    ensures r.Success? && "packages" in state && state["packages"].JArr? ==>
      "packages" in r.value && r.value["packages"].JArr? &&
      MapAll(state["packages"].items, MigratePackage) == Success(r.value["packages"].items)
  {
    if !("packages" in state && state["packages"].JArr?) then Success(state)
    else
      var packages :- MapAll(state["packages"].items, MigratePackage);
      Success(state["packages" := JArr(packages)])
  }

  /** A booking's departure group: the first present of the canonical field and its legacy aliases. */
  function LegacyDepartureGroupId(booking: Json): Option<Json> {
    CoalesceAll([Field(booking, "departureGroupId"), Field(booking, "groupId"),
                 Field(booking, "opsGroupId"), Field(booking, "flightGroupId")])
  }

  function MigrateBooking(booking: Json): (r: Result<Json>)
    ensures r.Failure? <==> booking.JNull?
    ensures r.Success? ==> r.value.JObj?
    ensures r.Success? ==> var out := r.value.fields;
      && ("departureGroupId" in out <==> LegacyDepartureGroupId(booking).Some?)
      && ("departureGroupId" in out ==> Some(out["departureGroupId"]) == LegacyDepartureGroupId(booking))
      && forall k :: k != "departureGroupId" ==>
           (k in out <==> k in Spread(booking)) && (k in out ==> out[k] == Spread(booking)[k])
  {
    var current :- Member(booking, "departureGroupId");
    var departureGroupId := CoalesceAll([current, Field(booking, "groupId"),
                                         Field(booking, "opsGroupId"), Field(booking, "flightGroupId")]);
    Success(JObj(Put(Spread(booking), "departureGroupId", departureGroupId)))
  }

  /** Registry step 1: forward-fill `departureGroupId` on every booking. */
  function MigrateBookings(state: Object): (r: Result<Object>)
    ensures !("bookings" in state && state["bookings"].JArr?) ==> r == Success(state)
    ensures r.Success? ==> forall k :: k != "bookings" ==>
      (k in r.value <==> k in state) && (k in r.value ==> r.value[k] == state[k])
    ensures r.Success? && "bookings" in state && state["bookings"].JArr? ==>
      "bookings" in r.value && r.value["bookings"].JArr? &&
      MapAll(state["bookings"].items, MigrateBooking) == Success(r.value["bookings"].items)
  {
    if !("bookings" in state && state["bookings"].JArr?) then Success(state)
    else
      var bookings :- MapAll(state["bookings"].items, MigrateBooking);
      Success(state["bookings" := JArr(bookings)])
  }

  /** The ordered registry; step v upgrades a snapshot from version v to v + 1. */
  const MIGRATIONS: seq<Object -> Result<Object>> := [MigrateOpsStatusChanges, MigrateBookings]

  const CURRENT_SCHEMA_VERSION: nat := |MIGRATIONS|

  /** `state ? { ...state } : {}` */
  function StartingState(state: Option<Json>): Object {
    if Truthy(state) then Spread(state.value) else map[]
  }

  function SchemaVersion(s: Object): Option<Json> {
    if "schemaVersion" in s then Some(s["schemaVersion"]) else None
  }

  /** The stored version when it is an integer, else 0. */
  function StartingVersion(s: Object): int {
    if IsInteger(SchemaVersion(s)) then SchemaVersion(s).value.n.Floor else 0
  }

  /** The loop of the driver from version v on: registry steps, each followed by its version bump. */
  function RunFrom(v: int, s: Object): Result<Object>
    decreases CURRENT_SCHEMA_VERSION - v
  {
    if v >= CURRENT_SCHEMA_VERSION then Success(s)
    else
      var stepped :- if 0 <= v then MIGRATIONS[v](s) else Success(s);
      RunFrom(v + 1, stepped["schemaVersion" := JNum((v + 1) as real)])
  }

  /** The defensive floor: a missing, falsy or smaller version becomes the current one. */
  function Floor(s: Object): Object {
    var version := SchemaVersion(s);
    if !Truthy(version) || (version.value.JNum? && version.value.n < CURRENT_SCHEMA_VERSION as real)
    then s["schemaVersion" := JNum(CURRENT_SCHEMA_VERSION as real)]
    else s
  }

  /** What loading a persisted snapshot yields. */
  function Migrated(state: Option<Json>): Result<Object> {
    var start := StartingState(state);
    var s :- RunFrom(StartingVersion(start), start);
    Success(Floor(s))
  }

  method MigratePersistedState(state: Option<Json>) returns (r: Result<Object>)
    ensures r == Migrated(state)
    ensures r.Success? ==> "schemaVersion" in r.value && r.value["schemaVersion"].JNum?
                           && r.value["schemaVersion"].n >= CURRENT_SCHEMA_VERSION as real
  {
    var startingState := StartingState(state);
    var startingVersion := StartingVersion(startingState);
    var looped := RunMigrations(startingState, startingVersion);
    if looped.Failure? {
      return Failure(looped.error);
    }
    var nextState := looped.value;
    var current := nextState["schemaVersion"];
    if current.n == 0.0 || current.n < CURRENT_SCHEMA_VERSION as real {
      nextState := nextState["schemaVersion" := JNum(CURRENT_SCHEMA_VERSION as real)];
    }
    assert nextState == Floor(looped.value);
    r := Success(nextState);
  }

  /** The driver's loop: each registry step from the stored version on, followed by its version bump. */
  method RunMigrations(startingState: Object, startingVersion: int) returns (r: Result<Object>)
    requires startingVersion == StartingVersion(startingState)
    ensures r == RunFrom(startingVersion, startingState)
    ensures r.Success? ==>
      var reached := if startingVersion >= CURRENT_SCHEMA_VERSION then startingVersion else CURRENT_SCHEMA_VERSION;
      "schemaVersion" in r.value && r.value["schemaVersion"] == JNum(reached as real)
  {
    var nextState := startingState;
    var version := startingVersion;
    while version < |MIGRATIONS|
      invariant startingVersion <= version
      invariant startingVersion < |MIGRATIONS| ==> version <= |MIGRATIONS|
      invariant RunFrom(startingVersion, startingState) == RunFrom(version, nextState)
      invariant version > startingVersion ==>
        "schemaVersion" in nextState && nextState["schemaVersion"] == JNum(version as real)
      invariant version == startingVersion ==> nextState == startingState
      decreases |MIGRATIONS| - version
    {
      ghost var before := nextState;
      if 0 <= version < |MIGRATIONS| {
        var stepped := MIGRATIONS[version](nextState);
        if stepped.Failure? {
          return Failure(stepped.error);
        }
        nextState := stepped.value;
      }
      nextState := nextState["schemaVersion" := JNum((version + 1) as real)];
      assert RunFrom(version, before) == RunFrom(version + 1, nextState);
      version := version + 1;
    }
    VersionNumberBeforeFloor(startingState, version, nextState);
    r := Success(nextState);
  }

  /** When the floor is reached, the version is the number the loop left there. */
  lemma VersionNumberBeforeFloor(start: Object, version: int, s: Object)
    requires StartingVersion(start) <= version && version >= CURRENT_SCHEMA_VERSION
    requires version > StartingVersion(start) ==> "schemaVersion" in s && s["schemaVersion"] == JNum(version as real)
    requires version == StartingVersion(start) ==> s == start
    ensures "schemaVersion" in s && s["schemaVersion"] == JNum(version as real)
  {
  }

  /** Running any part of the loop that starts below the current version ends at the current version. */
  lemma {:induction false} RunFromEndsAtCurrent(v: int, s: Object, m: Object)
    requires v < CURRENT_SCHEMA_VERSION
    requires RunFrom(v, s) == Success(m)
    ensures "schemaVersion" in m && m["schemaVersion"] == JNum(CURRENT_SCHEMA_VERSION as real)
    decreases CURRENT_SCHEMA_VERSION - v
  {
    var stepped := (if 0 <= v then MIGRATIONS[v](s) else Success(s)).value;
    var bumped := stepped["schemaVersion" := JNum((v + 1) as real)];
    if v + 1 < CURRENT_SCHEMA_VERSION {
      RunFromEndsAtCurrent(v + 1, bumped, m);
    }
  }

  /** Every successful migration leaves a version of at least the current one: the stored version when that was an integer at or above it. */
  lemma MigratedVersion(state: Option<Json>, m: Object)
    requires Migrated(state) == Success(m)
    ensures "schemaVersion" in m
    ensures var v := StartingVersion(StartingState(state));
      m["schemaVersion"] == JNum(if v >= CURRENT_SCHEMA_VERSION then v as real else CURRENT_SCHEMA_VERSION as real)
  {
    var start := StartingState(state);
    var v := StartingVersion(start);
    if v < CURRENT_SCHEMA_VERSION {
      var s := RunFrom(v, start).value;
      RunFromEndsAtCurrent(v, start, s);
    }
  }

  /** A snapshot already at (or beyond) the current version comes back as it was. */
  lemma CurrentSnapshotUnchanged(m: Object)
    requires IsInteger(SchemaVersion(m)) && SchemaVersion(m).value.n >= CURRENT_SCHEMA_VERSION as real
    ensures Migrated(Some(JObj(m))) == Success(m)
  {
    assert StartingState(Some(JObj(m))) == m;
    assert StartingVersion(m) >= CURRENT_SCHEMA_VERSION;
  }

  /** Loading a migrated snapshot again changes nothing. */
  lemma MigrationIdempotent(state: Option<Json>, m: Object)
    requires Migrated(state) == Success(m)
    ensures Migrated(Some(JObj(m))) == Success(m)
  {
    MigratedVersion(state, m);
    CurrentSnapshotUnchanged(m);
  }

  /** A registry step does not look at, and does not touch, the version field. */
  lemma StepIgnoresVersion(i: nat, s: Object, x: Json)
    requires i < CURRENT_SCHEMA_VERSION
    ensures MIGRATIONS[i](s["schemaVersion" := x]).Success? <==> MIGRATIONS[i](s).Success?
    ensures MIGRATIONS[i](s).Success? ==>
      MIGRATIONS[i](s["schemaVersion" := x]).value == MIGRATIONS[i](s).value["schemaVersion" := x]
    ensures MIGRATIONS[i](s).Failure? ==> MIGRATIONS[i](s["schemaVersion" := x]) == MIGRATIONS[i](s)
  {
    if i == 0 {
      OpsStepIgnoresVersion(s, x);
    } else {
      BookingsStepIgnoresVersion(s, x);
    }
  }

  lemma OpsStepIgnoresVersion(s: Object, x: Json)
    ensures var r, t := MigrateOpsStatusChanges(s), MigrateOpsStatusChanges(s["schemaVersion" := x]);
      (r.Success? ==> t == Success(r.value["schemaVersion" := x])) && (r.Failure? ==> t == r)
  {
    var t := s["schemaVersion" := x];
    if "packages" in s && s["packages"].JArr? {
      assert "packages" in t && t["packages"] == s["packages"];
      var m := MapAll(s["packages"].items, MigratePackage);
      if m.Success? {
        assert s["packages" := JArr(m.value)]["schemaVersion" := x] == t["packages" := JArr(m.value)];
      }
    } else {
      assert !("packages" in t && t["packages"].JArr?);
    }
  }

  lemma BookingsStepIgnoresVersion(s: Object, x: Json)
    ensures var r, t := MigrateBookings(s), MigrateBookings(s["schemaVersion" := x]);
      (r.Success? ==> t == Success(r.value["schemaVersion" := x])) && (r.Failure? ==> t == r)
  {
    var t := s["schemaVersion" := x];
    if "bookings" in s && s["bookings"].JArr? {
      assert "bookings" in t && t["bookings"] == s["bookings"];
      var m := MapAll(s["bookings"].items, MigrateBooking);
      if m.Success? {
        assert s["bookings" := JArr(m.value)]["schemaVersion" := x] == t["bookings" := JArr(m.value)];
      }
    } else {
      assert !("bookings" in t && t["bookings"].JArr?);
    }
  }

  /** From version v in the registry, the stored version field makes no difference to the outcome. */
  lemma {:induction false} RunFromIgnoresVersion(v: int, s: Object, x: Json)
    requires 0 <= v < CURRENT_SCHEMA_VERSION
    ensures RunFrom(v, s["schemaVersion" := x]) == RunFrom(v, s)
    decreases CURRENT_SCHEMA_VERSION - v
  {
    StepIgnoresVersion(v, s, x);
    if MIGRATIONS[v](s).Success? {
      var a := MIGRATIONS[v](s).value;
      assert a["schemaVersion" := x]["schemaVersion" := JNum((v + 1) as real)]
          == a["schemaVersion" := JNum((v + 1) as real)];
    }
  }

  /** A negative stored version runs every step, exactly as version 0 does. */
  lemma {:induction false} NegativeVersionRunsEveryStep(v: int, s: Object)
    requires v <= 0
    ensures RunFrom(v, s) == RunFrom(0, s)
    decreases -v
  {
    if v < 0 {
      var bumped := s["schemaVersion" := JNum((v + 1) as real)];
      NegativeVersionRunsEveryStep(v + 1, bumped);
      RunFromIgnoresVersion(0, s, JNum((v + 1) as real));
    }
  }

  /** Below version 0 nothing differs: from 0 the driver runs step 0, bumps to 1, runs step 1, bumps to 2. */
  lemma RunFromZero(s: Object)
    ensures RunFrom(0, s) ==
      var a :- MigrateOpsStatusChanges(s);
      var b :- MigrateBookings(a["schemaVersion" := JNum(1.0)]);
      Success(b["schemaVersion" := JNum(2.0)])
  {
  }

  lemma MapAllPair(a: Json, b: Json, f: Json -> Result<Json>)
    requires f(a).Success? && f(b).Success?
    ensures MapAll([a, b], f) == Success([f(a).value, f(b).value])
  {
    var xs := [a, b];
    assert xs[0] == a;
    assert xs[1..] == [b];
    assert [f(a).value] + [f(b).value] == [f(a).value, f(b).value];
    MapAllSingle(b, f);
    assert MapAll(xs, f) == Success([f(xs[0]).value] + MapAll(xs[1..], f).value);
  }

  lemma MapAllSingle(a: Json, f: Json -> Result<Json>)
    requires f(a).Success?
    ensures MapAll([a], f) == Success([f(a).value])
  {
    var xs := [a];
    assert xs[0] == a;
    assert xs[1..] == [];
    assert MapAll(xs[1..], f) == Success([]);
    assert [f(a).value] + [] == [f(a).value];
    assert MapAll(xs, f) == Success([f(xs[0]).value] + MapAll(xs[1..], f).value);
  }
}
