/** The legacy snapshot of the repository's migration test, and the outcomes it asserts. */
module MigrationExamples {
  import opened Wrappers
  import opened JsonValues
  import opened Migrations

  const LegacyGroup1: Json := JObj(map[
    "id" := JStr("grp-1"),
    "opsStatus" := JStr("validate"),
    "validatedAt" := JStr("2024-01-01T00:00:00.000Z"),
    "departure_date" := JStr("2024-02-01")])

  const LegacyGroup2: Json := JObj(map[
    "id" := JStr("grp-2"),
    "status" := JStr("pending"),
    "flightDate" := JStr("2024-03-10")])

  /** The legacy package of the test, around a list of legacy groups. */
  function LegacyPackageWith(groups: seq<Json>): Json {
    JObj(map["id" := JStr("pkg-legacy"), "ops" := JObj(map["opsId" := JStr("ops-legacy"), "groups" := JArr(groups)])])
  }

  const LegacyPackage: Json := LegacyPackageWith([LegacyGroup1, LegacyGroup2])

  const LegacyBooking: Json := JObj(map[
    "id" := JStr("bkg-legacy"),
    "packageId" := JStr("pkg-legacy"),
    "bookingType" := JStr("Confirmée"),
    "rooms" := JArr([]),
    "paxTotal" := JNum(0.0),
    "uploads" := JObj(map["passportScans" := JArr([]), "requiredDocuments" := JArr([])]),
    "payment" := JObj(map["paymentMethod" := JStr("Virement"), "totalPrice" := JNum(0.0),
                          "paidAmount" := JNum(0.0), "isFullyPaid" := JBool(false)]),
    "createdAt" := JStr("2024-01-01T00:00:00.000Z"),
    "groupId" := JStr("grp-1")])

  /** A version-0 snapshot around package and booking lists. */
  function LegacyStateWith(packages: seq<Json>, bookings: seq<Json>): Json {
    JObj(map["schemaVersion" := JNum(0.0), "packages" := JArr(packages), "bookings" := JArr(bookings)])
  }

  const LegacyState: Json := LegacyStateWith([LegacyPackage], [LegacyBooking])

  /** `opsStatus: "validate"` becomes validated; `validatedAt` and `departure_date` are carried over. */
  lemma FirstLegacyGroupMigrates()
    ensures MigrateGroup(LegacyGroup1).Success?
    ensures var g := MigrateGroup(LegacyGroup1).value.fields;
      g["status"] == JStr("validated")
      && "validationDate" in g && g["validationDate"] == JStr("2024-01-01T00:00:00.000Z")
      && "departureDate" in g && g["departureDate"] == JStr("2024-02-01")
  {
    var f := LegacyGroup1.fields;
    assert "status" !in f && "opsStatus" in f;
    assert "validationDate" !in f && "validatedAt" in f && "validation_date" !in f && "confirmedAt" !in f;
    assert "departureDate" !in f && "departure_date" in f && "flightDate" !in f;
    assert Coalesce(Field(LegacyGroup1, "status"), Field(LegacyGroup1, "opsStatus")) == Some(JStr("validate"));
    assert NormalizeStatus(Some(JStr("validate"))) == VALIDATED;
    assert LegacyValidationDate(LegacyGroup1) == Some(JStr("2024-01-01T00:00:00.000Z")) by {
      CoalesceFourIsChain(None, Some(JStr("2024-01-01T00:00:00.000Z")), None, None);
    }
    assert LegacyDepartureDate(LegacyGroup1) == Some(JStr("2024-02-01")) by {
      CoalesceThreeIsChain(None, Some(JStr("2024-02-01")), None);
    }
  }

  /** `status: "pending"` becomes pending_validation; `flightDate` is carried over. */
  lemma SecondLegacyGroupMigrates()
    ensures MigrateGroup(LegacyGroup2).Success?
    ensures var g := MigrateGroup(LegacyGroup2).value.fields;
      g["status"] == JStr("pending_validation")
      && "departureDate" in g && g["departureDate"] == JStr("2024-03-10")
  {
    var f := LegacyGroup2.fields;
    assert "status" in f;
    assert "departureDate" !in f && "departure_date" !in f && "flightDate" in f;
    assert Coalesce(Field(LegacyGroup2, "status"), Field(LegacyGroup2, "opsStatus")) == Some(JStr("pending"));
    assert NormalizeStatus(Some(JStr("pending"))) == PENDING;
    assert LegacyDepartureDate(LegacyGroup2) == Some(JStr("2024-03-10")) by {
      CoalesceThreeIsChain(None, None, Some(JStr("2024-03-10")));
    }
  }

  /** The booking's legacy `groupId` fills `departureGroupId`. */
  lemma LegacyBookingMigrates()
    ensures MigrateBooking(LegacyBooking).Success?
    ensures var b := MigrateBooking(LegacyBooking).value.fields;
      "departureGroupId" in b && b["departureGroupId"] == JStr("grp-1")
  {
    var f := LegacyBooking.fields;
    assert "departureGroupId" !in f && "groupId" in f && "opsGroupId" !in f && "flightGroupId" !in f;
    CoalesceFourIsChain(None, Some(JStr("grp-1")), None, None);
  }

  lemma LegacyGroupListMigrates()
    ensures MapAll([LegacyGroup1, LegacyGroup2], MigrateGroup)
         == Success([MigrateGroup(LegacyGroup1).value, MigrateGroup(LegacyGroup2).value])
  {
    FirstLegacyGroupMigrates();
    SecondLegacyGroupMigrates();
    MapAllPair(LegacyGroup1, LegacyGroup2, MigrateGroup);
  }

  /**
   * A package in the legacy shape, whatever its groups: the `ops` container is
   * written back as `opsProject`, its id taken from `opsId`, its groups migrated.
   */
  lemma LegacyShapeMigrates(groups: seq<Json>)
    requires MapAll(groups, MigrateGroup).Success?
    ensures MigratePackage(LegacyPackageWith(groups)).Success?
    ensures var p := MigratePackage(LegacyPackageWith(groups)).value;
      && p.JObj? && "opsProject" in p.fields
      && var project := p.fields["opsProject"];
      && project.JObj? && "id" in project.fields && project.fields["id"] == JStr("ops-legacy")
      && "packageId" in project.fields && project.fields["packageId"] == JStr("pkg-legacy")
      && "groups" in project.fields && project.fields["groups"].JArr?
      && Success(project.fields["groups"].items) == MapAll(groups, MigrateGroup)
  {
    var pkg := LegacyPackageWith(groups);
    LegacyShapeContainer(groups);
    assert Truthy(OpsGroups(pkg)) && OpsGroups(pkg).value.JArr?;
  }

  /** Where the migration looks in a legacy-shaped package: `ops`, its groups and its `opsId`. */
  lemma LegacyShapeContainer(groups: seq<Json>)
    ensures var pkg := LegacyPackageWith(groups);
      && !pkg.JNull?
      && OpsContainer(pkg).Some? && OpsGroups(pkg) == Some(JArr(groups))
      && var ops := OpsContainer(pkg).value;
      && Coalesce(Field(ops, "id"), Field(ops, "opsId")) == Some(JStr("ops-legacy"))
      && Coalesce(Field(ops, "packageId"), Field(pkg, "id")) == Some(JStr("pkg-legacy"))
  {
    var pkg := LegacyPackageWith(groups);
    var ops := pkg.fields["ops"];
    assert "opsProject" !in pkg.fields && "ops" in pkg.fields;
    assert OpsContainer(pkg) == Some(ops);
    assert "groups" in ops.fields && ops.fields["groups"] == JArr(groups);
    assert "id" !in ops.fields && "opsId" in ops.fields;
    assert "packageId" !in ops.fields && "id" in pkg.fields;
  }

  /** The test's legacy package, with its two groups. */
  lemma LegacyPackageMigrates()
    ensures MigratePackage(LegacyPackage).Success?
    ensures var p := MigratePackage(LegacyPackage).value;
      && p.JObj? && "opsProject" in p.fields
      && var project := p.fields["opsProject"];
      && project.JObj? && "id" in project.fields && project.fields["id"] == JStr("ops-legacy")
      && "packageId" in project.fields && project.fields["packageId"] == JStr("pkg-legacy")
      && "groups" in project.fields && project.fields["groups"].JArr?
      && project.fields["groups"].items == [MigrateGroup(LegacyGroup1).value, MigrateGroup(LegacyGroup2).value]
  {
    LegacyGroupListMigrates();
    LegacyShapeMigrates([LegacyGroup1, LegacyGroup2]);
  }

  /** Step 0 on a version-0 snapshot rewrites its package list and nothing else. */
  lemma LegacyStepZero(packages: seq<Json>, bookings: seq<Json>)
    requires MapAll(packages, MigratePackage).Success?
    ensures var s0 := LegacyStateWith(packages, bookings).fields;
      MigrateOpsStatusChanges(s0) == Success(s0["packages" := JArr(MapAll(packages, MigratePackage).value)])
  {
    var s0 := LegacyStateWith(packages, bookings).fields;
    assert "packages" in s0 && s0["packages"] == JArr(packages);
  }

  /** Step 1 rewrites the booking list of whatever step 0 produced. */
  lemma LegacyStepOne(t: Object, bookings: seq<Json>)
    requires "bookings" in t && t["bookings"] == JArr(bookings)
    requires MapAll(bookings, MigrateBooking).Success?
    ensures MigrateBookings(t) == Success(t["bookings" := JArr(MapAll(bookings, MigrateBooking).value)])
  {
  }

  /** A version-0 snapshot whose packages and bookings all migrate reaches the current version with both lists migrated. */
  lemma VersionZeroSnapshotMigrates(packages: seq<Json>, bookings: seq<Json>)
    requires MapAll(packages, MigratePackage).Success?
    requires MapAll(bookings, MigrateBooking).Success?
    ensures Migrated(Some(LegacyStateWith(packages, bookings))).Success?
    ensures var m := Migrated(Some(LegacyStateWith(packages, bookings))).value;
      && "schemaVersion" in m && m["schemaVersion"] == JNum(CURRENT_SCHEMA_VERSION as real)
      && "packages" in m && m["packages"] == JArr(MapAll(packages, MigratePackage).value)
      && "bookings" in m && m["bookings"] == JArr(MapAll(bookings, MigrateBooking).value)
  {
    var state := LegacyStateWith(packages, bookings);
    var s0 := state.fields;
    assert StartingState(Some(state)) == s0;
    assert StartingVersion(s0) == 0 by {
      assert SchemaVersion(s0) == Some(JNum(0.0));
    }
    var t2 := VersionZeroRun(packages, bookings);
    assert Migrated(Some(state)) == Success(Floor(t2));
    MigratedVersion(Some(state), Floor(t2));
  }

  /** The loop from version 0 over a version-0 snapshot: both steps, each with its version bump. */
  lemma VersionZeroRun(packages: seq<Json>, bookings: seq<Json>) returns (t2: Object)
    requires MapAll(packages, MigratePackage).Success?
    requires MapAll(bookings, MigrateBooking).Success?
    ensures RunFrom(0, LegacyStateWith(packages, bookings).fields) == Success(t2)
    ensures "packages" in t2 && t2["packages"] == JArr(MapAll(packages, MigratePackage).value)
    ensures "bookings" in t2 && t2["bookings"] == JArr(MapAll(bookings, MigrateBooking).value)
  {
    var s0 := LegacyStateWith(packages, bookings).fields;
    var a := s0["packages" := JArr(MapAll(packages, MigratePackage).value)];
    LegacyStepZero(packages, bookings);
    var t1 := a["schemaVersion" := JNum(1.0)];
    assert "bookings" in t1 && t1["bookings"] == JArr(bookings);
    LegacyStepOne(t1, bookings);
    t2 := t1["bookings" := JArr(MapAll(bookings, MigrateBooking).value)]["schemaVersion" := JNum(2.0)];
    RunFromZero(s0);
  }

  /** The whole legacy snapshot reaches the current version with its package and booking migrated. */
  lemma LegacySnapshotMigrates()
    ensures MigratePackage(LegacyPackage).Success? && MigrateBooking(LegacyBooking).Success?
    ensures Migrated(Some(LegacyState)).Success?
    ensures var m := Migrated(Some(LegacyState)).value;
      && "schemaVersion" in m && m["schemaVersion"] == JNum(CURRENT_SCHEMA_VERSION as real)
      && "packages" in m && m["packages"] == JArr([MigratePackage(LegacyPackage).value])
      && "bookings" in m && m["bookings"] == JArr([MigrateBooking(LegacyBooking).value])
  {
    LegacyPackageMigrates();
    MapAllSingle(LegacyPackage, MigratePackage);
    LegacyBookingMigrates();
    MapAllSingle(LegacyBooking, MigrateBooking);
    VersionZeroSnapshotMigrates([LegacyPackage], [LegacyBooking]);
  }
}
