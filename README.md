# travel-ops-oups, modelled in Dafny

This project models the client-side core of travel-ops-oups. The application is a
back-office for a travel agency. Designers build travel packages: general
information, flights, price lines, agency commissions and a day-by-day itinerary.
Operations staff follow each departure as an *ops group*, with suppliers, payment
steps and a timeline. Sales staff take bookings against packages.

The model covers:

- **Package store.** `PackageStore.Store` is the list of packages, and every action
  replaces that list. The ops project is reconciled with the flights:
  - existing groups are indexed by structural key, and the first group to register a
    key wins;
  - each flight either refreshes the group its full key finds or gets a fresh
    pending group;
  - an update re-merges only when the multiset of flight keys changes.
- **Flight structure.** The key functions and the change gate appear twice in the
  repository, once in the store and once in the server-side builder. They are
  modelled once, in `FlightStructure`. `OpsBuilder` holds the builder's own part,
  the key of a stored departure and the records created for new flights, and proves
  that this key agrees with the flight key.
- **Persisted-state migration.** A registry of two steps, and a driver that walks a
  snapshot from its stored `schemaVersion` to the current version. It is modelled
  over a JSON value type, where an absent property is `undefined`. The driver's
  `for` loop is its own method, `RunMigrations`, which `MigratePersistedState`
  calls before applying the final version floor. The legacy snapshot of the
  repository's migration test is replayed as lemmas.
- **Bookings.** Passenger counts, unit prices resolved from price lines by keyword,
  the tiered agency commission, totals and the payment label. Also the small booking
  and user stores, the theme store, and the mapping of booking types between the
  interface and the database.
- **Ops alerts.** Overdue payment steps and supplier deadlines.
- **Product brief readiness.** Nine fields must be present.
- **Package editor.** The form's validation with its exact French messages, the
  publish and save gates, and the renumbering of itinerary days after one is removed.
- **Sidebar.** The route table, its role filter and the active-route test.
- **PDF tables.** The row pairing of the package PDF.

State that the source updates in place is modelled as classes:

- the three zustand stores;
- the user directory;
- the editor form.

Loops in the source are methods, each proved against a specification function:

- passenger counting;
- key counting and the change gate;
- index building;
- the brief check;
- the three validation sections;
- the migration driver;
- the PDF row loop.

Identifiers and clocks are parameters:

- `newId: nat -> string` is an identifier supply, and each operation documents which
  slot it uses for what;
- `now` is the current time;
- date parsing and label normalisation are function parameters.

The model keeps some behaviours of the code that a reader would not expect. Each is
proved as written, and each bullet says what one would expect instead:

- Migration is not total. Reading a property of a `null` package, group or booking
  throws in JavaScript, and so does a non-array `groups` value being mapped. One
  would expect a migration to accept any stored shape. The
  model returns `Failure(TypeError)` there (`Migrations.MigratePackage`,
  `Migrations.MigrateGroup`, `Migrations.MigrateBooking`).
- The merge looks groups up by the flight's full key only. So changing only a
  flight's airline does not keep its group: a fresh pending group replaces it
  (`MergeExamples.AirlineChangeCreatesFreshGroup`). One would expect the partial
  and date-only keys to keep the group across such a change.
- Merging the same flights twice can hand a group to a different flight, through
  the partial key an earlier group registered (`MergeExamples.RemergeCanReassignGroup`).
  One would expect unchanged flights to keep their groups.
- Two flights with the same key receive the same group, so group ids can repeat
  (`OpsMerge.SameKeySharesGroup`). One would expect one group per flight.
- The store's update is idempotent only for patches without an `opsProject`
  (`PackageStore.UpdateIsIdempotent`). On a structure change, a patch's own
  `opsProject` is discarded in favour of a re-merge of the stored project
  (`PackageStore.StructureChangeRemergesStoredProject`). One would expect every
  update to be idempotent and a patch's project to be kept.
- The server-side builder writes its label as `airline - depart date` and its
  timeline entry as `Groupe cree`, without accents. The store writes
  `airline - départ date` and `Groupe créé`. One would expect both to write the
  same text.
- A flight date that carries a time of day no longer matches its stored departure's
  key (`OpsBuilder.TimeOfDayBreaksKey`). One would expect the time of day not to
  matter.
- The active-route test is a plain string prefix: `/packagesX` is active for
  `/packages` (`Navigation.NotSegmentAware`). One would expect the test to respect
  path segments.

## Model

| member | source | states |
|---|---|---|
| Text.NatToString | travel-ops-oups/src/components/PackageEditor.tsx:962-964 | the decimal rendering of a position is non-empty and made of digits only |
| Text.TrimStartIsSuffix | travel-ops-oups/src/components/PackageEditor.tsx:953 | trimming the start leaves a suffix of the input that does not start with JavaScript whitespace |
| Text.TrimEndIsPrefix | travel-ops-oups/src/components/PackageEditor.tsx:953 | trimming the end leaves a prefix of the input that does not end with JavaScript whitespace |
| Text.TrimStartEmptyIffBlank | travel-ops-oups/src/components/PackageEditor.tsx:953 | trimming the start leaves nothing exactly when the string is all whitespace |
| Text.TrimEmptyIffBlank | travel-ops-oups/src/components/PackageEditor.tsx:953-957 | the `!s.trim()` test holds exactly for all-whitespace strings |
| Text.TrimEndEmptyIfFirstKept | travel-ops-oups/src/components/PackageEditor.tsx:953 | a string starting with a non-blank character does not trim to nothing |
| JsonValues.Coalesce | travel-ops-oups/src/stores/migrations.ts:24 | `a ?? b` is `a` unless `a` is null or undefined, and `b` otherwise |
| JsonValues.CoalesceAllFirstPresent | travel-ops-oups/src/stores/migrations.ts:39-41 | a chain of `??` yields the first value that is neither null nor undefined, or else the last |
| JsonValues.CoalesceFourIsChain | travel-ops-oups/src/stores/migrations.ts:40 | the four-way `??` written in the source is the left-nested chain |
| JsonValues.CoalesceThreeIsChain | travel-ops-oups/src/stores/migrations.ts:41 | the three-way `??` written in the source is the left-nested chain |
| JsonValues.Field | travel-ops-oups/src/stores/migrations.ts:24-25 | a property read gives a value exactly for an object's own key, and that value |
| JsonValues.Member | travel-ops-oups/src/stores/migrations.ts:24 | a property read fails exactly on `null`, and otherwise is the field read |
| JsonValues.IndexObjectHoldsItems | travel-ops-oups/src/stores/migrations.ts:37 | spreading an array or string gives the keys "0".."n-1" and no others, key "i" holding item i |
| JsonValues.IndexObjectKeys | travel-ops-oups/src/stores/migrations.ts:37 | the spread's keys are exactly the renderings of the indices |
| JsonValues.IndexObjectValues | travel-ops-oups/src/stores/migrations.ts:37 | the spread's key "i" holds item i |
| Text.NatToStringInjective | travel-ops-oups/src/stores/migrations.ts:37 | two indices with the same decimal rendering are equal, so index keys never collide |
| Text.NatToStringShort | travel-ops-oups/src/stores/migrations.ts:37 | a rendering is one digit long exactly for the numbers below ten |
| JsonValues.Chars | travel-ops-oups/src/stores/migrations.ts:37 | a string spreads to one single-character value per character |
| JsonValues.Spread | travel-ops-oups/src/stores/migrations.ts:37 | spreading an object copies its fields; null, booleans and numbers copy nothing |
| JsonValues.Put | travel-ops-oups/src/stores/migrations.ts:38-41 | `{...m, k: v}` sets `k` to `v`, leaves it absent for undefined, and keeps every other key |
| Migrations.NormalizeStatus | travel-ops-oups/src/stores/migrations.ts:7-18 | a raw status becomes validated exactly when it is a string aliasing validated; everything else is pending_validation |
| Migrations.MapAll | travel-ops-oups/src/stores/migrations.ts:27 | mapping succeeds exactly when every element succeeds, and then holds each element's result in order |
| Migrations.MigrateGroup | travel-ops-oups/src/stores/migrations.ts:27-43 | a group fails exactly when it is null; otherwise it keeps every field, takes the normalised status and forward-fills the two renamed dates |
| Migrations.MigratePackage | travel-ops-oups/src/stores/migrations.ts:23-53 | null fails; a package without groups is unchanged; non-array groups fail; otherwise groups are migrated and written under `opsProject` with the id and packageId defaults |
| Migrations.MigrateOpsStatusChanges | travel-ops-oups/src/stores/migrations.ts:20-57 | a state without a packages array is unchanged; otherwise only `packages` changes, package by package |
| Migrations.MigrateBooking | travel-ops-oups/src/stores/migrations.ts:62-69 | a booking fails exactly when null; otherwise it keeps its fields and takes the first present group-id alias |
| Migrations.MigrateBookings | travel-ops-oups/src/stores/migrations.ts:59-73 | a state without a bookings array is unchanged; otherwise only `bookings` changes, booking by booking |
| Migrations.MigratePersistedState | travel-ops-oups/src/stores/migrations.ts:79-100 | the driver's loop computes the reference migration, and a success carries a numeric version |
| Migrations.RunMigrations | travel-ops-oups/src/stores/migrations.ts:85-92 | the loop computes the reference run from the stored version, and a success carries the larger of that version and the current one |
| Migrations.RunFromEndsAtCurrent | travel-ops-oups/src/stores/migrations.ts:87-93 | a run of the loop that starts below the current version ends at the current version |
| Migrations.MigratedVersion | travel-ops-oups/src/stores/migrations.ts:81-97 | a migrated snapshot's version is the current one, or the stored integer when that was at least the current one |
| Migrations.CurrentSnapshotUnchanged | travel-ops-oups/src/stores/migrations.ts:87-97 | a snapshot already at or beyond the current version comes back unchanged |
| Migrations.MigrationIdempotent | travel-ops-oups/src/stores/migrations.ts:79-100 | migrating an already migrated snapshot changes nothing |
| Migrations.StepIgnoresVersion | travel-ops-oups/src/stores/migrations.ts:20-73 | neither registry step reads or writes `schemaVersion` |
| Migrations.OpsStepIgnoresVersion | travel-ops-oups/src/stores/migrations.ts:20-56 | the ops-status step gives the same outcome with any version field, and carries that field through |
| Migrations.BookingsStepIgnoresVersion | travel-ops-oups/src/stores/migrations.ts:58-72 | the bookings step gives the same outcome with any version field, and carries that field through |
| Migrations.RunFromIgnoresVersion | travel-ops-oups/src/stores/migrations.ts:87-93 | once in the loop, the stored version field makes no difference to the outcome |
| Migrations.NegativeVersionRunsEveryStep | travel-ops-oups/src/stores/migrations.ts:87-92 | a negative stored version skips the missing registry slots and runs exactly what version 0 runs |
| Migrations.RunFromZero | travel-ops-oups/src/stores/migrations.ts:75-93 | from version 0 the driver runs step 0, sets version 1, runs step 1, sets version 2 |
| MigrationExamples.FirstLegacyGroupMigrates | travel-ops-oups/tests/migrations.test.ts:57-65 | the `opsStatus: "validate"` group becomes validated and carries `validatedAt` and `departure_date` over |
| MigrationExamples.SecondLegacyGroupMigrates | travel-ops-oups/tests/migrations.test.ts:57-65 | the `status: "pending"` group becomes pending_validation and carries `flightDate` over |
| MigrationExamples.LegacyBookingMigrates | travel-ops-oups/tests/migrations.test.ts:67-71 | the legacy booking gets `departureGroupId` from `groupId` |
| MigrationExamples.LegacyGroupListMigrates | travel-ops-oups/tests/migrations.test.ts:57-63 | the two legacy groups migrate pairwise |
| MigrationExamples.LegacyShapeMigrates | travel-ops-oups/tests/migrations.test.ts:4-55 | a package in the legacy shape, whatever its groups, gets an `opsProject` with `opsId` as id, the package id as packageId, and its groups migrated |
| MigrationExamples.LegacyShapeContainer | travel-ops-oups/src/stores/migrations.ts:24-51 | in the legacy shape the migration reads the `ops` container, its groups, and falls back to `opsId` and the package id |
| MigrationExamples.LegacyPackageMigrates | travel-ops-oups/tests/migrations.test.ts:50-55 | the legacy `ops` container is rewritten as `opsProject` with `opsId` as id, the package id as packageId, and the two migrated groups |
| MigrationExamples.LegacyStepZero | travel-ops-oups/src/stores/migrations.ts:20-56 | step 0 on a version-0 snapshot replaces its package list by the migrated packages and keeps the rest |
| MigrationExamples.LegacyStepOne | travel-ops-oups/src/stores/migrations.ts:58-72 | step 1 replaces the booking list by the migrated bookings and keeps the rest |
| MigrationExamples.VersionZeroSnapshotMigrates | travel-ops-oups/src/stores/migrations.ts:79-100 | a version-0 snapshot whose packages and bookings migrate reaches the current version with both lists migrated |
| MigrationExamples.LegacySnapshotMigrates | travel-ops-oups/tests/migrations.test.ts:44-71 | the whole legacy snapshot migrates to version 2 with the asserted packages and bookings |
| FlightStructure.OrEmpty | travel-ops-oups/src/lib/opsBuilder.ts:20-22 | `x \|\| ""` is the string when present and empty otherwise |
| FlightStructure.StructureKeyParts | travel-ops-oups/src/stores/usePackageStore.ts:65-66 | a key starts with the departure date and ends with the return date, each set off by `\|`, so its length is the parts' plus two |
| FlightStructure.FlightStructureKey | travel-ops-oups/src/stores/usePackageStore.ts:65-66 | a flight's key is its departure date, airline and return date in that order, separated by `\|`, each part at a fixed position |
| FlightStructure.FlightKeys | travel-ops-oups/src/stores/usePackageStore.ts:73-83 | one key per flight, in order |
| FlightStructure.CountKeys | travel-ops-oups/src/stores/usePackageStore.ts:73-83 | the count map holds exactly the keys present, each with its number of occurrences |
| FlightStructure.HasFlightStructureChanged | travel-ops-oups/src/stores/usePackageStore.ts:71-90 | the gate reports a change exactly when the multisets of flight keys differ |
| FlightStructure.CountsDetermineMultiset | travel-ops-oups/src/stores/usePackageStore.ts:85-89 | two count maps are equal exactly when the counted key sequences are permutations |
| FlightStructure.ReorderIsNoChange | travel-ops-oups/src/lib/opsBuilder.ts:25-44 | reordering the flights is never a structure change |
| FlightStructure.StructureChangeSymmetric | travel-ops-oups/src/stores/usePackageStore.ts:71-72 | the gate is symmetric, and any change of length is a change |
| OpsBuilder.Slice10 | travel-ops-oups/src/lib/opsBuilder.ts:20-22 | `slice(0, 10)` is the prefix of length at most ten |
| OpsBuilder.DayOf | travel-ops-oups/src/lib/opsBuilder.ts:20-22 | a missing instant gives the empty day, a present one the first ten characters of its ISO form |
| OpsBuilder.ParsedOrNull | travel-ops-oups/src/lib/opsBuilder.ts:50-51 | an empty date string gives null, any other its parsed instant |
| OpsBuilder.BuildDeparturesFromFlights | travel-ops-oups/src/lib/opsBuilder.ts:46-62 | one draft per flight with the unaccented label, the airline, each date null exactly when empty and otherwise the parsed date, and one numbered creation entry |
| OpsBuilder.BuiltDepartureKeepsKey | travel-ops-oups/src/lib/opsBuilder.ts:15-62 | once stored, a built departure has its flight's structural key whenever the dates survive parsing as days |
| OpsBuilder.TimeOfDayBreaksKey | travel-ops-oups/src/lib/opsBuilder.ts:19-23 | a flight date with a time of day does not match the key of its stored departure |
| OpsMerge.FirstRegistrant | travel-ops-oups/src/stores/usePackageStore.ts:115-126 | the position of the earliest group registering a key, and none exactly when no group does |
| OpsMerge.RegisterGroupDefines | travel-ops-oups/src/stores/usePackageStore.ts:117-125 | registering a group adds exactly the keys it registers that were not yet taken |
| OpsMerge.IndexIsFirstRegistrant | travel-ops-oups/src/stores/usePackageStore.ts:115-126 | first writer wins: the index maps each key to the earliest group registering it |
| OpsMerge.BuildGroupIndex | travel-ops-oups/src/stores/usePackageStore.ts:115-126 | the loop builds the reference index, which holds the first registrant of every key |
| OpsMerge.RefreshGroup | travel-ops-oups/src/stores/usePackageStore.ts:130-137 | a matched group keeps id, status, validation date, suppliers, costs and timeline; only the flight fields change |
| OpsMerge.NewGroup | travel-ops-oups/src/stores/usePackageStore.ts:92-112 | a fresh group takes the id, the flight's label, airline and dates, so its own key is the flight's key; it is pending with no validation date, no suppliers or costs, and one creation entry numbering the flight from 1 |
| OpsMerge.MergeOpsProject | travel-ops-oups/src/stores/usePackageStore.ts:114-148 | the merge as written computes the reference merged project |
| OpsMerge.MergeMatchesFirstRegistrant | travel-ops-oups/src/stores/usePackageStore.ts:128-147 | one group per flight in flight order: the refreshed first registrant of its key, or a fresh pending group carrying the flight's airline and dates and one creation entry |
| OpsMerge.ReturnDateRestrictsLookup | travel-ops-oups/src/stores/usePackageStore.ts:117-129 | a flight with a return date finds only groups whose full key equals its own |
| OpsMerge.PartialKeyServesMissingReturn | travel-ops-oups/src/stores/usePackageStore.ts:119-122 | a one-way flight is found by the partial key of a group with its date and airline |
| OpsMerge.DegradedKeyServesBareDate | travel-ops-oups/src/stores/usePackageStore.ts:122-124 | a flight with only a date is found by the degraded key of any group on that date |
| OpsMerge.SameKeySharesGroup | travel-ops-oups/src/stores/usePackageStore.ts:128-141 | flights with the same key that find a group both receive it |
| OpsMerge.UnclaimedGroupIsDropped | travel-ops-oups/src/stores/usePackageStore.ts:128-147 | a group that is no flight's first registrant disappears from the merged project |
| MergeExamples.SameFlightKeepsGroup | travel-ops-oups/src/stores/usePackageStore.ts:128-141 | an unchanged flight keeps its validated group with its suppliers |
| MergeExamples.AirlineChangeCreatesFreshGroup | travel-ops-oups/src/stores/usePackageStore.ts:128-141 | changing only the airline replaces the validated group by a fresh pending one |
| MergeExamples.RemergeCanReassignGroup | travel-ops-oups/src/stores/usePackageStore.ts:115-141 | merging the same flights twice can give the first group to both flights |
| PackageStore.ApplyPatch | travel-ops-oups/src/stores/usePackageStore.ts:207 | every field is the patch's when given, and the package's otherwise |
| PackageStore.UpdatedPackages | travel-ops-oups/src/stores/usePackageStore.ts:202-221 | packages with another id are untouched; matching ones are updated; the length is kept |
| PackageStore.LastUpdatedIsLastMatch | travel-ops-oups/src/stores/usePackageStore.ts:202-221 | the returned package exists exactly when some package has the id, and is the update of the last such package, since each match overwrites `updatedPackage` |
| PackageStore.LastUpdatedNoneIff | travel-ops-oups/src/stores/usePackageStore.ts:202-221 | there is no result exactly when no package has the id |
| PackageStore.LastUpdatedSomeIsLast | travel-ops-oups/src/stores/usePackageStore.ts:202-221 | a result is the update of a package with the id after which no package has it |
| PackageStore.UpdateIsIdempotent | travel-ops-oups/src/stores/usePackageStore.ts:202-221 | without an `opsProject` in the patch, updating twice equals updating once |
| PackageStore.ReorderKeepsProject | travel-ops-oups/src/stores/usePackageStore.ts:206-208 | reordering the flights keeps the project the patch leaves in place |
| PackageStore.StructureChangeRemergesStoredProject | travel-ops-oups/src/stores/usePackageStore.ts:206-214 | a structure change re-merges from the stored project: its id is kept and one group per new flight is made |
| PackageStore.UpdateMatching | travel-ops-oups/src/stores/usePackageStore.ts:204-216 | the map body computes the reference update of one package |
| PackageStore.UpdateAll | travel-ops-oups/src/stores/usePackageStore.ts:202-221 | the walk computes the reference list and the last updated package |
| PackageStore.EditGroups | travel-ops-oups/src/stores/usePackageStore.ts:297-311 | a group edit touches only groups with that id inside packages with that id |
| PackageStore.WithoutIndex | travel-ops-oups/src/stores/usePackageStore.ts:339 | filtering out an index removes exactly that element, or nothing when it is out of range |
| PackageStore.AtIndex | travel-ops-oups/src/stores/usePackageStore.ts:373 | mapping at an index changes only that element, or nothing when it is out of range |
| PackageStore.PatchesAreIdempotent | travel-ops-oups/src/stores/usePackageStore.ts:363-431 | spreading a cost or timeline patch twice equals spreading it once |
| PackageStore.BuiltProjectIsFresh | travel-ops-oups/src/stores/usePackageStore.ts:150-152 | a project built from nothing has one fresh pending group per flight and belongs to the package |
| PackageStore.BuiltProject | travel-ops-oups/src/stores/usePackageStore.ts:150-152 | a project built from nothing belongs to the package, takes the id after the groups', and holds the fresh group of each flight in order |
| PackageStore.FindPackage | travel-ops-oups/src/stores/usePackageStore.ts:227 | the first package with the id, and none exactly when no package has it |
| PackageStore.DuplicateIsDetachedDraft | travel-ops-oups/src/stores/usePackageStore.ts:226-262 | the copy is a draft with suffixed name and code, the same content, and a project of its own with fresh ids |
| Text.OrElse | travel-ops-oups/src/stores/usePackageStore.ts:155-175 | `x \|\| y` on strings keeps a non-empty string and gives the fallback for an empty one |
| PackageStore.NormalizeGroup | travel-ops-oups/src/stores/usePackageStore.ts:163-173 | an imported group keeps its data, takes `id \|\| generateId()` and `status \|\| "pending_validation"`, and gets `[]` for missing suppliers, costs and timeline |
| PackageStore.NormalizeImported | travel-ops-oups/src/stores/usePackageStore.ts:154-180 | the package keeps the raw status, general info, flights, pricing, commissions and itinerary, takes `id \|\| generateId()`, and owns a project: the imported one with its id defaulted and each group normalised in order, or one built from the flights with pending groups |
| PackageStore.Rehomed | travel-ops-oups/src/stores/usePackageStore.ts:272-281 | a package whose id is taken moves to a fresh id, its project following it; nothing else changes |
| PackageStore.PresentKeepsEntries | travel-ops-oups/src/stores/usePackageStore.ts:268-269 | `filter(Boolean)` keeps exactly the entries that are there, each as often as it occurs and in input order, and all of them when none is missing |
| PackageStore.PresentCounts | travel-ops-oups/src/stores/usePackageStore.ts:268-269 | each package is kept as often as it occurs among the entries |
| PackageStore.PresentInOrder | travel-ops-oups/src/stores/usePackageStore.ts:268-269 | the kept packages are a subsequence of the entries |
| PackageStore.PresentAll | travel-ops-oups/src/stores/usePackageStore.ts:268-269 | with no missing entry every entry is kept |
| PackageStore.ImportedPackages | travel-ops-oups/src/stores/usePackageStore.ts:264-288 | package k comes from the k-th entry present: it keeps that entry's content, has its defaulted id or, when that id is taken, slot 1 of its supply, and owns its project: the imported one with its id defaulted and its groups normalised, or one built with a pending group per flight |
| PackageStore.ImportOwnsProjectsAndAvoidsIds | travel-ops-oups/src/stores/usePackageStore.ts:270-282 | every imported package owns its project and takes no id already in the store |
| PackageStore.WithoutId | travel-ops-oups/src/stores/usePackageStore.ts:223-224 | the packages with another id remain, each as often as before and in order, and no other |
| PackageStore.Store.constructor | travel-ops-oups/src/stores/usePackageStore.ts:190 | the store starts from the given packages |
| PackageStore.Store.AddPackage | travel-ops-oups/src/stores/usePackageStore.ts:192-200 | the draft gets a fresh id and a project built for it, and goes first |
| PackageStore.Store.UpdatePackage | travel-ops-oups/src/stores/usePackageStore.ts:202-221 | the list becomes the reference update and the result the last updated package |
| PackageStore.Store.DeletePackage | travel-ops-oups/src/stores/usePackageStore.ts:223-224 | the packages with that id are removed |
| PackageStore.Store.DuplicatePackage | travel-ops-oups/src/stores/usePackageStore.ts:226-262 | nothing changes for an unknown id; otherwise the detached copy goes first |
| PackageStore.Store.ImportPackages | travel-ops-oups/src/stores/usePackageStore.ts:264-288 | a non-array adds nothing; otherwise the normalised packages replace or precede the list, and their number is returned |
| PackageStore.Store.SetPackageStatus | travel-ops-oups/src/stores/usePackageStore.ts:292-295 | only the status of the packages with that id changes |
| PackageStore.Store.UpdateOpsGroupStatus | travel-ops-oups/src/stores/usePackageStore.ts:297-311 | the group's status changes, with a validation date of now exactly when it is validated |
| PackageStore.Store.AddSupplier | travel-ops-oups/src/stores/usePackageStore.ts:313-327 | the supplier is appended to that group only |
| PackageStore.Store.RemoveSupplier | travel-ops-oups/src/stores/usePackageStore.ts:329-345 | the supplier at the index is removed from that group only |
| PackageStore.Store.AddCostStep | travel-ops-oups/src/stores/usePackageStore.ts:347-361 | the cost step is appended to that group only |
| PackageStore.Store.UpdateCostStep | travel-ops-oups/src/stores/usePackageStore.ts:363-379 | the cost step at the index is patched in that group only |
| PackageStore.Store.RemoveCostStep | travel-ops-oups/src/stores/usePackageStore.ts:381-395 | the cost step at the index is removed from that group only |
| PackageStore.Store.AddTimelineItem | travel-ops-oups/src/stores/usePackageStore.ts:397-411 | the timeline item is appended to that group only |
| PackageStore.Store.UpdateTimelineItem | travel-ops-oups/src/stores/usePackageStore.ts:413-431 | the timeline item at the index is patched in that group only |
| PackageStore.Store.RemoveTimelineItem | travel-ops-oups/src/stores/usePackageStore.ts:433-449 | the timeline item at the index is removed from that group only |
| PackageStore.Store.Reset | travel-ops-oups/src/stores/usePackageStore.ts:451 | the list becomes empty |
| Booking.TypesPartitionOccupants | travel-ops-oups/src/lib/booking.ts:26-28 | every occupant of a room is counted under exactly one type |
| Booking.PaxCountsCoverOccupants | travel-ops-oups/src/lib/booking.ts:23-33 | the three counts add up to the number of occupants over all rooms |
| Booking.ComputePaxCounts | travel-ops-oups/src/lib/booking.ts:23-33 | the nested loop yields the per-type counts, which add up to the occupants |
| Booking.FirstMentionIsFirstMatchingLine | travel-ops-oups/src/lib/booking.ts:42-51 | when line i is the first positive-priced line whose normalised `label subLabel` mentions a keyword, the first candidate found carries line i's price |
| Booking.NoMentionIffNoMatchingLine | travel-ops-oups/src/lib/booking.ts:42-51 | no candidate mentions a keyword exactly when no positive-priced line's normalised text does |
| Booking.FindUnitPriceIsFirstMatchingLine | travel-ops-oups/src/lib/booking.ts:42-52 | the unit price is the price of the first positive-priced line whose text mentions a keyword |
| Booking.FindUnitPriceWithoutMatchIsLeast | travel-ops-oups/src/lib/booking.ts:54-56 | with no such line, the unit price is the least positive price, and 0 exactly when no price is positive |
| Booking.UnitsOf | travel-ops-oups/src/lib/booking.ts:45 | the candidates' units, in order |
| Booking.PricesOf | travel-ops-oups/src/lib/booking.ts:45 | the price lines' unit prices, in order |
| Booking.CandidatesArePositivePrices | travel-ops-oups/src/lib/booking.ts:42-47 | the candidate units are exactly the positive unit prices |
| Booking.FirstMention | travel-ops-oups/src/lib/booking.ts:49-51 | the first candidate whose label contains a keyword, and none exactly when no label does |
| Booking.MinUnit | travel-ops-oups/src/lib/booking.ts:54 | the least candidate unit, which is one of them |
| Booking.FindUnitPriceChoice | travel-ops-oups/src/lib/booking.ts:41-56 | the price is that of the first keyword match, else the least positive price, else 0; it is 0 exactly when no price is positive |
| Booking.FindUnitPrice | travel-ops-oups/src/lib/booking.ts:41-56 | the unit price is 0 or one of the positive prices, and 0 exactly when no price is positive |
| Booking.ResolvePricing | travel-ops-oups/src/lib/booking.ts:58-64 | each unit is resolved with its own keyword list and is never negative |
| Booking.AdultCommission | travel-ops-oups/src/lib/booking.ts:70-73 | tier 1 up to 5 paying passengers, tier 2 up to 9, tier 3 beyond |
| Booking.InfantsOnlyAddTheirCommission | travel-ops-oups/src/lib/booking.ts:70-76 | infants never change the tier; adding infants adds exactly their flat commission |
| Booking.CommissionWithinTier | travel-ops-oups/src/lib/booking.ts:66-77 | within each tier the commission is linear in adults, children and infants |
| Booking.CommissionTotal | travel-ops-oups/src/lib/booking.ts:66-77 | adults pay the tier of adults plus children (up to 5, up to 9, beyond), children and infants their flat rates; never negative when the rates are not |
| Booking.ComputeTotals | travel-ops-oups/src/lib/booking.ts:79-97 | the totals use the counted passengers and resolved prices; the commission is reported but not added, and the total is not negative |
| Booking.PaymentStatus | travel-ops-oups/src/lib/booking.ts:99-110 | unpaid, partial, paid and overpaid each hold exactly on their range of amounts, with their French text |
| BookingUtils.ToDb | travel-ops-oups/src/lib/bookingUtils.ts:1-5 | the stored type is one of the two database values, confirmed exactly for either confirmed spelling |
| BookingUtils.ToUi | travel-ops-oups/src/lib/bookingUtils.ts:7-11 | the two database values map to their labels, and anything else passes through |
| BookingUtils.UiRoundTrip | travel-ops-oups/src/lib/bookingUtils.ts:1-11 | an interface label survives storing and reading back |
| BookingUtils.DbRoundTrip | travel-ops-oups/src/lib/bookingUtils.ts:1-11 | a database value survives reading and storing back |
| BookingUtils.ToDbIdempotent | travel-ops-oups/src/lib/bookingUtils.ts:1-5 | storing a stored value changes nothing |
| OpsAlerts.IsOverdue | travel-ops-oups/src/lib/ops.ts:11-16 | overdue exactly for a non-empty date that parses to an instant before now |
| OpsAlerts.PaymentStepStatus | travel-ops-oups/src/lib/ops.ts:18-22 | paid wins; otherwise overdue exactly when the due date is overdue, and due else |
| OpsAlerts.SupplierDeadlineStatus | travel-ops-oups/src/lib/ops.ts:24-27 | no deadline is ok; overdue exactly when the deadline is overdue |
| OpsAlerts.OverdueCosts | travel-ops-oups/src/lib/ops.ts:30 | the overdue cost steps are kept, each as often as it occurs and in order, and no other; their number is the number of overdue positions |
| OpsAlerts.OverdueSuppliers | travel-ops-oups/src/lib/ops.ts:31 | the overdue suppliers are kept, each as often as it occurs and in order, and no other; their number is the number of overdue positions |
| OpsAlerts.GroupAlerts | travel-ops-oups/src/lib/ops.ts:29-33 | the alert counts are the numbers of positions whose cost step, and whose supplier, is overdue, duplicates included |
| OpsAlerts.SettledGroupHasNoAlerts | travel-ops-oups/src/lib/ops.ts:18-33 | with every cost paid there is no cost alert, and with no deadline no supplier alert, whatever the clock |
| Factory.MissingFieldsExactly | travel-ops-oups/src/lib/factory.ts:23-29 | the missing list holds exactly the required fields that are missing, and no more entries than there are required fields |
| Factory.Issues | travel-ops-oups/src/lib/factory.ts:27 | one `is required` message per missing field, in order |
| Factory.CheckBriefReadiness | travel-ops-oups/src/lib/factory.ts:18-31 | a missing brief gets the single missing-brief issue; otherwise one issue per missing field; ready exactly when there is no issue |
| Factory.ReadyIffNothingMissing | travel-ops-oups/src/lib/factory.ts:23-30 | a brief has no issues exactly when none of the nine fields is missing |
| Factory.OnlyRequiredFieldsMatter | travel-ops-oups/src/lib/factory.ts:23-29 | briefs that agree on the required fields get the same issues |
| Factory.EmptyBriefLacksEverything | travel-ops-oups/src/lib/factory.ts:6-29 | an empty brief lacks every required field, in order |
| BookingStore.BookingPatchIdempotent | travel-ops-oups/src/stores/useBookingStore.ts:39-49 | spreading the same booking patch twice equals spreading it once |
| BookingStore.ApplyBookingPatch | travel-ops-oups/src/stores/useBookingStore.ts:44 | `{...existing, ...updater}` field by field: the patch's value where given, the booking's otherwise |
| BookingStore.UpdatedBookings | travel-ops-oups/src/stores/useBookingStore.ts:39-49 | exactly the bookings with that id are patched, and the length is kept |
| BookingStore.LastPatchedIsLastMatch | travel-ops-oups/src/stores/useBookingStore.ts:39-49 | the result exists exactly when some booking has the id, and is the patch of the last booking with it |
| BookingStore.WithoutBooking | travel-ops-oups/src/stores/useBookingStore.ts:50-51 | the bookings with another id remain, each as often as before and in order, and no other; all of them when none has the id |
| BookingStore.Store.constructor | travel-ops-oups/src/stores/useBookingStore.ts:27-28 | the store starts from the given bookings at the current schema version |
| BookingStore.Store.AddBooking | travel-ops-oups/src/stores/useBookingStore.ts:29-38 | the booking, with its new id and creation time, goes first |
| BookingStore.Store.UpdateBooking | travel-ops-oups/src/stores/useBookingStore.ts:39-49 | the list is patched and the returned booking is the last one patched |
| BookingStore.Store.DeleteBooking | travel-ops-oups/src/stores/useBookingStore.ts:50-51 | the bookings with that id are removed |
| BookingStore.Store.Reset | travel-ops-oups/src/stores/useBookingStore.ts:52 | no bookings, at the current schema version |
| UserStore.ApplyUserPatch | travel-ops-oups/src/stores/useUserStore.ts:67-77 | the id is always kept; username, password, role and full name take the patch's value where given and keep the user's otherwise; an empty patch changes nothing |
| UserStore.FindByCredentials | travel-ops-oups/src/stores/useUserStore.ts:52-54 | the first user with both credentials, and none exactly when no user has them |
| UserStore.FindById | travel-ops-oups/src/stores/useUserStore.ts:67-68 | the first user with the id, and none exactly when no user has it |
| UserStore.ReplaceById | travel-ops-oups/src/stores/useUserStore.ts:70-72 | exactly the users with the id are replaced, and the length is kept |
| UserStore.WithoutUser | travel-ops-oups/src/stores/useUserStore.ts:81 | the users with another id remain, each as often as before and in order, and no other |
| UserStore.MissingMockUsers | travel-ops-oups/src/stores/useUserStore.ts:93-96 | the mock users whose usernames are untaken, each as often as it occurs and in the mocks' own order, and no other |
| UserStore.NothingMissingWhenAllTaken | travel-ops-oups/src/stores/useUserStore.ts:93-97 | when every mock username is taken, seeding adds nothing |
| UserStore.SeedingTakesEveryMock | travel-ops-oups/src/stores/useUserStore.ts:92-99 | after seeding, every mock username is taken |
| UserStore.SeedingIsIdempotent | travel-ops-oups/src/stores/useUserStore.ts:92-99 | after seeding once, a second seeding adds nothing, for any list of mocks |
| UserStore.WithAdmin | travel-ops-oups/src/stores/useUserStore.ts:100-107 | the administrator's username is present afterwards; the list is unchanged when it was, and it is appended otherwise |
| UserStore.EnsureAdminIsIdempotent | travel-ops-oups/src/stores/useUserStore.ts:100-107 | ensuring the administrator twice equals ensuring it once |
| UserStore.Store.constructor | travel-ops-oups/src/stores/useUserStore.ts:48-50 | the seeded users and nobody signed in |
| UserStore.Store.Login | travel-ops-oups/src/stores/useUserStore.ts:51-60 | success exactly for matching credentials, signing that user in; otherwise the error message and no change |
| UserStore.Store.Logout | travel-ops-oups/src/stores/useUserStore.ts:61 | nobody signed in, users unchanged |
| UserStore.Store.Register | travel-ops-oups/src/stores/useUserStore.ts:62-66 | the draft with its new id is appended |
| UserStore.Store.UpdateUser | travel-ops-oups/src/stores/useUserStore.ts:67-77 | an unknown id changes nothing; otherwise the patched user replaces it and the current user follows |
| UserStore.Store.DeleteUser | travel-ops-oups/src/stores/useUserStore.ts:78-86 | refused exactly for the administrator; otherwise the user is removed and signed out if current |
| UserStore.Store.ResetPassword | travel-ops-oups/src/stores/useUserStore.ts:87-91 | a blank password or an unknown id changes nothing; otherwise the first user with the id gets the password, every user with the id is replaced by it, and so is the signed-in user when it has the id |
| UserStore.Store.SeedDemoUsers | travel-ops-oups/src/stores/useUserStore.ts:92-99 | the missing mock users are appended |
| UserStore.Store.EnsureAdmin | travel-ops-oups/src/stores/useUserStore.ts:100-107 | the administrator is added when absent |
| UiStore.Toggled | travel-ops-oups/src/stores/useUiStore.ts:25-28 | toggling always changes the theme, to light exactly from dark |
| UiStore.ToggleTwiceRestores | travel-ops-oups/src/stores/useUiStore.ts:25-28 | toggling twice restores the theme |
| UiStore.Store.constructor | travel-ops-oups/src/stores/useUiStore.ts:22-23 | the light theme at the current schema version |
| UiStore.Store.SetTheme | travel-ops-oups/src/stores/useUiStore.ts:24 | the theme becomes the one given |
| UiStore.Store.ToggleTheme | travel-ops-oups/src/stores/useUiStore.ts:25-28 | the theme becomes the other one |
| PackageEditor.CollectFlightIssues | travel-ops-oups/src/components/PackageEditor.tsx:961-965 | the loop yields the reference per-flight issues |
| PackageEditor.CollectPriceIssues | travel-ops-oups/src/components/PackageEditor.tsx:968-971 | the loop yields the reference per-line pricing issues |
| PackageEditor.CollectDayIssues | travel-ops-oups/src/components/PackageEditor.tsx:974-978 | the loop yields the reference per-day itinerary issues |
| PackageEditor.ValidatePackage | travel-ops-oups/src/components/PackageEditor.tsx:949-981 | the method yields the reference issue list, section by section |
| Seqs.EmptyIsSubsequence | travel-ops-oups/src/components/PackageEditor.tsx:949-981 | the empty list is a subsequence of any list |
| Seqs.SubsequenceReflexive | travel-ops-oups/src/components/PackageEditor.tsx:949-981 | a list is a subsequence of itself |
| Seqs.SubsequenceConcat | travel-ops-oups/src/components/PackageEditor.tsx:949-981 | subsequences concatenate |
| Seqs.FilterKeeps | travel-ops-oups/src/stores/useBookingStore.ts:50-51 | `filter` keeps the elements that pass, each as often as it occurs and in order, and nothing else |
| Seqs.FilterInOrder | travel-ops-oups/src/stores/useBookingStore.ts:50-51 | the filtered list is a subsequence of the input |
| Seqs.FilterCounts | travel-ops-oups/src/stores/useBookingStore.ts:50-51 | an element that passes keeps its multiplicity, one that fails has none |
| Seqs.FilterShorter | travel-ops-oups/src/stores/useBookingStore.ts:50-51 | the filtered list is no longer than the input |
| Seqs.FilterCount | travel-ops-oups/src/lib/ops.ts:30-31 | the filtered length is the number of positions whose element passes |
| Seqs.FilterAll | travel-ops-oups/src/stores/useBookingStore.ts:50-51 | when every element passes, the filter keeps the whole list |
| Seqs.FilterNone | travel-ops-oups/src/stores/useUserStore.ts:93-96 | when no element passes, the filter is empty |
| PackageEditor.PricesSaveWithinPublish | travel-ops-oups/src/components/PackageEditor.tsx:968-971 | the save-time pricing issues appear, in order, among the publish-time ones |
| PackageEditor.SaveIssuesWithinPublishIssues | travel-ops-oups/src/components/PackageEditor.tsx:949-981 | every issue a save reports is also reported, in the same order, when publishing |
| PackageEditor.PublishableIsSavable | travel-ops-oups/src/components/PackageEditor.tsx:949-981 | a package valid for publishing is valid for saving |
| PackageEditor.IssuesIgnoreStatus | travel-ops-oups/src/components/PackageEditor.tsx:949-981 | validation does not depend on the status |
| PackageEditor.RemoveDay | travel-ops-oups/src/components/PackageEditor.tsx:806-816 | the days are never empty and are numbered from 1; the other days keep their descriptions in order; an emptied itinerary gets one blank day 1 |
| PackageEditor.Editor.constructor | travel-ops-oups/src/components/PackageEditor.tsx:72-84 | the form is the base package with a blank product code, responsible and creation date filled from the generated code, the default name and today, and shows no errors |
| PackageEditor.Editor.SetStatus | travel-ops-oups/src/components/PackageEditor.tsx:95-103 | publishing with issues shows them and keeps the form; any other change sets the status and clears the errors |
| PackageEditor.Editor.Save | travel-ops-oups/src/components/PackageEditor.tsx:105-113 | validates strictly exactly when the final status is published, and hands back the package with that status exactly when there is no issue |
| PackageEditor.AllMeansEvery | travel-ops-oups/src/components/PackageEditor.tsx:961-978 | the back-to-front check holds exactly when every element passes |
| PackageEditor.FlightLineEmptyIff | travel-ops-oups/src/components/PackageEditor.tsx:962-964 | a flight line has no issue exactly when its airline is non-blank and both dates are set |
| PackageEditor.PriceLineEmptyIff | travel-ops-oups/src/components/PackageEditor.tsx:969-970 | a price line has no issue exactly when its label is non-blank and, when publishing, its price is positive |
| PackageEditor.DayLineEmptyIff | travel-ops-oups/src/components/PackageEditor.tsx:976 | a day has no issue exactly when its description is non-blank |
| PackageEditor.FlightsIssuesEmptyIff | travel-ops-oups/src/components/PackageEditor.tsx:961-965 | the flights report nothing exactly when every flight is complete |
| PackageEditor.PricesIssuesEmptyIff | travel-ops-oups/src/components/PackageEditor.tsx:968-971 | the price lines report nothing exactly when every line is complete |
| PackageEditor.DaysIssuesEmptyIff | travel-ops-oups/src/components/PackageEditor.tsx:974-978 | the days report nothing exactly when every day is described |
| PackageEditor.GeneralIssuesEmptyIff | travel-ops-oups/src/components/PackageEditor.tsx:953-958 | the general section reports nothing exactly when its six field rules hold |
| PackageEditor.NoIssuesIffAcceptable | travel-ops-oups/src/components/PackageEditor.tsx:949-981 | the form reports no issue exactly when the package meets every field rule of the intent |
| Navigation.ActiveOnItself | travel-ops-oups/src/components/navigation.ts:58-59 | a route is active for itself |
| Navigation.RootOnlyForRoot | travel-ops-oups/src/components/navigation.ts:58-59 | the root href is active for the root pathname only |
| Navigation.ActiveIffPrefix | travel-ops-oups/src/components/navigation.ts:58-59 | a non-root href is active exactly for the pathnames it is a prefix of |
| Navigation.IsActive | travel-ops-oups/src/components/navigation.ts:58-59 | the root href is active only for the root; any other href exactly for the pathnames it is a prefix of |
| Navigation.ExtensionIsActive | travel-ops-oups/src/components/navigation.ts:58-59 | any extension of a non-root href is active |
| Navigation.NotSegmentAware | travel-ops-oups/src/components/navigation.ts:58-59 | `/packagesX` is active for `/packages` |
| Navigation.ListedFor | travel-ops-oups/src/components/Sidebar.tsx:18 | the filter never adds items |
| Navigation.ListedForMembership | travel-ops-oups/src/components/Sidebar.tsx:18 | the filter keeps exactly the items listing the role |
| Navigation.ListedForKeepsOrder | travel-ops-oups/src/components/Sidebar.tsx:18 | the filter keeps the table order |
| Navigation.NoRoleNoItems | travel-ops-oups/src/components/Sidebar.tsx:18 | no role, no items |
| Navigation.VisibleIffRoleListed | travel-ops-oups/src/components/Sidebar.tsx:18 | a table item is shown exactly when its roles include the user's |
| Navigation.UsersOnlyForAdministrator | travel-ops-oups/src/components/navigation.ts:50-55 | `Users` is shown to administrators only |
| Navigation.PackagesOnlyForDesigners | travel-ops-oups/src/components/navigation.ts:26-31 | `Packages` is shown to administrators and travel designers only |
| Navigation.SharedItemsForEveryRole | travel-ops-oups/src/components/navigation.ts:19-56 | every role sees the dashboard, the trips and ops |
| PdfRows.MergeRows | travel-ops-oups/src/components/PackagePdfButtons.tsx:403-410 | as many rows as the longer list, two cells each, each cell the list's element or the placeholder |

## Left out

- Rendering, routing, persistence and networking are left out. This covers React components, the zustand `persist` middleware and its storage, the API routes and database access, and `router.replace` and the store calls made after a save.
- Identifier uniqueness is not modelled. `generateId` and UUIDs are an identifier supply parameter `newId`, and uniqueness is stated only where a lemma needs it, as a precondition.
- Dates, clocks and label normalisation are parameters. `new Date()` becomes a parameter `now`. Date parsing is a function parameter, so Date arithmetic and time zones are left out. The `toLowerCase().normalize("NFD")` label normalisation is also a parameter, because Unicode case folding and decomposition are impractical to model over `seq<char>`. As a result the model cannot prove which keywords a real label matches: for example, that the accented infant keyword `"bébé"` can never match a label whose diacritics were stripped, so only `"bebe"` and the others can.
- `daysUntil`, `formatMoney`, `exportPackages` and the editor's `saving` flag are left out: presentation and I/O helpers that no modelled property reads.
- JsonValues.Chars: a string spreads one index key per Dafny `char`, a Unicode scalar value, while JavaScript spreads it by UTF-16 code unit, so a character outside the Basic Multilingual Plane gives one key here and two in JavaScript. No modelled operation depends on the difference.
- The JSON model reads only own properties. Property reads on arrays, strings and numbers ignore JavaScript's prototype properties, since none of the property names the migrations read is one of them.
- The migration model leaves out the JavaScript exception value. A thrown TypeError is the single `Failure(TypeError)` result, with no message or stack.
- Numbers are integers. Prices, amounts and commissions are `int`, so floating-point rounding and `NaN` from malformed input are not modelled. The editor's `Number(p.unitPrice) \|\| 0` is the integer price itself.
- The theme is an enumeration of light and dark. Arbitrary stored strings are not represented.
- An import input that is not an array is `None`. The shape checks of the individual imported fields are not modelled beyond the optional fields of a raw package and group.
- The `?? undefined` that `addBooking` applies to optional fields is the identity, and the model writes it as such.
- Fields that no modelled operation reads are not represented. These are a package's accommodations, content and the uploads attached to it.
- Concurrent updates to the stores are not modelled. Each action runs to completion against the state it reads.
- Editor.constructor: the `emptyPackage()` literal a new form starts from is not modelled; the form starts from a parameter `base`. `generateProductCode()`, `todayISO()` and `DEFAULT_RESPONSIBLE_NAME` are parameters, because lib/packageDefaults.ts is not part of this model.
- The key index of the merge is a Dafny `map`, so the insertion order of the JavaScript object is not captured; no result depends on it.
