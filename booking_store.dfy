/** The bookings list; the persisted schema version is reset with it. */
module BookingStore {
  import opened Wrappers
  import opened Types
  import opened Seqs
  import Migrations

  /** A `Partial<Booking>` spread over a booking. */
  datatype BookingPatch = BookingPatch(
    id: Option<string>,
    packageId: Option<string>,
    bookingType: Option<BookingType>,
    reservedUntil: Option<Option<string>>,
    rooms: Option<seq<BookingRoom>>,
    paxTotal: Option<int>,
    payment: Option<BookingPayment>,
    createdAt: Option<string>,
    departureGroupId: Option<Option<string>>)

  function ApplyBookingPatch(b: Booking, patch: BookingPatch): (r: Booking)
    ensures r.id == patch.id.GetOr(b.id) && r.packageId == patch.packageId.GetOr(b.packageId)
    ensures r.bookingType == patch.bookingType.GetOr(b.bookingType) && r.reservedUntil == patch.reservedUntil.GetOr(b.reservedUntil)
    ensures r.rooms == patch.rooms.GetOr(b.rooms) && r.paxTotal == patch.paxTotal.GetOr(b.paxTotal)
    ensures r.payment == patch.payment.GetOr(b.payment) && r.createdAt == patch.createdAt.GetOr(b.createdAt)
    ensures r.departureGroupId == patch.departureGroupId.GetOr(b.departureGroupId)
  {
    Booking(patch.id.GetOr(b.id), patch.packageId.GetOr(b.packageId), patch.bookingType.GetOr(b.bookingType),
      patch.reservedUntil.GetOr(b.reservedUntil), patch.rooms.GetOr(b.rooms), patch.paxTotal.GetOr(b.paxTotal),
      patch.payment.GetOr(b.payment), patch.createdAt.GetOr(b.createdAt), patch.departureGroupId.GetOr(b.departureGroupId))
  }

  /** Spreading the same patch twice is spreading it once. */
  lemma BookingPatchIdempotent(b: Booking, patch: BookingPatch)
    ensures ApplyBookingPatch(ApplyBookingPatch(b, patch), patch) == ApplyBookingPatch(b, patch)
  {
  }

  function UpdatedBookings(bookings: seq<Booking>, id: string, patch: BookingPatch): (r: seq<Booking>)
    ensures |r| == |bookings|
    ensures forall i :: 0 <= i < |bookings| ==> r[i] == if bookings[i].id == id then ApplyBookingPatch(bookings[i], patch) else bookings[i]
  {
    seq(|bookings|, i requires 0 <= i < |bookings| => if bookings[i].id == id then ApplyBookingPatch(bookings[i], patch) else bookings[i])
  }

  /** The value `updateBooking` returns: the patched last booking with that id, or null. */
  function LastPatched(bookings: seq<Booking>, id: string, patch: BookingPatch): Option<Booking>
    decreases |bookings|
  {
    if bookings == [] then None
    else
      var last := bookings[|bookings| - 1];
      if last.id == id then Some(ApplyBookingPatch(last, patch))
      else LastPatched(bookings[..|bookings| - 1], id, patch)
  }

  /** There is a result exactly when some booking has the id, and it is the patch of the last of them. */
  lemma {:induction false} LastPatchedIsLastMatch(bookings: seq<Booking>, id: string, patch: BookingPatch)
    ensures var r := LastPatched(bookings, id, patch);
      && (r.None? <==> forall i :: 0 <= i < |bookings| ==> bookings[i].id != id)
      && (r.Some? ==> exists i :: 0 <= i < |bookings| && bookings[i].id == id && r.value == ApplyBookingPatch(bookings[i], patch)
                        && forall j :: i < j < |bookings| ==> bookings[j].id != id)
    decreases |bookings|
  {
    if bookings != [] {
      var n := |bookings| - 1;
      var prefix := bookings[..n];
      assert forall j :: 0 <= j < n ==> bookings[j] == prefix[j];
      if bookings[n].id == id {
        assert LastPatched(bookings, id, patch) == Some(ApplyBookingPatch(bookings[n], patch));
      } else {
        assert LastPatched(bookings, id, patch) == LastPatched(prefix, id, patch);
        LastPatchedIsLastMatch(prefix, id, patch);
        var r := LastPatched(prefix, id, patch);
        if r.Some? {
          var i :| 0 <= i < n && prefix[i].id == id && r.value == ApplyBookingPatch(prefix[i], patch)
                   && forall j :: i < j < n ==> prefix[j].id != id;
          assert bookings[i].id == id && r.value == ApplyBookingPatch(bookings[i], patch);
          assert forall j :: i < j < |bookings| ==> bookings[j].id != id;
        } else {
          assert forall i :: 0 <= i < |bookings| ==> bookings[i].id != id;
        }
      }
    }
  }

  lemma LastPatchedSnoc(bookings: seq<Booking>, id: string, patch: BookingPatch, i: nat)
    requires i < |bookings|
    ensures LastPatched(bookings[..i + 1], id, patch)
         == if bookings[i].id == id then Some(ApplyBookingPatch(bookings[i], patch)) else LastPatched(bookings[..i], id, patch)
  {
    assert bookings[..i + 1][..i] == bookings[..i];
  }

  /** `bookings.filter((booking) => booking.id !== id)`: the other bookings, each as often as before, in order. */
  function WithoutBooking(bookings: seq<Booking>, id: string): (r: seq<Booking>)
    ensures Subsequence(r, bookings)
    ensures forall b :: multiset(r)[b] == if b.id != id then multiset(bookings)[b] else 0
    ensures forall b :: b in r <==> b in bookings && b.id != id
    ensures |r| <= |bookings|
    ensures (forall i :: 0 <= i < |bookings| ==> bookings[i].id != id) ==> r == bookings
  {
    var keep := (b: Booking) => b.id != id;
    FilterKeeps(bookings, keep);
    if forall i :: 0 <= i < |bookings| ==> bookings[i].id != id then
      FilterAll(bookings, keep);
      Filter(bookings, keep)
    else
      Filter(bookings, keep)
  }

  class Store {
    var bookings: seq<Booking>
    var schemaVersion: int

    constructor (initial: seq<Booking>)
      ensures bookings == initial && schemaVersion == Migrations.CURRENT_SCHEMA_VERSION
    {
      bookings := initial;
      schemaVersion := Migrations.CURRENT_SCHEMA_VERSION;
    }

    /** `addBooking`: the new booking goes first, with its own id and creation time. */
    method AddBooking(draft: Booking, id: string, now: string) returns (created: Booking)
      modifies this
      ensures created == draft.(id := id, createdAt := now)
      ensures bookings == [created] + old(bookings) && schemaVersion == old(schemaVersion)
      ensures |bookings| == |old(bookings)| + 1
    {
      created := draft.(id := id, createdAt := now);
      bookings := [created] + bookings;
    }

    /** `updateBooking`: the result is the last booking the map patched. */
    method UpdateBooking(id: string, patch: BookingPatch) returns (result: Option<Booking>)
      modifies this
      ensures bookings == UpdatedBookings(old(bookings), id, patch) && schemaVersion == old(schemaVersion)
      ensures result == LastPatched(old(bookings), id, patch)
    {
      var all := bookings;
      var next: seq<Booking> := [];
      result := None;
      var i := 0;
      while i < |all|
        invariant 0 <= i <= |all|
        invariant |next| == i
        invariant forall j :: 0 <= j < i ==> next[j] == if all[j].id == id then ApplyBookingPatch(all[j], patch) else all[j]
        invariant result == LastPatched(all[..i], id, patch)
        invariant bookings == all && schemaVersion == old(schemaVersion)
      {
        var existing := all[i];
        LastPatchedSnoc(all, id, patch, i);
        if existing.id == id {
          var patched := ApplyBookingPatch(existing, patch);
          result := Some(patched);
          next := next + [patched];
        } else {
          next := next + [existing];
        }
        i := i + 1;
      }
      assert all[..i] == all;
      assert next == UpdatedBookings(all, id, patch);
      bookings := next;
    }

    method DeleteBooking(id: string)
      modifies this
      ensures bookings == WithoutBooking(old(bookings), id) && schemaVersion == old(schemaVersion)
    {
      bookings := WithoutBooking(bookings, id);
    }

    method Reset()
      modifies this
      ensures bookings == [] && schemaVersion == Migrations.CURRENT_SCHEMA_VERSION
    {
      bookings := [];
      schemaVersion := Migrations.CURRENT_SCHEMA_VERSION;
    }
  }
}
