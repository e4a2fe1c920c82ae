/**
 * The availability calculator: for a queried stay, the number of units of each
 * room type that no stored booking overlapping the stay occupies.
 */
module Availability {
  import opened Inventory
  import opened Bookings

  /**
   * A booking overlaps the query `[reqStart, reqEnd)` under the strict
   * half-open test, so ranges that only touch do not overlap.
   */
  predicate Overlaps(reqStart: int, reqEnd: int, b: Booking)
  {
    reqStart < b.checkOut && reqEnd > b.checkIn
  }

  /** The number of bookings of type `t` that overlap the query. */
  function BookedCount(t: string, reqStart: int, reqEnd: int, bookings: seq<Booking>): (n: nat)
    ensures n <= |bookings|
    decreases |bookings|
  {
    if bookings == [] then 0
    else
      var last := bookings[|bookings| - 1];
      BookedCount(t, reqStart, reqEnd, bookings[..|bookings| - 1])
      + (if last.roomType == t && Overlaps(reqStart, reqEnd, last) then 1 else 0)
  }

  function Max(a: int, b: int): (m: int)
  {
    if a < b then b else a
  }

  /** The units of type `t` left for the query, never below zero. */
  function Available(t: string, reqStart: int, reqEnd: int, bookings: seq<Booking>): (units: nat)
    requires t in RoomCounts
    ensures units <= RoomCounts[t]
    ensures units == 0 <==> BookedCount(t, reqStart, reqEnd, bookings) >= RoomCounts[t]
    ensures units > 0 ==> units + BookedCount(t, reqStart, reqEnd, bookings) == RoomCounts[t]
  {
    Max(0, RoomCounts[t] - BookedCount(t, reqStart, reqEnd, bookings))
  }

  /**
   * Counts the overlapping bookings per known room type, then fills in the
   * remaining units of each type in the order of the inventory table.
   */
  method ComputeAvailability(reqStart: int, reqEnd: int, bookings: seq<Booking>)
    returns (availability: map<string, int>)
    ensures availability.Keys == RoomCounts.Keys
    ensures forall t :: t in availability ==>
      0 <= availability[t] <= RoomCounts[t]
      && availability[t] == Available(t, reqStart, reqEnd, bookings)
  {
    var bookedCounts := map["rooms" := 0, "suites" := 0, "lux" := 0, "prestige" := 0];
    var i := 0;
    while i < |bookings|
      invariant 0 <= i <= |bookings|
      invariant bookedCounts.Keys == RoomCounts.Keys
      invariant forall t :: t in bookedCounts ==>
        bookedCounts[t] == BookedCount(t, reqStart, reqEnd, bookings[..i])
    {
      var b := bookings[i];
      assert bookings[..i + 1][..i] == bookings[..i];
      if reqStart < b.checkOut && reqEnd > b.checkIn {
        if b.roomType in bookedCounts {
          bookedCounts := bookedCounts[b.roomType := bookedCounts[b.roomType] + 1];
        }
      }
      i := i + 1;
    }
    assert bookings[..i] == bookings;

    InventoryShape();
    availability := map[];
    var k := 0;
    while k < |RoomTypes|
      invariant 0 <= k <= |RoomTypes|
      invariant availability.Keys == set j | 0 <= j < k :: RoomTypes[j]
      invariant forall t :: t in availability ==>
        t in RoomCounts && availability[t] == Available(t, reqStart, reqEnd, bookings)
    {
      var roomType := RoomTypes[k];
      var total: int := RoomCounts[roomType];
      availability := availability[roomType := Max(0, total - bookedCounts[roomType])];
      assert (set j | 0 <= j < k + 1 :: RoomTypes[j]) == (set j | 0 <= j < k :: RoomTypes[j]) + {roomType};
      k := k + 1;
    }
  }

  /** Appending a booking adds one to the count exactly when it matches. */
  lemma BookedCountAppend(t: string, reqStart: int, reqEnd: int, s: seq<Booking>, b: Booking)
    ensures BookedCount(t, reqStart, reqEnd, s + [b])
      == BookedCount(t, reqStart, reqEnd, s)
         + (if b.roomType == t && Overlaps(reqStart, reqEnd, b) then 1 else 0)
  {
    assert (s + [b])[..|s + [b]| - 1] == s;
  }

  /** The count over two stretches of bookings is the sum of their counts. */
  lemma {:induction false} BookedCountConcat(t: string, reqStart: int, reqEnd: int, s: seq<Booking>, u: seq<Booking>)
    ensures BookedCount(t, reqStart, reqEnd, s + u)
      == BookedCount(t, reqStart, reqEnd, s) + BookedCount(t, reqStart, reqEnd, u)
    decreases |u|
  {
    if u == [] {
      assert s + u == s;
    } else {
      var front, last := u[..|u| - 1], u[|u| - 1];
      assert u == front + [last];
      assert s + u == (s + front) + [last];
      BookedCountConcat(t, reqStart, reqEnd, s, front);
      BookedCountAppend(t, reqStart, reqEnd, s + front, last);
      BookedCountAppend(t, reqStart, reqEnd, front, last);
    }
  }

  /** The positions of the stored bookings of type `t` that overlap the query. */
  ghost function MatchingIndices(t: string, reqStart: int, reqEnd: int, bookings: seq<Booking>): set<int>
  {
    set i | 0 <= i < |bookings| && bookings[i].roomType == t && Overlaps(reqStart, reqEnd, bookings[i])
  }

  /** The count is the number of stored bookings of type `t` that overlap the query. */
  lemma {:induction false} BookedCountIsMatchCount(t: string, reqStart: int, reqEnd: int, bookings: seq<Booking>)
    ensures BookedCount(t, reqStart, reqEnd, bookings) == |MatchingIndices(t, reqStart, reqEnd, bookings)|
    decreases |bookings|
  {
    if bookings == [] {
      assert MatchingIndices(t, reqStart, reqEnd, bookings) == {};
    } else {
      var n := |bookings| - 1;
      var front, last := bookings[..n], bookings[n];
      BookedCountIsMatchCount(t, reqStart, reqEnd, front);
      var before := MatchingIndices(t, reqStart, reqEnd, front);
      if last.roomType == t && Overlaps(reqStart, reqEnd, last) {
        assert MatchingIndices(t, reqStart, reqEnd, bookings) == before + {n};
        assert n !in before;
      } else {
        assert MatchingIndices(t, reqStart, reqEnd, bookings) == before;
      }
    }
  }

  /**
   * While fewer bookings are stored than a type has units, that type always has
   * a unit left, whatever the query.
   */
  lemma FewerBookingsThanUnitsLeaveRoom(t: string, reqStart: int, reqEnd: int, bookings: seq<Booking>)
    requires t in RoomCounts && |bookings| < RoomCounts[t]
    ensures Available(t, reqStart, reqEnd, bookings) >= RoomCounts[t] - |bookings| > 0
  {
  }

  /** A booking that does not overlap the query leaves every availability as it was. */
  lemma NonOverlappingIgnored(t: string, reqStart: int, reqEnd: int, s: seq<Booking>, b: Booking)
    requires t in RoomCounts
    requires !Overlaps(reqStart, reqEnd, b)
    ensures Available(t, reqStart, reqEnd, s + [b]) == Available(t, reqStart, reqEnd, s)
  {
    BookedCountAppend(t, reqStart, reqEnd, s, b);
  }

  /**
   * A booking that only touches the query, ending when the query starts or
   * starting when it ends, does not reduce availability.
   */
  lemma AbuttingIgnored(t: string, reqStart: int, reqEnd: int, s: seq<Booking>, b: Booking)
    requires t in RoomCounts
    requires b.checkOut == reqStart || b.checkIn == reqEnd
    ensures !Overlaps(reqStart, reqEnd, b)
    ensures Available(t, reqStart, reqEnd, s + [b]) == Available(t, reqStart, reqEnd, s)
  {
    NonOverlappingIgnored(t, reqStart, reqEnd, s, b);
  }

  /** A booking whose room type is not in the inventory is never counted. */
  lemma UnknownRoomTypeIgnored(t: string, reqStart: int, reqEnd: int, s: seq<Booking>, b: Booking)
    requires t in RoomCounts
    requires b.roomType !in RoomCounts
    ensures Available(t, reqStart, reqEnd, s + [b]) == Available(t, reqStart, reqEnd, s)
  {
    BookedCountAppend(t, reqStart, reqEnd, s, b);
  }

  /**
   * An overlapping booking of type `t` takes one unit of `t`, if one is left,
   * and leaves the other types as they were.
   */
  lemma OverlappingTakesOneUnit(t: string, reqStart: int, reqEnd: int, s: seq<Booking>, b: Booking)
    requires t in RoomCounts
    requires Overlaps(reqStart, reqEnd, b)
    ensures b.roomType == t ==>
      Available(t, reqStart, reqEnd, s + [b]) == Max(0, Available(t, reqStart, reqEnd, s) - 1)
    ensures b.roomType != t ==>
      Available(t, reqStart, reqEnd, s + [b]) == Available(t, reqStart, reqEnd, s)
  {
    BookedCountAppend(t, reqStart, reqEnd, s, b);
  }

  /**
   * An accepted booking occupies its own stay: a query for exactly that stay
   * sees one unit fewer of its room type (if one was left).
   */
  lemma AcceptedBookingOccupiesItsStay(s: seq<Booking>, b: Booking)
    requires WellFormed(b)
    ensures b.roomType in RoomCounts
    ensures Available(b.roomType, b.checkIn, b.checkOut, s + [b])
      == Max(0, Available(b.roomType, b.checkIn, b.checkOut, s) - 1)
  {
    InventoryShape();
    OverlappingTakesOneUnit(b.roomType, b.checkIn, b.checkOut, s, b);
  }

  /** With one stored booking of "rooms" covering the query, 47 of 48 remain. */
  lemma ExampleOneOverlappingRoomsBooking(b: Booking, reqStart: int, reqEnd: int)
    requires b.roomType == "rooms"
    requires b.checkIn <= reqStart && reqEnd <= b.checkOut && reqStart < reqEnd
    ensures Available("rooms", reqStart, reqEnd, [b]) == 47
  {
    BookedCountAppend("rooms", reqStart, reqEnd, [], b);
    assert [] + [b] == [b];
  }
}
