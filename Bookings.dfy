/**
 * The booking validator and pricer: a booking request is checked in a fixed
 * order (required fields, room type, date order) and, once accepted, becomes
 * a stored booking record with its number of nights and total price.
 */
module Bookings {
  import opened Wrappers
  import opened Inventory
  import opened Responses
  import opened Fields

  /** Milliseconds in one day. */
  const DayMs: int := 1000 * 60 * 60 * 24

  /**
   * A booking request as the handler receives it. `None` is an absent field;
   * each date is the already parsed timestamp (milliseconds) of its string.
   */
  datatype BookingRequest = BookingRequest(
    roomType: Option<string>,
    checkIn: Option<int>,
    checkOut: Option<int>,
    guests: Option<string>,
    name: Option<string>,
    email: Option<string>,
    phone: Option<string>,
    specialRequests: Option<string>)

  /** A stored booking record. */
  datatype Booking = Booking(
    reference: string,
    roomType: string,
    checkIn: int,
    checkOut: int,
    guests: Option<string>,
    name: string,
    email: string,
    phone: Option<string>,
    specialRequests: Option<string>,
    nights: int,
    totalPrice: int,
    bookedAt: string)

  /** The five fields a booking cannot do without. */
  predicate HasRequiredFields(req: BookingRequest)
  {
    Present(req.roomType) && req.checkIn.Some? && req.checkOut.Some?
    && Present(req.name) && Present(req.email)
  }

  /** Integer ceiling of `n / d`: the least `q` with `n <= q * d`. */
  function CeilDiv(n: int, d: int): (q: int)
    requires d > 0
    ensures (q - 1) * d < n <= q * d
  {
    var q := (n + d - 1) / d;
    var rem := (n + d - 1) % d;
    assert n + d - 1 == q * d + rem && 0 <= rem < d;
    assert (q - 1) * d == q * d - d;
    q
  }

  /** The number of nights charged for a stay from `start` to `end`. */
  function Nights(start: int, end: int): (n: int)
    requires start < end
    ensures n >= 1
    ensures (n - 1) * DayMs < end - start <= n * DayMs
  {
    var n := CeilDiv(end - start, DayMs);
    assert n * DayMs > 0;
    n
  }

  /**
   * The stored-booking invariant: a known room type, a stay that ends after it
   * starts, and the nights and price derived from them.
   */
  predicate WellFormed(b: Booking)
  {
    && IsRoomType(b.roomType)
    && b.checkIn < b.checkOut
    && b.nights == Nights(b.checkIn, b.checkOut)
    && b.totalPrice == b.nights * RoomPrices[b.roomType]
  }

  /**
   * Validates a booking request and prices it. The reference and the booking
   * time are supplied by the caller.
   */
  function ValidateBooking(req: BookingRequest, reference: string, bookedAt: string)
    : (r: Result<Booking, Error>)
    // the three rejections, in their order
    ensures r == Err(MissingFields) <==> !HasRequiredFields(req)
    ensures r == Err(InvalidRoomType) <==>
      HasRequiredFields(req) && !IsRoomType(req.roomType.value)
    ensures r == Err(CheckOutNotAfterCheckIn) <==>
      HasRequiredFields(req) && IsRoomType(req.roomType.value)
      && req.checkIn.value >= req.checkOut.value
    ensures r.Err? ==> r.error in {MissingFields, InvalidRoomType, CheckOutNotAfterCheckIn}
    // acceptance
    ensures r.Ok? <==>
      HasRequiredFields(req) && IsRoomType(req.roomType.value)
      && req.checkIn.value < req.checkOut.value
    ensures r.Ok? ==>
      var b := r.value;
      && WellFormed(b)
      && b.nights >= 1
      && (b.nights - 1) * DayMs < b.checkOut - b.checkIn <= b.nights * DayMs
      && b.reference == reference && b.bookedAt == bookedAt
      && Some(b.roomType) == req.roomType
      && Some(b.checkIn) == req.checkIn && Some(b.checkOut) == req.checkOut
      && Some(b.name) == req.name && Some(b.email) == req.email
      && b.guests == req.guests && b.phone == req.phone
      && b.specialRequests == req.specialRequests
  {
    if !HasRequiredFields(req) then
      Err(MissingFields)
    else if !IsRoomType(req.roomType.value) then
      Err(InvalidRoomType)
    else
      var start, end := req.checkIn.value, req.checkOut.value;
      if start >= end then
        Err(CheckOutNotAfterCheckIn)
      else
        var nights := Nights(start, end);
        var totalPrice := nights * RoomPrices[req.roomType.value];
        Ok(Booking(reference, req.roomType.value, start, end, req.guests,
                   req.name.value, req.email.value, req.phone, req.specialRequests,
                   nights, totalPrice, bookedAt))
  }

  /** The stay of this example: 2024-06-01 to 2024-06-04 (UTC midnights). */
  const June1: int := 1717200000000
  const June4: int := 1717459200000

  /** A three-day stay in a suite is three nights at 210, that is 630. */
  lemma ExampleSuitesThreeNights(reference: string, bookedAt: string)
    ensures
      var req := BookingRequest(Some("suites"), Some(June1), Some(June4), None,
                                Some("Ana"), Some("ana@example.com"), None, None);
      var r := ValidateBooking(req, reference, bookedAt);
      r.Ok? && r.value.nights == 3 && r.value.totalPrice == 630
  {
    var n := Nights(June1, June4);
    assert June4 - June1 == 3 * DayMs;
    assert (n - 1) * DayMs < 3 * DayMs <= n * DayMs;
    assert n == 3;
  }

  /**
   * Names every plain JavaScript object inherits from `Object.prototype`;
   * looking one of them up in the price table yields a truthy value.
   */
  const InheritedNames: set<string> := {
    "constructor", "hasOwnProperty", "isPrototypeOf", "propertyIsEnumerable",
    "toLocaleString", "toString", "valueOf", "__proto__",
    "__defineGetter__", "__defineSetter__", "__lookupGetter__", "__lookupSetter__"}

  /**
   * The room-type guard as written: the request passes when looking the name
   * up in the price table gives a truthy value, which an inherited member does.
   */
  predicate RoomTypeGuardAsWritten(t: string)
  {
    (t in RoomPrices && RoomPrices[t] != 0) || t in InheritedNames
  }

  /** The guard as written admits "constructor", which is not a room type. */
  lemma AsWrittenGuardAdmitsInheritedName()
    ensures RoomTypeGuardAsWritten("constructor") && !IsRoomType("constructor")
  {
  }

  /**
   * Away from the inherited names the guard as written and `IsRoomType` agree,
   * so the two differ exactly on those names.
   */
  lemma GuardsAgreeOnOwnNames(t: string)
    ensures t !in InheritedNames ==> (RoomTypeGuardAsWritten(t) <==> IsRoomType(t))
    ensures t in InheritedNames ==> RoomTypeGuardAsWritten(t) && !IsRoomType(t)
  {
    InventoryShape();
  }
}
