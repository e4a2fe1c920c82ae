/**
 * The booking lookup: the first stored booking, in insertion order, whose
 * reference equals the queried one.
 */
module Lookup {
  import opened Wrappers
  import opened Responses
  import opened Bookings

  /** Index of the first booking with the reference, if there is one. */
  function FindIndex(bookings: seq<Booking>, reference: string): (r: Option<nat>)
    ensures r.Some? ==>
      && r.value < |bookings|
      && bookings[r.value].reference == reference
      && forall j :: 0 <= j < r.value ==> bookings[j].reference != reference
    ensures r.None? <==> forall j :: 0 <= j < |bookings| ==> bookings[j].reference != reference
    decreases |bookings|
  {
    if bookings == [] then None
    else if bookings[0].reference == reference then Some(0)
    else
      match FindIndex(bookings[1..], reference)
      case None => None
      case Some(i) => Some(i + 1)
  }

  /** The booking with the reference, or `NotFound` when none has it. */
  function LookupBooking(bookings: seq<Booking>, reference: string): (r: Result<Booking, Error>)
    ensures r.Ok? ==> r.value in bookings && r.value.reference == reference
    ensures r.Ok? ==>
      exists i :: 0 <= i < |bookings| && bookings[i] == r.value
                  && forall j :: 0 <= j < i ==> bookings[j].reference != reference
    ensures r.Err? <==> forall b :: b in bookings ==> b.reference != reference
    ensures r.Err? ==> r.error == NotFound
  {
    match FindIndex(bookings, reference)
    case Some(i) => Ok(bookings[i])
    case None => Err(NotFound)
  }

  /**
   * Appending a booking never changes what an earlier booking answers; the new
   * booking is found by its reference only when no earlier booking has it.
   */
  lemma {:induction false} LookupAfterAppend(s: seq<Booking>, b: Booking, reference: string)
    ensures LookupBooking(s + [b], reference) ==
      if LookupBooking(s, reference).Ok? then LookupBooking(s, reference)
      else if b.reference == reference then Ok(b)
      else Err(NotFound)
    decreases |s|
  {
    if s == [] {
      assert [] + [b] == [b];
    } else {
      assert (s + [b])[1..] == s[1..] + [b];
      LookupAfterAppend(s[1..], b, reference);
    }
  }

  /** A booking with a reference no stored booking has is found by it once appended. */
  lemma FreshReferenceFound(s: seq<Booking>, b: Booking)
    requires forall x :: x in s ==> x.reference != b.reference
    ensures LookupBooking(s + [b], b.reference) == Ok(b)
  {
    LookupAfterAppend(s, b, b.reference);
  }
}
