/**
 * The record store and the request handlers that use it. Each collection
 * (bookings, contacts, subscribers) is one JSON file holding the whole
 * sequence; a handler reads the file in full, appends and writes it back.
 */
module RecordStore {
  import opened Wrappers
  import opened Inventory
  import opened Responses
  import opened Fields
  import opened Bookings
  import opened Availability
  import opened Lookup
  import opened Contacts
  import opened Newsletter

  /** What a confirmation email says. */
  datatype Message =
    | ContactThanks(name: string)
    | BookingConfirmation(reference: string, roomType: string, nights: int, totalPrice: int)
    | Welcome

  /** One email handed to the notification sink. */
  datatype Notification = Notification(to: string, message: Message)

  /**
   * Reading a collection file: `None` is a file that is missing or does not
   * parse, and it reads as the empty collection.
   */
  function ReadJson<T>(file: Option<seq<T>>): (records: seq<T>)
  {
    match file
    case Some(records) => records
    case None => []
  }

  class Store {
    var bookingsFile: Option<seq<Booking>>
    var contactsFile: Option<seq<Contact>>
    var subscribersFile: Option<seq<string>>
    /** The emails the notification sink accepted, oldest first. */
    ghost var Sent: seq<Notification>

    constructor (bookings: Option<seq<Booking>>, contacts: Option<seq<Contact>>,
                 subscribers: Option<seq<string>>)
      ensures bookingsFile == bookings && contactsFile == contacts
      ensures subscribersFile == subscribers && Sent == []
    {
      bookingsFile, contactsFile, subscribersFile := bookings, contacts, subscribers;
      Sent := [];
    }

    function StoredBookings(): (bookings: seq<Booking>)
      reads this
    {
      ReadJson(bookingsFile)
    }

    function StoredContacts(): (contacts: seq<Contact>)
      reads this
    {
      ReadJson(contactsFile)
    }

    function StoredSubscribers(): (subscribers: seq<string>)
      reads this
    {
      ReadJson(subscribersFile)
    }

    /**
     * Handles a contact submission. An accepted contact is appended to the
     * collection, which is written back whole, and then acknowledged by email;
     * if the sink fails the reply is a server error but the contact stays.
     */
    method SubmitContact(req: ContactRequest, id: string, submittedAt: string, mailFails: bool)
      returns (r: Result<string, Error>)
      modifies this
      ensures bookingsFile == old(bookingsFile) && subscribersFile == old(subscribersFile)
      ensures match ValidateContact(req, id, submittedAt)
        case Err(e) =>
          r == Err(e) && contactsFile == old(contactsFile) && Sent == old(Sent)
        case Ok(c) =>
          && contactsFile == Some(old(StoredContacts()) + [c])
          && r == (if mailFails then Err(ServerError) else Ok(id))
          && Sent == old(Sent) + (if mailFails then [] else [Notification(c.email, ContactThanks(c.name))])
      ensures r.Err? ==> Status(r.error) == if ValidateContact(req, id, submittedAt).Err? then 400 else 500
    {
      var v := ValidateContact(req, id, submittedAt);
      if v.Err? {
        return Err(v.error);
      }
      var contacts := ReadJson(contactsFile);
      contacts := contacts + [v.value];
      contactsFile := Some(contacts);
      if mailFails {
        return Err(ServerError);
      }
      Sent := Sent + [Notification(v.value.email, ContactThanks(v.value.name))];
      r := Ok(v.value.id);
    }

    /**
     * Handles a booking submission. A rejected request changes nothing; an
     * accepted booking is appended, the collection written back whole, and a
     * confirmation sent; if the sink fails the reply is a server error but the
     * booking stays. Appending keeps every stored booking well formed.
     */
    method SubmitBooking(req: BookingRequest, reference: string, bookedAt: string, mailFails: bool)
      returns (r: Result<Booking, Error>)
      modifies this
      ensures contactsFile == old(contactsFile) && subscribersFile == old(subscribersFile)
      ensures match ValidateBooking(req, reference, bookedAt)
        case Err(e) =>
          r == Err(e) && bookingsFile == old(bookingsFile) && Sent == old(Sent)
        case Ok(b) =>
          && bookingsFile == Some(old(StoredBookings()) + [b])
          && r == (if mailFails then Err(ServerError) else Ok(b))
          && Sent == old(Sent) + (if mailFails then [] else
               [Notification(b.email, BookingConfirmation(b.reference, b.roomType, b.nights, b.totalPrice))])
      ensures r.Err? ==> Status(r.error) == if ValidateBooking(req, reference, bookedAt).Err? then 400 else 500
      ensures (forall x :: x in old(StoredBookings()) ==> WellFormed(x)) ==>
        forall x :: x in StoredBookings() ==> WellFormed(x)
    {
      var v := ValidateBooking(req, reference, bookedAt);
      if v.Err? {
        return Err(v.error);
      }
      var b := v.value;
      var bookings := ReadJson(bookingsFile);
      bookings := bookings + [b];
      bookingsFile := Some(bookings);
      if mailFails {
        return Err(ServerError);
      }
      Sent := Sent + [Notification(b.email, BookingConfirmation(b.reference, b.roomType, b.nights, b.totalPrice))];
      r := Ok(b);
    }

    /**
     * Handles an availability query: both dates are required; the reply holds
     * the remaining units of each of the four room types.
     */
    method CheckAvailability(checkIn: Option<int>, checkOut: Option<int>)
      returns (r: Result<map<string, int>, Error>)
      ensures r.Err? <==> checkIn.None? || checkOut.None?
      ensures r.Err? ==> r.error == DatesRequired && Status(r.error) == 400
      ensures r.Ok? ==>
        && r.value.Keys == RoomCounts.Keys
        && forall t :: t in r.value ==>
             0 <= r.value[t] <= RoomCounts[t]
             && r.value[t] == Available(t, checkIn.value, checkOut.value, StoredBookings())
    {
      if checkIn.None? || checkOut.None? {
        return Err(DatesRequired);
      }
      var bookings := ReadJson(bookingsFile);
      var availability := ComputeAvailability(checkIn.value, checkOut.value, bookings);
      r := Ok(availability);
    }

    /**
     * Handles a newsletter signup. An absent email is rejected. An email
     * already on the list changes nothing and sends nothing; a new one is
     * appended, the list written back whole, and a welcome sent. Either way
     * the reply is a success unless the sink fails.
     */
    method Subscribe(email: Option<string>, mailFails: bool) returns (r: Result<(), Error>)
      modifies this
      ensures bookingsFile == old(bookingsFile) && contactsFile == old(contactsFile)
      ensures !Present(email) ==>
        r == Err(EmailRequired) && subscribersFile == old(subscribersFile) && Sent == old(Sent)
      ensures Present(email) && email.value in old(StoredSubscribers()) ==>
        r == Ok(()) && subscribersFile == old(subscribersFile) && Sent == old(Sent)
      ensures Present(email) && email.value !in old(StoredSubscribers()) ==>
        && subscribersFile == Some(old(StoredSubscribers()) + [email.value])
        && r == (if mailFails then Err(ServerError) else Ok(()))
        && Sent == old(Sent) + (if mailFails then [] else [Notification(email.value, Welcome)])
      ensures Present(email) ==>
        StoredSubscribers() == AddSubscriber(old(StoredSubscribers()), email.value)
      ensures r.Err? ==> Status(r.error) == if Present(email) then 500 else 400
    {
      if !Present(email) {
        return Err(EmailRequired);
      }
      var subscribers := ReadJson(subscribersFile);
      if email.value !in subscribers {
        subscribers := subscribers + [email.value];
        subscribersFile := Some(subscribers);
        if mailFails {
          return Err(ServerError);
        }
        Sent := Sent + [Notification(email.value, Welcome)];
      }
      r := Ok(());
    }

    /** Handles a lookup by reference. */
    method GetBooking(reference: string) returns (r: Result<Booking, Error>)
      ensures r == LookupBooking(StoredBookings(), reference)
      ensures r.Ok? ==> r.value in StoredBookings() && r.value.reference == reference
      ensures r.Err? <==> forall b :: b in StoredBookings() ==> b.reference != reference
      ensures r.Err? ==> r.error == NotFound && Status(r.error) == 404
    {
      var bookings := ReadJson(bookingsFile);
      r := LookupBooking(bookings, reference);
    }
  }

  /**
   * Subscribing the same email twice, with either sink outcome on each call.
   * The second call always succeeds: if the first welcome failed, the email was
   * already written and the second call finds it. The email ends up on the
   * list exactly once and at most one welcome is sent.
   */
  method SubscribeTwice(store: Store, email: string, firstFails: bool, secondFails: bool)
    returns (first: Result<(), Error>, second: Result<(), Error>)
    requires email != ""
    requires multiset(store.StoredSubscribers())[email] <= 1
    modifies store
    ensures first == if email !in old(store.StoredSubscribers()) && firstFails then Err(ServerError) else Ok(())
    ensures second == Ok(())
    ensures multiset(store.StoredSubscribers())[email] == 1
    ensures store.Sent == old(store.Sent)
      + (if email in old(store.StoredSubscribers()) || firstFails then [] else [Notification(email, Welcome)])
  {
    first := store.Subscribe(Some(email), firstFails);
    second := store.Subscribe(Some(email), secondFails);
    SubscribedOnce(old(store.StoredSubscribers()), email);
  }

  /**
   * Booking with a reference no stored booking has, then looking it up. An
   * accepted booking is found even when its confirmation failed and the reply
   * to the booking was a server error; a rejected one is not found.
   */
  method BookThenLookUp(store: Store, req: BookingRequest, reference: string, bookedAt: string, mailFails: bool)
    returns (booked: Result<Booking, Error>, found: Result<Booking, Error>)
    requires forall x :: x in store.StoredBookings() ==> x.reference != reference
    modifies store
    ensures match ValidateBooking(req, reference, bookedAt)
      case Ok(b) =>
        found == Ok(b) && booked == (if mailFails then Err(ServerError) else Ok(b))
      case Err(e) =>
        booked == Err(e) && found == Err(NotFound)
  {
    booked := store.SubmitBooking(req, reference, bookedAt, mailFails);
    var v := ValidateBooking(req, reference, bookedAt);
    if v.Ok? {
      FreshReferenceFound(old(store.StoredBookings()), v.value);
    }
    found := store.GetBooking(reference);
  }
}
