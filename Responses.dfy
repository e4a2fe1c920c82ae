/**
 * The error responses of the server's handlers: each rejection the handlers
 * produce and its HTTP status.
 */
module Responses {

  datatype Error =
    | MissingFields            // booking: a required field is absent or empty
    | InvalidRoomType          // booking: the room type has no price
    | CheckOutNotAfterCheckIn  // booking: the stay does not end after it starts
    | ContactFieldsRequired    // contact: name, email or message is absent or empty
    | DatesRequired            // availability: a query date is absent
    | EmailRequired            // newsletter: the email is absent or empty
    | NotFound                 // lookup: no booking has the reference
    | ServerError              // any exception raised inside a handler

  /**
   * The HTTP status of each error: validation failures are client errors (400),
   * an unknown reference is 404 and an exception is 500.
   */
  function Status(e: Error): (code: int)
  {
    match e
    case NotFound => 404
    case ServerError => 500
    case _ => 400
  }
}
