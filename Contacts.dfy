/** The contact-form validator: name, email and message are required. */
module Contacts {
  import opened Wrappers
  import opened Responses
  import opened Fields

  /** A contact request as the handler receives it; `None` is an absent field. */
  datatype ContactRequest = ContactRequest(
    name: Option<string>,
    email: Option<string>,
    phone: Option<string>,
    message: Option<string>)

  /** A stored contact record. */
  datatype Contact = Contact(
    id: string,
    name: string,
    email: string,
    phone: Option<string>,
    message: string,
    submittedAt: string)

  /**
   * Validates a contact request and builds its record; the id and the time of
   * submission are supplied by the caller.
   */
  function ValidateContact(req: ContactRequest, id: string, submittedAt: string)
    : (r: Result<Contact, Error>)
    ensures r.Err? <==> !Present(req.name) || !Present(req.email) || !Present(req.message)
    ensures r.Err? ==> r.error == ContactFieldsRequired
    ensures r.Ok? ==>
      && r.value.id == id && r.value.submittedAt == submittedAt
      && Some(r.value.name) == req.name && Some(r.value.email) == req.email
      && Some(r.value.message) == req.message && r.value.phone == req.phone
      && r.value.name != "" && r.value.email != "" && r.value.message != ""
  {
    if !Present(req.name) || !Present(req.email) || !Present(req.message) then
      Err(ContactFieldsRequired)
    else
      Ok(Contact(id, req.name.value, req.email.value, req.phone, req.message.value, submittedAt))
  }
}
