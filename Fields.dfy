/** The presence test the handlers apply to the text fields of a request body. */
module Fields {
  import opened Wrappers

  /** A text field passes a presence test when it is there and not empty. */
  predicate Present(f: Option<string>)
  {
    f.Some? && f.value != ""
  }
}
