/** The optional value the whole model uses where the source has None, and how a call ends. */
module Options {
  datatype Option<+T> = None | Some(value: T)

  /** A call returns a value, leaves with an exception, or ends with its process. */
  datatype Ran<+T> = Returned(value: T) | Raised | Died
}
