/** The optional-value datatype shared by the other modules. */
module Wrappers {

  /** A value that may be absent, such as a JSON field the request lacks. */
  datatype Option<+T> = None | Some(value: T)
}
