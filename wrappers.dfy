/** An optional value, shared by the launcher's modules. */
module Wrappers {

  /** A value that may be absent, as Python's `None` or a missing match. */
  datatype Option<+T> = None | Some(value: T)
}
