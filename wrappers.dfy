/** An optional value (Python's `None`), shared by the modules of this project. */
module Wrappers {

  /** A value that may be absent (Python's `None`). */
  datatype Option<+T> = None | Some(value: T)
}
