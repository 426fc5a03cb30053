/** Option and Outcome values standing for Python's `None` and raised exceptions. */
module Wrappers {

  datatype Option<+T> = None | Some(value: T)

  /** The result of a Python call that returns nothing or raises `error`. */
  datatype Outcome<+E> = Pass | Fail(error: E)
}
