/** The Some/None type used for Python's `None` results and for calls that can fail. */
module Wrappers {
  datatype Option<+T> = None | Some(value: T)
}
