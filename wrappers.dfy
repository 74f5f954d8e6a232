/** The optional-value type used for C's nullable pointers and Python's None. */
module Wrappers {
  datatype Option<+T> = None | Some(value: T)
}
