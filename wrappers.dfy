/** The optional value used for "not found" and for parseInt's NaN. */
module Wrappers {
  datatype Option<+T> = None | Some(value: T)
}
