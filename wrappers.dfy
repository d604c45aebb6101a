/** The optional value returned by a failed table lookup. */
module Wrappers {
  datatype Option<+T> = None | Some(value: T)
}
