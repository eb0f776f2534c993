/** The optional value used wherever the source tests for null, undefined or None. */
module Wrappers {

  datatype Option<+T> = None | Some(value: T)
}
