/** The optional value used wherever the source has a nil-able pointer or interface. */
module Wrappers {

  datatype Option<+T> = None | Some(value: T)
}
