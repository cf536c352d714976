/** The optional value used wherever the C code returns a nullable pointer. */
module Wrappers {
  datatype Option<+T> = None | Some(value: T)
}
