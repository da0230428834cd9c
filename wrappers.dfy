/** A value that may be absent: stands for a C pointer argument that may be NULL. */
module Wrappers {

  datatype Option<+T> = None | Some(value: T)

}
