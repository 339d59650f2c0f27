/** The optional value used wherever the source hands out a pointer that may be null
    or a field that may be unset. */
module Wrappers {

  datatype Option<+T> = None | Some(value: T)
}
