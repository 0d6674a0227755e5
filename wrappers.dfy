/** A value that may be absent: an unset field of a JSON body, an unset header. */
module Wrappers {

  datatype Option<+T> = None | Some(value: T)
}
