/** A value that may be absent: a request field that was not supplied, a date not yet set. */
module Wrappers {

  datatype Option<+T> = None | Some(value: T)
}
