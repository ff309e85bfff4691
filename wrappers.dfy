/** A value that may be absent: an event field that is `undefined`, a cube that was not placed. */
module Wrappers {
  datatype Option<T> = None | Some(value: T)
}
