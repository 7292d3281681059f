/** A value that may be absent (JavaScript's `undefined`, or a falsy slot). */
module Wrappers {
  datatype Option<+T> = None | Some(value: T)
}
