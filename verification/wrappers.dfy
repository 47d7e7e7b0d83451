// A value that may be missing: `undefined`/`null` in the source, or a
// number that is not a number.

module Wrappers {
  datatype Option<T> = None | Some(value: T)
}
