/** The optional value both prototypes' lookups return. */
module Wrappers {

  /** A value that may be absent: JavaScript's `undefined`/`null` result of a lookup. */
  datatype Option<+T> = None | Some(value: T)
}
