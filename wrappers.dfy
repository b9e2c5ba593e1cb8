/** Failure-compatible wrapper types shared by the other modules. */
module Wrappers {

  /** An optional value: JavaScript's `undefined`/"not there" becomes None. */
  datatype Option<+T> = None | Some(value: T)
}
