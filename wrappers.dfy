/** The optional value used for JavaScript's `undefined`-able fields. */
module Wrappers {

  datatype Option<+T> = None | Some(value: T)
}
