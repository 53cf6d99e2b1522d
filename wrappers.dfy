/** The optional value used for JavaScript's `undefined` results and for array holes. */
module Wrappers {

  datatype Option<+T> = None | Some(value: T)
}
