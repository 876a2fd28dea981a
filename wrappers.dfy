/** The optional value shared by both modules: `undefined` in JavaScript. */
module Wrappers {

  datatype Option<+T> = None | Some(value: T)
}
