/** The optional value that stands for JavaScript's `undefined` result of `Array.prototype.find`. */
module Wrappers {
  datatype Option<+T> = None | Some(value: T)
}
