/** An optional value: the model of a JavaScript `null` or `undefined` where the source allows one. */
module Wrappers {
  datatype Option<T> = None | Some(value: T)
}
