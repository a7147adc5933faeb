/** An optional value: the JavaScript `undefined`/`null` of a lookup or a stored key. */
module Wrappers {
  datatype Option<+T> = None | Some(value: T)
}
