/** The usual optional value, used wherever the source gets `undefined` back from a lookup. */
module Wrappers {
  datatype Option<+T> = None | Some(value: T)
}
