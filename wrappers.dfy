/** An absent value, as JavaScript's `null` or `undefined`. */
module Wrappers {

  datatype Option<+T> = None | Some(value: T)
}
