/** A value that may be absent: the model of JavaScript's `null` in component state. */
module Wrappers {

  datatype Option<+T> = None | Some(value: T)

}
