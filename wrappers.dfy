/** Option: the outcome of an accessor whose `assert` on the index may fire. */
module Wrappers {
  datatype Option<+T> = None | Some(value: T)
}
