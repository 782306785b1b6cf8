/** The optional value used where the application gets `NaN` or a rejected promise back. */
module Wrappers {
  datatype Option<+T> = None | Some(value: T)
}
