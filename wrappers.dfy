/** The optional value used wherever the source yields `null`, `undefined` or a rejected promise. */
module Wrappers {

  datatype Option<+T> = None | Some(value: T)
}
