/** Small helper datatypes shared by the other modules. */
module Wrappers {

  /** The `Option` of the modelled program: `None` or `Some(value)`. */
  datatype Option<+T> = None | Some(value: T)
}
