/** The optional value used throughout the model where the program has None. */
module Wrappers {
  datatype Option<+T> = None | Some(value: T)
}
