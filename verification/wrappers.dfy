/** The optional value used wherever the game stores `null` or leaves a property undefined. */
module Wrappers {
  datatype Option<+T> = None | Some(value: T)
}
