/** The one general-purpose datatype that the other modules share. */
module Wrappers {
  datatype Option<+T> = None | Some(value: T)
}
