/** The optional value used for "an average may or may not be emitted" and "a timer may or may not be running". */
module Wrappers {
  datatype Option<+T> = None | Some(value: T)
}
