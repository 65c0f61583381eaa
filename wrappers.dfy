/** The optional value returned where the recognizer's source returns `None`. */
module Wrappers {
  datatype Option<+T> = None | Some(value: T)
}
