/** The one type all models share. */
module Wrappers {

  /** A value that the source may leave `undefined`. */
  datatype Option<+T> = None | Some(value: T)
}
