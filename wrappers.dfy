/** Small wrapper datatypes shared by the other modules. */
module Wrappers {

  /** A value that may be absent: a missing request field, a failed lookup or a failed call. */
  datatype Option<+T> = None | Some(value: T)
}
