/** Absence as a value: C#'s null for a reference that may be missing. */
module Wrappers {

  datatype Option<+T> = None | Some(value: T)
}
