/** A nullable reference or nullable value of the host language: `None` is null. */
module Wrappers {
  datatype Option<+T> = None | Some(value: T)
}
