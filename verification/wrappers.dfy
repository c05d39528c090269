/** The optional value that every module uses for what may be absent and for a thrown error. */
module Wrappers {
  datatype Option<+T> = None | Some(value: T)
}
