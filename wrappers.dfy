/** The optional value used for every step that the Go program can abort. */
module Wrappers {
  datatype Option<+T> = None | Some(value: T)
}
