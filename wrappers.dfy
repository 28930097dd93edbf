/** The optional value used where the Go code returns nil or nothing. */
module Wrappers {

  datatype Option<+T> = None | Some(value: T)
}
