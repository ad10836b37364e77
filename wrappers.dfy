/** The optional value used for lookups that may miss and for the Go `error` that may be nil. */
module Wrappers {

  datatype Option<+T> = None | Some(value: T)
}
