/** The optional value used wherever the Go code returns a nil-able pointer,
    a nil error or a nil slice. */
module Wrappers {

  datatype Option<+T> = None | Some(value: T)
}
