/** The optional-value datatype used where the Go code returns a possibly-nil pointer. */
module Wrappers {

  /** `None` stands for Go's nil pointer, `Some(v)` for a pointer to `v`. */
  datatype Option<+T> = None | Some(value: T)
}
