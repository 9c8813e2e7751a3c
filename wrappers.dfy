/** The optional value used wherever the Go code returns a nil-able pointer, error or map. */
module Wrappers {

  /** `None` stands for Go's `nil`. */
  datatype Option<+T> = None | Some(value: T)
}
