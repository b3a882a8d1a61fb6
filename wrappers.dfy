/** Small failure-carrying wrapper used for Go's `(value, error)` returns. */
module Wrappers {

  /** `None` stands for a non-nil `error` (or a nil pointer); `Some(v)` for a usable value. */
  datatype Option<+T> = None | Some(value: T)
}
