/** The optional-value type used for Go's `(value, error)` returns. */
module Wrappers {

  /** `None` stands for a non-nil Go error; `Some(v)` for a nil error with value `v`. */
  datatype Option<+T> = None | Some(value: T)
}
