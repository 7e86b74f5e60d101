/** The optional-value type used throughout the model, standing in for Go's
    nil-able pointers and nil-able `error` values. */
module Wrappers {

  datatype Option<+T> = None | Some(value: T)
}
