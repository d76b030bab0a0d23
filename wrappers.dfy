/** The optional value used throughout the model, in place of Go's `nil`
    pointers, missing map entries and `(value, ok)` pairs. */
module Wrappers {

  datatype Option<+T> = None | Some(value: T)
}
