/** The optional-value type used where the Ruby code returns `nil`. */
module Wrappers {

  datatype Option<+T> = None | Some(value: T)
}
