/** The optional values the indicator keeps its caches in. */
module Wrappers {

  /** `nil` or a value, like a Swift optional. */
  datatype Option<+T> = None | Some(value: T)
}
