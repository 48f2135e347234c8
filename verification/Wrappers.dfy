/** The value that may be missing: a Go pointer or slice that may be nil, a Python `None`. */
module Wrappers {
  datatype Option<+T> = None | Some(value: T)
}
