/** An optional value: a JSON field that may be absent, or a Python value that may be None. */
module Wrappers {
  datatype Option<+T> = None | Some(value: T)
}
