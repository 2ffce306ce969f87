/** The optional value: a JSON field that may be absent, or a Python `None`. */
module Wrappers {

  datatype Option<+T> = None | Some(value: T)
}
