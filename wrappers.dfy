/** A value that may be missing: a JavaScript property read or a query
    parameter that can come back `undefined` or `null`. */
module Wrappers {
  datatype Option<T> = None | Some(value: T)
}
