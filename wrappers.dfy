/** An optional value: a JSON field that may be missing, `undefined` or `null`. */
module Wrappers {

  datatype Option<+T> = None | Some(value: T)
}
