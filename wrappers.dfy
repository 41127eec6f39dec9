/** The optional-value wrapper used for Go's `error` results (nil or an error). */
module Wrappers {

  datatype Option<+T> = None | Some(value: T)
}
