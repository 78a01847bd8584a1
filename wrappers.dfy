/** A value that may be missing: JavaScript's `null`/`undefined` for the
    fields and headers the model reads. */
module Wrappers {

  datatype Option<+T> = None | Some(value: T)
}
