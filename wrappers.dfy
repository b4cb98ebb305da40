/** A value that may be missing: the model's stand-in for a NULL node or
    attribute pointer, and for R's NA string. */
module Wrappers {
  datatype Option<+T> = None | Some(value: T)
}
