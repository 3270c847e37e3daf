/** The optional-value wrapper used for request fields that may be absent. */
module Wrappers {

  /** A value that may be missing: an absent JSON body field, or a `parseInt` that gave NaN. */
  datatype Option<+T> = None | Some(value: T)
}
