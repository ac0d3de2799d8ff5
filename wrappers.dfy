/** The optional value used across the model for JavaScript's `undefined`/`null`
    and for lookups that may find nothing. */
module Wrappers {

  datatype Option<+T> = None | Some(value: T)
}
