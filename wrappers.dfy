/** The optional-value datatype the other modules use for absent values. */
module Wrappers {

  datatype Option<T> = None | Some(value: T)
}
