/** The optional-value datatype used for partial records and for parsing. */
module Wrappers {
  datatype Option<T> = None | Some(value: T)
}
