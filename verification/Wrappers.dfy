/** The optional value used throughout: a nullable column, key or JSON field. */
module Wrappers {
  datatype Option<+T> = None | Some(value: T)
}
