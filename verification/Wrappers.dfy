/** An optional value: an attribute that may be missing, a query that may find nothing. */
module Wrappers {
  datatype Option<+T> = None | Some(value: T)
}
