/** The optional value used for parse results and partial lookups. */
module Wrappers {
  datatype Option<+T> = None | Some(value: T)
}
