/** A value that may be absent: a NULL column, an omitted field, a missing row. */
module Wrappers {
  datatype Option<+T> = None | Some(value: T)
}
