/** The result of a table lookup that may miss. */
module Wrappers {

  /** A value that may be absent, as returned by a map lookup. */
  datatype Option<+T> = None | Some(value: T)
}
