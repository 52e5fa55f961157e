/** The result types shared by the other modules. */
module Wrappers {

  /** A nil-able pointer of the source, or the (value, ok) result of a lookup. */
  datatype Option<+T> = None | Some(value: T)
}
