/** The optional value used for the table's nullable columns. */
module Wrappers {

  /** `None` plays the part of SQL NULL. */
  datatype Option<+T> = None | Some(value: T)
}
