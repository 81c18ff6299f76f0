/** The optional-value datatype, for the order record's optional fields and the table's optional widgets and selection. */
module Wrappers {

  datatype Option<+T> = None | Some(value: T)
}
