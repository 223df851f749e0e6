/** A value that may be missing, as a spreadsheet cell may be. */
module Wrappers {

  datatype Option<+T> = None | Some(value: T)
}
