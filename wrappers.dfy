/** The usual optional-value datatype, shared by the datashape and constructor modules. */
module Wrappers {

  datatype Option<+T> = None | Some(value: T)
}
