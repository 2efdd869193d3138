/** The optional-value datatype used for absent form fields and for errors that may be reported. */
module Wrappers {

  datatype Option<+T> = None | Some(value: T)
}
