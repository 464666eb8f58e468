/** The optional value used for the nullable numbers and strings of the model. */
module Wrappers {

  datatype Option<+T> = None | Some(value: T)
}
