/** The optional-value datatype used for the library results the handler inspects. */
module Wrappers {

  datatype Option<+T> = None | Some(value: T)
}
