/** The optional-value wrapper used by the inverse (parsing) functions. */
module Wrappers {

  datatype Option<+T> = None | Some(value: T)
}
