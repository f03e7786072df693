/** The optional value that stands for a JavaScript `null` in the model. */
module Wrappers {

  datatype Option<+T> = None | Some(value: T)
}
