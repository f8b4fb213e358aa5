/** The optional-value datatype used by the readers of wire values. */
module Wrappers {

  datatype Option<+T> = None | Some(value: T)

}
