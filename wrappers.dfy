/** The optional-value datatype used for nullable references of the recorder
    (a decoder result, a stored detection). */
module Wrappers {

  datatype Option<+T> = None | Some(value: T)
}
