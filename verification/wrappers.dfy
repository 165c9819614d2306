/** The optional value used throughout the model: `undefined`/`null`/`NaN` in the source become `None`. */
module Wrappers {
  datatype Option<+T> = None | Some(value: T)
}
