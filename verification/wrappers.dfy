/** The one failure-compatible wrapper the model needs: an optional value. */
module Wrappers {

  datatype Option<+T> = None | Some(value: T)
}
