/** The optional value used throughout the model: `None` where JavaScript
    would produce nothing or throw, `Some` otherwise. */
module Wrappers {

  datatype Option<+T> = None | Some(value: T)
}
