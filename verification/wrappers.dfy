/** The optional-value type shared by every module of the model. A JavaScript
    property that may be absent (an omitted request parameter, an argument
    left `undefined`) is an `Option`. */
module Wrappers {

  datatype Option<+T> = None | Some(value: T)
}
