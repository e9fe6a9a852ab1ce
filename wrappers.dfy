/** Option and Result, the wrappers used throughout the model.
    A `Result` failure carries the text of the JavaScript exception that the
    source would throw (for example a `SyntaxError` from `JSON.parse`). */
module Wrappers {

  datatype Option<+T> = None | Some(value: T)

  datatype Result<+R, +E> = Success(value: R) | Failure(error: E)
}
