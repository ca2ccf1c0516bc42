/** Option and Result, used for JavaScript's `undefined`/`null` and for
    request handlers that answer either with data or with an HTTP 400. */
module Wrappers {

  datatype Option<+T> = None | Some(value: T)

  datatype Result<+T, +E> = Ok(value: T) | Err(error: E)
}
