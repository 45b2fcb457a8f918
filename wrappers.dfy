/** Optional values and results with an error, used for JavaScript's
    `undefined`/`null` and for thrown errors throughout the model. */
module Wrappers {

  datatype Option<+T> = None | Some(value: T)

  datatype Result<+T, +E> = Ok(value: T) | Err(error: E)

}
