/** Optional values and results with an error message, standing for JavaScript's
    `undefined`/`null` and for thrown errors. */
module Wrappers {

  datatype Option<+T> = None | Some(value: T)

  /** `Err` carries the message of the `Error` the source throws. */
  datatype Result<+T> = Ok(value: T) | Err(message: string)
}
