/** Option and Result, used for the controllers' optional fields and error paths. */
module Wrappers {

  datatype Option<+T> = None | Some(value: T)

  /**
   * The failures the controllers end with: a 404, a 409, and a date that the
   * Date cast rejects (the status the error middleware gives it is not modelled).
   */
  datatype Error = NotFound | Conflict | InvalidDate

  datatype Result<+T> = Ok(value: T) | Err(error: Error)
}
