/** Optional values and the outcome of a service call. */
module Wrappers {
  datatype Option<+T> = None | Some(value: T)

  /** The HTTP exception a service throws: 404, 403, 409 or 401. */
  datatype Error = NotFound | Forbidden | Conflict | Unauthorized

  datatype Result<+T> = Ok(value: T) | Err(error: Error)
}
