/** Optional values and results with errors, shared by every module of the model. */
module Wrappers {

  datatype Option<+T> = None | Some(value: T)

  datatype Result<+T, +E> = Ok(value: T) | Err(error: E)

  /** The API server's answer to a read. */
  datatype Read<+T> = Found(value: T) | NotFound | Failed(error: string)
}
