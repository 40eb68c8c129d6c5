/** Optional values, the exceptions the pipeline raises or catches, and
    outcomes that are either a value or one of those exceptions. */
module Wrappers {

  /** Python's `Optional[T]`: `None` or a value. */
  datatype Option<T> = None | Some(value: T)

  /** The exception kinds that appear in the pipeline. `Failure` stands for
      any other exception a collaborator raises (network, API, timeout). */
  datatype Error =
    | RuntimeError(message: string)
    | ValueError(message: string)
    | AttributeError(message: string)
    | Failure(message: string)

  /** A call that either returns a value or raises. */
  datatype Result<T> = Ok(value: T) | Err(error: Error)
}
