/** Option and Result values, and the one local failure the client raises. */
module Wrappers {

  /** A value that may be absent: an unset field, a request that cannot be read back. */
  datatype Option<+T> = None | Some(value: T)

  /** Either a computed value or the error that stopped the computation. */
  datatype Result<+T, +E> = Success(value: T) | Failure(error: E)
}

/** Failures the client raises itself, before any request reaches the service. */
module Errors {
  import opened Wrappers

  /** java.lang.IllegalArgumentException, with its detail message if one was given.
      The unsupported operations throw it without a message; the precision encoder
      throws it with one. */
  datatype LocalError = IllegalArgument(message: Option<string>)
}
