/**
 * What a call can raise: the Python built-in errors the data-source
 * contract names, plus any exception of the Longitude package.
 */
module Failures {
  import opened Exceptions

  /** Which constructor argument was refused with a TypeError. */
  datatype TypeErrorReason = ConfigIsNotADict | CacheIsNotALongitudeCache

  datatype Failure =
    | TypeError(reason: TypeErrorReason)
    | NotImplementedError
    | IndexError
    | AttributeError
    | Raised(exception: ExceptionClass)
}
