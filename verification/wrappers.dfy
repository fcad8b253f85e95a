/** The wrappers the rerank pipeline returns: an optional value, a value-or-error result, and a
    pass-or-error outcome for checks that produce no value. */
module Wrappers {

  datatype Option<+T> = None | Some(value: T)

  datatype Result<+R, +E> = Success(value: R) | Failure(error: E)

  datatype Outcome<+E> = Pass | Fail(error: E)
}
