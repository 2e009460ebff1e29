/** Optional values (JavaScript `null`/`undefined` versus a present value) and
    results that carry either a value or the reason a step failed. */
module Wrappers {

  datatype Option<+T> = None | Some(value: T)

  datatype Result<+R, +E> = Success(value: R) | Failure(error: E)
}
