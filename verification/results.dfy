/** Failure-aware value types shared by the whole model: an optional value
    (Python's `X | None`) and a success-or-error outcome (a call that either
    returns or raises). */
module Results {

  /** `None` is Python's `None`; `Some(v)` is a present value. */
  datatype Option<+T> = None | Some(value: T)

  /** `Ok(v)` is a normal return; `Err(e)` is a raised exception, described by `e`. */
  datatype Result<+T, +E> = Ok(value: T) | Err(error: E)
}
