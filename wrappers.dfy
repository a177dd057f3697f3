/** Option and Result, the two failure-carrying wrappers the model uses. */
module Wrappers {

  /** A Python `Optional[...]`: a value or `None`. */
  datatype Option<+T> = None | Some(value: T)

  /** The outcome of an operation that may raise: the value, or the error it raises. */
  datatype Result<+T, +E> = Ok(value: T) | Err(error: E)

  /** The outcome of a call into a backend the model cannot see: what it returned, or
      the fact that it raised. */
  datatype Call<+T> = Raised | Returned(value: T)

  /** A backend call inside `try: ... except Exception: return fallback`: an error never
      propagates, it becomes the fallback. */
  function Absorb<T>(attempt: Call<T>, fallback: T): (r: T)
    ensures attempt.Raised? ==> r == fallback
    ensures attempt.Returned? ==> r == attempt.value
  {
    if attempt.Returned? then attempt.value else fallback
  }
}
