/** Success/failure values used for the error returns and panics of the modelled code. */
module Results {

  /** A value that may be absent (a store key with nothing written at it). */
  datatype Option<+T> = None | Some(value: T)

  /** A value, or the error that stopped the computation. */
  datatype Result<+T, +E> = Ok(value: T) | Err(error: E)

  /** The outcome of a check or of a step that returns no value. */
  datatype Outcome<+E> = Pass | Fail(error: E)

  /** The first index of `xs` whose element fails `ok`, when there is one. */
  predicate IsFirstFailing<T>(xs: seq<T>, ok: T -> bool, i: int)
  {
    0 <= i < |xs| && !ok(xs[i]) && forall j :: 0 <= j < i ==> ok(xs[j])
  }
}
