/** Failure-aware values used in place of Python's `None` and exceptions. */
module Common {

  /** A value that may be absent: Python's `None` or a missing element/attribute. */
  datatype Option<+T> = None | Some(value: T)

  /** The outcome of a step that can raise: a value, or the error that unwinds the caller. */
  datatype Result<+T, +E> = Ok(value: T) | Err(error: E)

  /** `xs` in front of the sequence a step produced; an error passes through unchanged. */
  function Prepend<T, E>(xs: seq<T>, r: Result<seq<T>, E>): Result<seq<T>, E> {
    match r
    case Ok(ys) => Ok(xs + ys)
    case Err(e) => Err(e)
  }

  /** Prepending twice is prepending the concatenation. */
  lemma {:induction false} PrependPrepend<T, E>(xs: seq<T>, ys: seq<T>, r: Result<seq<T>, E>)
    ensures Prepend(xs, Prepend(ys, r)) == Prepend(xs + ys, r)
  {
    if r.Ok? {
      assert xs + (ys + r.value) == (xs + ys) + r.value;
    }
  }
}
