/** Failure-compatible result and option types used throughout the model. */
module Wrappers {

  datatype Option<+T> = None | Some(value: T)

  /** The outcome of an operation that either yields a value or fails with an error. */
  datatype Result<+T, +E> = Ok(value: T) | Err(error: E) {
    predicate IsFailure() { Err? }

    function PropagateFailure<U>(): Result<U, E>
      requires Err?
    {
      Err(error)
    }

    function Extract(): T
      requires Ok?
    {
      value
    }
  }

  /** The elements of an option as a sequence of length zero or one. */
  function OptionSeq<T>(o: Option<T>): (s: seq<T>)
    ensures |s| <= 1
    ensures o.Some? ==> s == [o.value]
    ensures o.None? <==> s == []
  {
    match o
    case None => []
    case Some(x) => [x]
  }
}
