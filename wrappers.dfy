/** Nullable values, error returns and a sequence fact, shared by every module of the model. */
module Wrappers {

  /** A value that may be absent: JSON `null`, `undefined` or a missing field. */
  datatype Option<+T> = None | Some(value: T) {

    /** The value, or `default` when absent. */
    function GetOr(default: T): T {
      match this
      case Some(v) => v
      case None => default
    }
  }

  /** An operation that either produced a value or failed with an error. */
  datatype Result<+R, +E> = Success(value: R) | Failure(error: E)

  /** Concatenation regroups: used where a loop appends to rows it appended before. */
  lemma AppendAssoc<T>(a: seq<T>, b: seq<T>, c: seq<T>)
    ensures a + (b + c) == (a + b) + c
  {
  }
}
