/** Outcome datatypes and a proof guard shared by the other modules. */
module Wrappers {

  datatype Option<+T> = None | Some(value: T)

  /** `Ok` with a value, or `Err` with the kind of failure. */
  datatype Result<+T, +E> = Ok(value: T) | Err(error: E) {
    predicate IsFailure() {
      Err?
    }

    function PropagateFailure<U>(): Result<U, E>
      requires Err?
    {
      Err(error)
    }

    function Extract(): T
      requires Ok?
    {
      value
    }
  }

  /** Guards a definition: under `forall k :: Look(k) && k == n ==> ...` it is unfolded only where
      `Look(n)` is asserted, so that proofs which merely pass it on stay small. */
  predicate Look(k: int) {
    true
  }
}
