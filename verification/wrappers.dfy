/** Option and Result, the failure-compatible datatypes the asserter uses to
    stand in for PHP's nullable back-reference and for the test sink that
    aborts a test on the first failed assertion. */
module Wrappers {

  /** A value that may be missing. */
  datatype Option<+T> = None | Some(value: T)

  /** The outcome of one assertion call: either the value the call returns,
      or the failure that aborts the rest of the chain. */
  datatype Result<+T, +E> = Ok(value: T) | Fail(error: E) {

    predicate IsFailure() {
      Fail?
    }

    function PropagateFailure<U>(): Result<U, E>
      requires Fail?
    {
      Fail(error)
    }

    function Extract(): T
      requires Ok?
    {
      value
    }
  }
}
