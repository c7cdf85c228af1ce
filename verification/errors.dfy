/**
 * Failure-compatible wrappers shared by every module of the model.
 *
 * `Error` names the Python exception classes the modelled code raises;
 * an operation that can raise returns a `Result`, and `:-` propagates the
 * first failure exactly as an uncaught exception would.
 */
module Errors {

  /** The exception classes raised by the modelled code. */
  datatype Error =
    | ValueError
    | KeyError
    | IndexError
    | TypeError
    | NotImplementedError
    | RuntimeError
    | RecursionError
    | UnboundLocalError
    | AttributeError
    | ZeroDivisionError
      /**
       * Not a Python exception: the model's report for an embedding whose
       * delay rows are all empty, where `calc_rqa` returns a row with a
       * NaN recurrence rate, which the model has no value for.
       */
    | EmbeddingError
      /**
       * Not a Python exception: the model's report for assigning a
       * non-empty column to a frame with no rows, which pandas answers by
       * growing the frame and filling its other columns with NaN.
       */
    | GrowthError

  datatype Option<+T> = None | Some(value: T) {

    function GetOr(default: T): T {
      match this
      case Some(v) => v
      case None => default
    }
  }

  datatype Result<+T> = Ok(value: T) | Err(error: Error) {

    predicate IsFailure() {
      Err?
    }

    function PropagateFailure<U>(): Result<U>
      requires Err?
    {
      Err(error)
    }

    function Extract(): T
      requires Ok?
    {
      value
    }
  }
}
