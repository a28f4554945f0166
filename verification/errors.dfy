/** Error kinds raised by the interpreter and the failure-compatible Result
    used by every stage of the pipeline. */
module Errors {

  /** The three error kinds the interpreter raises, plus Undefined for the
      places where the C++ code dereferences a null pointer or falls off the
      end of a function that must return a value. */
  datatype Error = SyntaxError | RuntimeError | NameError | Undefined

  /** Either a value or the kind of error that aborted the computation. */
  datatype Result<+T> = Ok(value: T) | Err(error: Error) {

    predicate IsFailure() {
      Err?
    }

    function PropagateFailure<U>(): Result<U>
      requires Err?
    {
      Err(error)
    }

    function Extract(): T
      requires Ok?
    {
      value
    }
  }
}
