/** Failure-carrying results for the template writer and the uploader.
    The program signals failure by raising a Python exception; the model
    returns `Err` with the exception's kind instead, so that every error
    path is a value and not a precondition. */
module Outcomes {

  /** The two exceptions the modelled code can raise on its own. */
  datatype Error =
    | IndexError(index: nat)   // a sequence was indexed at `index`, which is past its end
    | KeyError(key: string)    // a dictionary had no entry for `key`

  datatype Option<+T> = None | Some(value: T)

  datatype Result<+T> = Ok(value: T) | Err(error: Error) {

    predicate IsFailure() {
      Err?
    }

    function PropagateFailure<U>(): Result<U>
      requires Err?
    {
      Err(error)
    }

    function Extract(): T
      requires Ok?
    {
      value
    }
  }
}
