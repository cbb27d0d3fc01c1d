/** Failure-carrying datatypes shared by every module of the model.

    Python code signals a failure by raising; the model returns `Err` with the
    kind of exception the source raises, so that error paths are part of each
    operation's result instead of a precondition. */
module Wrappers {

  datatype Option<+T> = None | Some(value: T)

  /** The exception kinds the modelled code raises. Messages are kept only
      where the source states them itself. */
  datatype Error =
    | ValueError(msg: string)
    | KeyError(key: string)
    | TypeError
    | AttributeError(name: string)
    | IndexError
    /** A situation pandas accepts that the table model cannot represent. */
    | Unmodelled(what: string)

  /** Python's "not enough / too many values to unpack" (a ValueError). */
  const UnpackError: Error := ValueError("wrong number of values to unpack")

  datatype Result<+T> = Ok(value: T) | Err(error: Error) {
    predicate IsFailure() { Err? }
    function PropagateFailure<U>(): Result<U>
      requires Err?
    {
      Err(error)
    }
    function Extract(): T
      requires Ok?
    {
      value
    }
  }

  datatype Outcome = Pass | Fail(error: Error) {
    predicate IsFailure() { Fail? }
    function PropagateFailure(): Outcome
      requires Fail?
    {
      this
    }
  }
}
