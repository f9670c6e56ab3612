/** Option, Result and Outcome, and the exceptions the Lambda can raise. */
module Wrappers {

  datatype Option<+T> = None | Some(value: T)

  /** The exceptions of the handler that the model keeps: each one ends the invocation. */
  datatype Error =
    | KeyError              // a cursor row exists but carries no 'value' attribute
    | IndexError            // a channel id that the channel table does not hold
    | StartKeyOutsideQuery  // an ExclusiveStartKey from another partition (DynamoDB ValidationException)
    | RecursionError        // the channel query never yields a continuation key (empty channel table)

  datatype Result<+T> = Ok(value: T) | Err(error: Error) {
    predicate IsFailure() { Err? }

    function PropagateFailure<U>(): Result<U>
      requires Err?
    {
      Err(error)
    }

    function Extract(): T
      requires Ok?
    {
      value
    }
  }

  /** The result of an operation that returns nothing: it ran to the end or raised. */
  datatype Outcome = Pass | Fail(error: Error)
}
