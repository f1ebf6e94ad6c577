/** The failure-carrying datatypes the rest of the model uses. A `Fail` stands for a
    thrown `Error` (or a rejected promise) and carries its message. */
module Wrappers {

  /** A value that may be absent; `None` is JavaScript's `undefined`. */
  datatype Option<+T> = None | Some(value: T)

  /** The outcome of a step that may throw. Usable with `:-`, so that a failing
      step ends the enclosing method with the same message, as an uncaught
      `throw` ends an `async` function with a rejected promise. */
  datatype Result<+T> = Ok(value: T) | Fail(message: string) {

    predicate IsFailure() {
      Fail?
    }

    function PropagateFailure<U>(): Result<U>
      requires Fail?
    {
      Fail(message)
    }

    function Extract(): T
      requires Ok?
    {
      value
    }
  }
}
