/** Option, Result and Outcome: the model's stand-ins for `optional<T>`,
    a value-or-exception, and a `void` call that may raise. */
module Wrappers {

  datatype Option<+T> = None | Some(value: T)

  datatype Result<+T, +E> = Success(value: T) | Failure(error: E)

  datatype Outcome<+E> = Pass | Fail(error: E)
}
