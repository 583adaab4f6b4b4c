/** Small failure-carrying datatypes shared by the other modules. */
module Wrappers {

  /** A C# reference that may be null. */
  datatype Option<+T> = None | Some(value: T)

  /** How an awaited call ends: normally, or by throwing the exception `error`. */
  datatype Outcome<+E> = Ok | Err(error: E)
}
