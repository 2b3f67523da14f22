/** How the model writes Java's null references and calls that may throw. */
module Wrappers {

  /** A value that may be absent; `None` stands for Java's `null` or an
      empty `Optional`. */
  datatype Option<+T> = None | Some(value: T)

  /** The outcome of an operation that returns nothing but may throw. */
  datatype Outcome<+E> = Pass | Fail(error: E)
}
