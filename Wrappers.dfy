/** Failure-carrying values used in place of C# null references and exceptions. */
module Wrappers {

  /** A value that may be absent: `None` stands for a C# `null` reference. */
  datatype Option<+T> = None | Some(value: T)

  /** The outcome of an operation that returns nothing but may throw. */
  datatype Outcome<+E> = Pass | Fail(error: E)
}

/** The exceptions the domain model throws. */
module Errors {

  /** Why an `ArgumentException` was thrown; the messages are those of the source. */
  datatype ArgumentReason =
    | BlankTitle      // "Name cannot be null or empty"
    | NegativePrice   // "Price amount cannot be negative"
    | QuantityBelowOne  // "Quantity must be greater than or equal to 1."
    | NoProduct       // "No Product is present."

  datatype Error =
    | ArgumentError(reason: ArgumentReason)   // System.ArgumentException
    | NotImplemented                          // System.NotImplementedException
}
