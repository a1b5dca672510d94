/** Small failure-carrying datatypes shared by the whole model. */
module Wrappers {

  /** The result of a `pop`-like operation: a value, or nothing. */
  datatype Option<+T> = None | Some(value: T)

  /** Why a round stopped early. Each one is a panic of the original program:
      `expect`/`unwrap` on an empty card source, a scripted user interface that
      has no answer left, and an `unreachable!()` arm being reached. */
  datatype Failure = DeckExhausted | NoAction | Unreachable

  /** A step of the engine either finishes with a value or panics. */
  datatype Outcome<+T> = Done(value: T) | Panic(failure: Failure)
}
