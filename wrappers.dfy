/** Option and Outcome, the two failure shapes the runtime uses: a value that
    may be absent (`undefined`/`null` in the source) and an operation that may
    throw. */
module Wrappers {

  datatype Option<+T> = None | Some(value: T)

  /** `Fail(error)` stands for a thrown `Error(error)`. */
  datatype Outcome<+E> = Pass | Fail(error: E)
}
