/** Failure-carrying results shared by every module: the source raises, the model returns. */
module Wrappers {

  datatype Option<+T> = None | Some(value: T)

  datatype Result<+T, +E> = Ok(value: T) | Err(error: E)

  /** A call that may raise after it has already changed something: the state it leaves and what it raised. */
  datatype Outcome<+S, +E> = Outcome(state: S, raised: Option<E>) {
    predicate Ok() {
      raised.None?
    }
  }
}
