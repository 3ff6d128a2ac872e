/** Names shared by the modules of this project. */
module Basics {

  type byte = x: int | 0 <= x < 256

  datatype Option<+T> = None | Some(value: T)
}

/** Results of operations that may fail. */
module Outcomes {

  datatype Outcome<+T, +E> = Done(value: T) | Failed(error: E) {
    predicate IsFailure() { Failed? }

    function PropagateFailure<U>(): Outcome<U, E>
      requires Failed?
    {
      Failed(error)
    }

    function Extract(): T
      requires Done?
    {
      value
    }
  }
}
