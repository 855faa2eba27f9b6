/** Small failure-compatible datatypes shared by the other modules. */
module Wrappers {

  datatype Option<+T> = None | Some(value: T)

  /** What became of a call made on the outside world by a process that may die at any moment:
      it either died with the call (before or after the call took effect), or went on. */
  datatype Ran<+T> = Crashed | Ran(value: T) {

    predicate IsFailure() {
      Crashed?
    }

    function PropagateFailure<U>(): Ran<U>
      requires Crashed?
    {
      Crashed
    }

    function Extract(): T
      requires Ran?
    {
      value
    }
  }
}
