/** The outcome types shared by every module. */
module Outcomes {

  datatype Option<+T> = None | Some(value: T)

  /** What a fallible call reports to the code that made it. */
  datatype Result<+T, +E> = Ok(value: T) | Err(error: E)

  /**
   * What becomes of the process while a call is under way.  `Died` is a crash: the caller never
   * sees a result.  The type is failure compatible, so `:-` abandons the method on a crash.
   */
  datatype Fate<+T> = Died | Lived(value: T) {
    predicate IsFailure() { Died? }

    function PropagateFailure<U>(): Fate<U>
      requires Died?
    {
      Died
    }

    function Extract(): T
      requires Lived?
    {
      value
    }
  }
}
