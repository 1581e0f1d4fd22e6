/** Failure-compatible result types shared by the ratio calculators.

    The calculators never raise on missing data: a missing line item reads as 0
    and a zero denominator yields a "not available" ratio.  The one way a
    calculation can still blow up is reading the last element of a row that is
    present but has no periods at all; that fault is carried as `Err`.
 */
module Outcomes {

  /** Why a calculation stopped: the named line item was present but empty,
      so taking its last element failed. */
  datatype Fault = EmptyRow(item: string)

  datatype Result<+T> = Ok(value: T) | Err(fault: Fault) {

    predicate IsFailure() {
      Err?
    }

    function PropagateFailure<U>(): Result<U>
      requires Err?
    {
      Err(fault)
    }

    function Extract(): T
      requires Ok?
    {
      value
    }
  }

  /** The conventional optional value; stands for Python's `None`. */
  datatype Option<+T> = None | Some(value: T)
}
