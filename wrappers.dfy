/** The optional-value datatype shared by the other modules. `None` stands
    for JavaScript's `undefined`, the value default parameters and
    destructuring defaults replace; where a member means `null` instead, its
    comment says so. */
module Wrappers {

  datatype Option<+T> = None | Some(value: T) {

    predicate IsFailure() {
      None?
    }

    function PropagateFailure<U>(): Option<U>
      requires None?
    {
      None
    }

    function Extract(): T
      requires Some?
    {
      value
    }

    /** The value, or the given default when there is none (a JavaScript
        default parameter or destructuring default). */
    function GetOr(default: T): T {
      match this
      case Some(v) => v
      case None => default
    }
  }
}
