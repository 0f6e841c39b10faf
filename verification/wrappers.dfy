/** The optional-value datatype the model uses for nullable fields and partial patches. */
module Wrappers {

  /** `None` stands for JavaScript's `null` (or an absent property), `Some(v)` for a value. */
  datatype Option<+T> = None | Some(value: T) {

    /** The wrapped value, or `default` when there is none. */
    function GetOr(default: T): (r: T)
      ensures Some? ==> r == value
      ensures None? ==> r == default
    {
      match this
      case Some(v) => v
      case None => default
    }
  }
}
