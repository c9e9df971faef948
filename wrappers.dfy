/** Swift's Optional, as the datatype the rest of the model uses. */
module Wrappers {

  datatype Option<+T> = None | Some(value: T) {

    /** Swift's `??` on two optionals: this value if present, otherwise `other`. */
    function OrElse(other: Option<T>): (r: Option<T>)
      ensures Some? ==> r == this
      ensures None? ==> r == other
    {
      match this
      case Some(_) => this
      case None => other
    }

    /** Swift's `??` with a plain default. */
    function GetOr(default: T): (r: T)
      ensures Some? ==> r == value
      ensures None? ==> r == default
    {
      match this
      case Some(v) => v
      case None => default
    }
  }
}
