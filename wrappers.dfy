/** The optional-value datatype shared by the model: a missing stored entry,
    a lookup that found nothing, a field a record may leave undefined. */
module Wrappers {

  datatype Option<+T> = None | Some(value: T) {

    /** The value when present, the given default otherwise (JavaScript's `x || d`
        for a value that is either missing or truthy). */
    function GetOr(default: T): (r: T)
      ensures Some? ==> r == value
      ensures None? ==> r == default
    {
      match this
      case Some(v) => v
      case None => default
    }
  }
}
