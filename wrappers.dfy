/** Failure-compatible wrappers used throughout the model: an absent Python value or an
    absent dictionary key is `None`; a call that raises is `Failure` carrying `str(e)`. */
module Wrappers {

  datatype Option<+T> = None | Some(value: T) {
    /** `d.get(key, default)` on a key that is present (`Some`) or absent (`None`) */
    function GetOr(default: T): T {
      match this
      case Some(v) => v
      case None => default
    }
  }

  datatype Result<+R, +E> = Success(value: R) | Failure(error: E)
}
