/** Optional values and results shared by every module of the model.
    `None` stands for a missing value (Python's `None`, an absent key or a
    NULL column). */
module Opt {

  datatype Option<+T> = None | Some(value: T) {

    /** The value, or `default` when it is missing. */
    function GetOr(default: T): T {
      match this
      case Some(v) => v
      case None => default
    }
  }

  datatype Result<+R, +E> = Ok(value: R) | Err(error: E)
}
