/** Optional values and tagged outcomes shared by every module of the model.
    `None` stands for JavaScript's `null`/`undefined` wherever a field of the
    CMS data may be missing; `Err` stands for a thrown exception. */
module Wrappers {

  datatype Option<+T> = None | Some(value: T) {

    /** The value, or `default` when absent: JavaScript's `x ?? d`, and also
        `x || d` whenever the present values are all truthy. */
    function GetOr(default: T): T {
      match this
      case Some(v) => v
      case None => default
    }
  }

  datatype Result<+T, +E> = Ok(value: T) | Err(error: E)
}
