/** Small value types shared by every module of the model. */
module Common {

  /** Python's `None` next to a present value. */
  datatype Option<+T> = None | Some(value: T) {
    /** `d.get(key, default)` and `cache.get(key, default)` style defaulting. */
    function GetOr(default: T): T {
      match this
      case Some(v) => v
      case None => default
    }
  }

  /** An outcome that either carries a value or the reason it could not be produced. */
  datatype Result<+R, +E> = Success(value: R) | Failure(error: E)

  function Min(a: int, b: int): int {
    if a <= b then a else b
  }

  function Max(a: int, b: int): int {
    if a <= b then b else a
  }
}
