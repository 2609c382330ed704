/** Optional values and outcomes with an error, shared by the modules below. */
module Results {

  /** A value that may be missing (TypeScript's `T | null` or `T | undefined`). */
  datatype Option<T> = None | Some(value: T) {
    function GetOr(default: T): T {
      match this
      case Some(v) => v
      case None => default
    }
  }

  /** The outcome of a guarded operation: a value, or the reason it was refused. */
  datatype Result<T, E> = Ok(value: T) | Err(error: E)
}
