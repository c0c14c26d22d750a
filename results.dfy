/** Option and Result, the two failure-carrying shapes the source uses
    (Rust's `Option<T>` and `eyre::Result<T>`; an error is its display text). */
module Results {

  datatype Option<+T> = None | Some(value: T) {

    /** `unwrap_or(default)` / `unwrap_or_default()` */
    function GetOr(default: T): T {
      match this
      case Some(v) => v
      case None => default
    }
  }

  datatype Result<+T> = Ok(value: T) | Err(error: string)
}
