/**
 * Success/failure wrappers shared by every component. Errors are the
 * human-readable messages the source builds with `anyhow!`.
 */
module Outcomes {

  datatype Option<+T> = None | Some(value: T)

  datatype Result<+T> = Ok(value: T) | Err(msg: string)

  /** `unwrap_or(default)` / `unwrap_or_default()` on a typed read. */
  function UnwrapOr<T>(o: Option<T>, default: T): T
  {
    match o
    case Some(v) => v
    case None => default
  }

  /** The message every registry operation fails with on an unknown id. */
  const NotFound: string := "Connection not found"
}
