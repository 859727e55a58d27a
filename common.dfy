/**
 * Values shared by every module: optional results, error results and the
 * scalar values a Gravity Forms entry holds.
 */
module Common {

  /** PHP's `null` or a value. */
  datatype Option<+T> = None | Some(value: T)

  /** A result that is either a value or an error. */
  datatype Result<+T, +E> = Ok(value: T) | Err(error: E)

  /**
   * The outcome of a call that may throw: either it returns normally with a
   * value, or an exception leaves it.
   */
  datatype Outcome<+T> = Normal(value: T) | Raised

  /** A scalar stored in a form entry or passed as a filter value. */
  datatype Value = Str(s: string) | Int(i: int) | Bool(b: bool)

  /**
   * A form entry: a flat record from entry key to value. PHP allows integer
   * keys as well; this model writes every key as a string.
   */
  type Entry = map<string, Value>

  /** A WordPress `WP_Error`: an error code and a message. */
  datatype WpError = WpError(code: string, message: string)
}
