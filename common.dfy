/** Small shared datatypes: an optional value and a success-or-error outcome. */
module Common {

  /** A value that may be absent (JavaScript's `null` / `undefined`). */
  datatype Option<+T> = None | Some(value: T)

  /** The outcome of an operation that can refuse its input. */
  datatype Result<+R, +E> = Ok(value: R) | Err(error: E)
}
