/** Failure-compatible result types used by the manifest parser.
- Option<T>: an optional value (Rust's `Option`)
- Result<T, E>: a value or an error; usable with `:-`
 */
module Wrappers {

  /** An optional value; used for the optional `assembler` and `build` fields. */
  datatype Option<+T> = None | Some(value: T)

  /** Either a successfully parsed value or the error that stopped the parse. */
  datatype Result<+T, +E> = Success(value: T) | Failure(error: E) {

    /** A Failure ends a `:-` chain early. */
    predicate IsFailure() {
      Failure?
    }

    /** Re-types a Failure so that it can be returned by a caller with another value type */
    function PropagateFailure<U>(): Result<U, E>
      requires Failure?
    {
      Failure(error)
    }

    /** The decoded value a `:-` binds on success. */
    function Extract(): T
      requires Success?
    {
      value
    }
  }
}
