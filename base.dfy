/** Small shared vocabulary: optional values, fallible results, the `u64`
    width of the configuration's integers and the ASCII test on strings. */
module Base {

  /** `Option<T>` of the configuration schema: a field that may be left out. */
  datatype Option<+T> = None | Some(value: T)

  /** `Result<T, E>`: either the value or the first error met. */
  datatype Result<+T, +E> = Success(value: T) | Failure(error: E)

  /** `Result<(), E>`: a check that either passes or reports an error. */
  datatype Outcome<+E> = Pass | Fail(error: E)

  /** Rust's `u64`: steps, parallelism and per-job values are read at this width. */
  newtype u64 = x: int | 0 <= x < 0x1_0000_0000_0000_0000

  /** `own` if it is set, otherwise `fallback`: the per-field rule of inheritance. */
  function Or<T>(own: Option<T>, fallback: Option<T>): Option<T>
  {
    if own.Some? then own else fallback
  }

  /** `str::is_ascii`: every character is below 128. */
  predicate IsAscii(s: string)
  {
    forall i :: 0 <= i < |s| ==> s[i] as int < 128
  }
}
