/** Failure-compatible wrappers mirroring Rust's `Option` and `Result`, plus the fixed-width
    unsigned integer the configuration fields use. */
module Wrappers {

  /** Rust's `Option<T>`. */
  datatype Option<T> = None | Some(value: T) {

    /** Rust's `a.or(b)`: `a` when present, otherwise `b`. */
    function Or(fallback: Option<T>): Option<T>
    {
      if Some? then this else fallback
    }
  }

  /** Rust's `Result<T, E>`. */
  datatype Result<T, E> = Ok(value: T) | Err(error: E)

  /** Rust's `u32`. */
  newtype uint32 = x: int | 0 <= x < 0x1_0000_0000

  /** Rust's `u32::max`. */
  function Max(a: uint32, b: uint32): uint32
  {
    if a >= b then a else b
  }
}
