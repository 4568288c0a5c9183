/** Small value types shared by every module of the model. */
module Wrappers {

  datatype Option<T> = None | Some(value: T)

  /** Rust's `Result`: `Err` carries back the rejected value. */
  datatype Result<T, E> = Ok(value: T) | Err(error: E)

  /** The outcome of a call that may panic (a failing `assert!` or `unwrap`). */
  datatype Outcome<T> = Done(value: T) | Panicked

  /** `usize::MAX` on a 64-bit target. */
  const USIZE_MAX: nat := 0xFFFF_FFFF_FFFF_FFFF

  /** Rust's `usize`: arithmetic on it must stay in range, which each use proves. */
  type Usize = x: nat | x <= USIZE_MAX
}
