/** The few Rust standard types the model needs: `Option`, `i32` and `usize`. */
module Prelude {

  /** Rust's `Option<T>`. */
  datatype Option<+T> = None | Some(value: T)

  const I32Min: int := -0x8000_0000
  const I32Max: int := 0x7fff_ffff

  predicate IsI32(x: int) {
    I32Min <= x <= I32Max
  }

  /** Rust's `i32`, as the integers it can hold. */
  type I32 = x: int | IsI32(x)

  /** `usize::MAX` on a 64-bit target. */
  const UsizeMax: int := 0xffff_ffff_ffff_ffff

  /** Rust's `usize` on a 64-bit target. */
  type Usize = x: int | 0 <= x <= UsizeMax
}
