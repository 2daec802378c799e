/** Fixed-width integer ranges and the small wrapper types shared by every module. */
module Base {
  /** Rust `u8`, `u16`, `u32` as ranges of mathematical integers. */
  type U8 = n: int | 0 <= n < 0x100
  type U16 = n: int | 0 <= n < 0x1_0000
  type U32 = n: int | 0 <= n < 0x1_0000_0000

  const U32_MAX: U32 := 0xFFFF_FFFF

  /** `(a as i32 − b as i32).abs()`: the distance between two coordinates. */
  function AbsDiff(a: int, b: int): nat {
    if a >= b then a - b else b - a
  }

  /** The smaller and the larger of two `u32` coordinates. */
  function Min(a: U32, b: U32): U32 { if a <= b then a else b }
  function Max(a: U32, b: U32): U32 { if a <= b then b else a }

  datatype Option<T> = None | Some(value: T)

  /** `Result<(), ()>`, the return type of the pixel-buffer `set`. */
  datatype Outcome = Ok | Err

  /** `Result<T, E>` for operations that return a value or an error. */
  datatype Result<T, E> = Success(value: T) | Failure(error: E)
}
