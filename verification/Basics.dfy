/**
 What every part of the project shares: options, results, bytes and machine integers.
 */
module Basics {

  datatype Option<+T> = None | Some(value: T)

  datatype Result<+T, +E> = Ok(value: T) | Err(error: E)

  type Byte = b: int | 0 <= b < 256

  const U64_MAX: int := 0xFFFF_FFFF_FFFF_FFFF
  const I64_MIN: int := -0x8000_0000_0000_0000
  const I64_MAX: int := 0x7FFF_FFFF_FFFF_FFFF

  /** What a JSON number holds when it is not a float: an `i64` or a `u64`. */
  type Integer = i: int | I64_MIN <= i <= U64_MAX

  /** `i64` arithmetic, wrapping as release builds do. */
  function Wrap64(n: int): (r: Integer)
    ensures I64_MIN <= r <= I64_MAX
    ensures I64_MIN <= n <= I64_MAX ==> r == n
  {
    (n - I64_MIN) % 0x1_0000_0000_0000_0000 + I64_MIN
  }
}
