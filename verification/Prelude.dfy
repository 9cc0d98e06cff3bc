/** Small shared vocabulary: optional values and Go's fixed-width integer arithmetic. */
module Prelude {

  datatype Option<+T> = None | Some(value: T)

  const MAX_INT32: int := 0x7fff_ffff
  const MIN_INT32: int := -0x8000_0000
  const MAX_INT64: int := 0x7fff_ffff_ffff_ffff
  const MIN_INT64: int := -0x8000_0000_0000_0000

  /** Nanoseconds in a second; Go durations are int64 nanosecond counts. */
  const SECOND: int := 1_000_000_000

  type int32 = x: int | MIN_INT32 <= x <= MAX_INT32
  type int64 = x: int | MIN_INT64 <= x <= MAX_INT64

  /** Two's-complement wrap-around of an int32 result. */
  function Wrap32(x: int): int32 {
    (x + 0x8000_0000) % 0x1_0000_0000 - 0x8000_0000
  }

  /** Two's-complement wrap-around of an int64 result. */
  function Wrap64(x: int): int64 {
    (x + 0x8000_0000_0000_0000) % 0x1_0000_0000_0000_0000 - 0x8000_0000_0000_0000
  }

  /** The difference of two instants as Go's Time.Sub gives it: saturating, never wrapping. */
  function Elapsed(later: int, earlier: int): int64 {
    if later - earlier > MAX_INT64 then MAX_INT64
    else if later - earlier < MIN_INT64 then MIN_INT64
    else later - earlier
  }

  function Digits(n: nat): (s: string)
    ensures s != []
  {
    (if n < 10 then "" else Digits(n / 10)) + ["0123456789"[n % 10]]
  }

  /** The decimal form of a number. */
  function Itoa(n: int): string { if n < 0 then "-" + Digits(-n) else Digits(n) }
}
