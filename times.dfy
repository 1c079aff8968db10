/** Go's time.Time and time.Duration as far as the encoder looks at them. */
module Times {

  import opened Wrappers

  newtype int64 = x: int | -0x8000_0000_0000_0000 <= x < 0x8000_0000_0000_0000

  /** A point in time: None is the zero time (IsZero), Some(ns) a non-zero
      time whose UnixNano is ns. */
  type Time = Option<int64>

  /** A time.Duration: a signed count of nanoseconds. */
  type Duration = int64

  /** The divisor 1000*1000 that turns nanoseconds into milliseconds. */
  const NanosPerMilli: int := 1000 * 1000

  /** Go's integer division, which truncates toward zero (Dafny's `/` is
      Euclidean and rounds negative quotients down instead). */
  function TruncDiv(a: int, b: int): (q: int)
    requires b > 0
    ensures 0 <= a ==> 0 <= q && 0 <= a - q * b < b
    ensures a < 0 ==> q <= 0 && -b < a - q * b <= 0
  {
    if a >= 0 then a / b else -((-a) / b)
  }

  /** Nanoseconds to whole milliseconds, truncated toward zero; the result
      fits the int64 that IntField takes. */
  function Millis(ns: int64): (ms: int)
    ensures -0x8000_0000_0000_0000 <= ms < 0x8000_0000_0000_0000
  {
    TruncDiv(ns as int, NanosPerMilli)
  }
}
