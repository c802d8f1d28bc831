/** Go's fixed-width integers, as far as conversions between them cut values off, and its floats, as
    symbols: no rounding is modelled. */
module GoNumbers {

  const TWO_TO_16 := 0x1_0000
  const TWO_TO_32 := 0x1_0000_0000
  const TWO_TO_63 := 0x8000_0000_0000_0000
  const TWO_TO_64 := 0x1_0000_0000_0000_0000
  const MAX_INT64 := 0x7fff_ffff_ffff_ffff
  const MIN_INT64 := -0x8000_0000_0000_0000

  /** `int64(x)`: the low 64 bits, as a signed number. */
  function ToInt64(x: int): int {
    var low := x % TWO_TO_64;
    if low >= TWO_TO_63 then low - TWO_TO_64 else low
  }

  /** `int32(x)`. */
  function ToInt32(x: int): int {
    var low := x % TWO_TO_32;
    if low >= 0x8000_0000 then low - TWO_TO_32 else low
  }

  /** `uint16(x)`. */
  function ToUint16(x: int): nat {
    x % TWO_TO_16
  }

  /** `uint32(x)`. */
  function ToUint32(x: int): nat {
    x % TWO_TO_32
  }

  /** A float64 of the input: finite (named by its bits), NaN, or an infinity. */
  datatype Float = Finite(bits: nat) | NaN | Inf(negative: bool)

  /** A float64: one of the input, or the conversion of an integer. */
  datatype F64 = Given(f: Float) | OfInt(i: int)

  /** The value of a point or exemplar; `NoNumber` is one that was never set. */
  datatype Number = IntNumber(i: int) | DoubleNumber(f: F64) | NoNumber
}
