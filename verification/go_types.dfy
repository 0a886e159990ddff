/**
 * Go's fixed-width integers and the conversions between them that the
 * modelled code performs (`uint64(v)`, `int64(u)`, `int(u)`, integer `/`).
 */
module GoTypes {

  const TWO_63: int := 0x8000_0000_0000_0000
  const TWO_64: int := 0x1_0000_0000_0000_0000
  const MIN_INT32: int := -0x8000_0000
  const MAX_INT32: int := 0x7FFF_FFFF

  type Int8 = x: int | -0x80 <= x < 0x80
  type Int16 = x: int | -0x8000 <= x < 0x8000
  type Int32 = x: int | -0x8000_0000 <= x < 0x8000_0000
  type Int64 = x: int | -0x8000_0000_0000_0000 <= x < 0x8000_0000_0000_0000
  type Uint8 = x: int | 0 <= x < 0x100
  type Uint16 = x: int | 0 <= x < 0x1_0000
  type Uint32 = x: int | 0 <= x < 0x1_0000_0000
  type Uint64 = x: int | 0 <= x < 0x1_0000_0000_0000_0000

  /** A byte of a Go string or byte slice. */
  type Byte = x: int | 0 <= x < 0x100

  /**
   * The value handed to a `Scan(src interface{})` method by database/sql,
   * restricted to the integer types the modelled Scan methods name.
   * `DOther` stands for a value of any type none of the cases name.
   */
  datatype DriverValue = DInt(i: Int64) | DInt32(i32: Int32) | DInt64(i: Int64) | DOther

  /** The signed 64-bit value carried by an integer driver value. */
  function DriverInt(src: DriverValue): (v: Int64)
    requires !src.DOther?
    ensures src.DInt32? ==> v == src.i32
    ensures src.DInt? || src.DInt64? ==> v == src.i
  {
    match src
    case DInt(i) => i
    case DInt32(i) => i
    case DInt64(i) => i
  }

  /** Go's `uint64(v)` for a signed integer: two's-complement reinterpretation. */
  function ToUint64(v: int): (u: Uint64)
    ensures 0 <= v < TWO_64 ==> u == v
    ensures -TWO_63 <= v < 0 ==> u == v + TWO_64
  {
    v % TWO_64
  }

  /** Go's `int64(u)` for a `uint64`: two's-complement reinterpretation. */
  function ToInt64(u: Uint64): (v: Int64)
    ensures v >= 0 <==> u < TWO_63
    ensures (v - u) % TWO_64 == 0
  {
    if u < TWO_63 then u else u - TWO_64
  }

  /** Wrap-around of an unbounded integer into Go's `int64` (and 64-bit `int`). */
  function Wrap64(x: int): (v: Int64)
    ensures (v - x) % TWO_64 == 0
  {
    ((x + TWO_63) % TWO_64) - TWO_63
  }

  /** Go's integer division, which truncates toward zero. */
  function TruncDiv(a: int, b: int): (q: int)
    requires b > 0
    ensures a >= 0 ==> 0 <= a - q * b < b
    ensures a < 0 ==> -b < a - q * b <= 0
  {
    if a >= 0 then a / b else -((-a) / b)
  }

  /** `uint64(int64(u))` gives back every `uint64` unchanged: `Scan(Value())` restores a bitmap. */
  lemma UintIntRoundTrip(u: Uint64)
    ensures ToUint64(ToInt64(u)) == u
  {
  }

  /** `int64(uint64(v))` gives back every `int64` unchanged. */
  lemma IntUintRoundTrip(v: Int64)
    ensures ToInt64(ToUint64(v)) == v
  {
  }

  /** Wrap64 is the identity on values already inside the `int64` range. */
  lemma Wrap64Identity(x: int)
    requires -TWO_63 <= x < TWO_63
    ensures Wrap64(x) == x
  {
    assert (x + TWO_63) % TWO_64 == x + TWO_63;
  }
}
