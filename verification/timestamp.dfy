/**
 * The protobuf Timestamp message (whole seconds since the Unix epoch plus
 * nanoseconds) with its range check, its database Scan/Value hooks and its
 * conversion to milliseconds.
 */
module Timestamps {
  import opened Wrappers
  import opened GoTypes

  /** Seconds of 0001-01-01T00:00:00Z, the earliest valid timestamp. */
  const MIN_VALID_SECONDS: int := -62135596800
  /** Seconds of 10000-01-01T00:00:00Z, just after the latest valid timestamp. */
  const MAX_VALID_SECONDS: int := 253402300800
  const NANOS_PER_SECOND: int := 1_000_000_000
  const NANOS_PER_MILLI: int := 1_000_000

  /** Why Validate rejects a timestamp. */
  datatype TimestampError = BeforeMinimum | AfterMaximum | NanosOutOfRange

  /** The value of a Timestamp message. */
  datatype Ts = Ts(seconds: Int64, nanos: Int32)
  {
    /** The documented range of a timestamp. */
    predicate InRange()
    {
      MIN_VALID_SECONDS <= seconds < MAX_VALID_SECONDS && 0 <= nanos < NANOS_PER_SECOND
    }

    /**
     * The checks run in order (too early, too late, nanos out of range) and
     * the first that fails names the error.
     */
    function Validate(): (r: Option<TimestampError>)
      ensures r.None? <==> InRange()
      ensures r == Some(BeforeMinimum) <==> seconds < MIN_VALID_SECONDS
      ensures r == Some(AfterMaximum) <==> MIN_VALID_SECONDS <= seconds && seconds >= MAX_VALID_SECONDS
      ensures r == Some(NanosOutOfRange) <==>
        MIN_VALID_SECONDS <= seconds < MAX_VALID_SECONDS && !(0 <= nanos < NANOS_PER_SECOND)
    {
      if seconds < MIN_VALID_SECONDS then Some(BeforeMinimum)
      else if seconds >= MAX_VALID_SECONDS then Some(AfterMaximum)
      else if nanos < 0 || nanos >= NANOS_PER_SECOND then Some(NanosOutOfRange)
      else None
    }

    /**
     * `Seconds*1000 + int64(Nanos/1e6)` in `int64` arithmetic: the product
     * and the sum wrap around, and the division truncates toward zero.
     * For a timestamp in range nothing wraps, and the result is the
     * millisecond the timestamp falls in.
     */
    function Millis(): (r: Int64)
      ensures (r - (seconds * 1000 + TruncDiv(nanos, NANOS_PER_MILLI))) % TWO_64 == 0
      ensures InRange() ==> r == seconds * 1000 + nanos / NANOS_PER_MILLI
      ensures InRange() ==> seconds * 1000 <= r <= seconds * 1000 + 999
    {
      var millis := Wrap64(seconds * 1000);
      var r := Wrap64(millis + TruncDiv(nanos, NANOS_PER_MILLI));
      if InRange() then
        Wrap64Identity(seconds * 1000);
        Wrap64Identity(millis + TruncDiv(nanos, NANOS_PER_MILLI));
        r
      else
        r
    }
  }

  /** A Timestamp message, updated in place by Scan. */
  class Timestamp {
    var seconds: Int64
    var nanos: Int32

    constructor(seconds: Int64, nanos: Int32)
      ensures this.seconds == seconds && this.nanos == nanos
    {
      this.seconds := seconds;
      this.nanos := nanos;
    }

    /** The value the message currently holds. */
    function Current(): Ts
      reads this
    {
      Ts(seconds, nanos)
    }

    /**
     * An integer from the database replaces the seconds and keeps the
     * nanoseconds; any other value changes nothing. Either way the result
     * is the validation of what the message then holds.
     */
    method Scan(src: DriverValue) returns (err: Option<TimestampError>)
      modifies this
      ensures !src.DOther? ==> seconds == DriverInt(src)
      ensures src.DOther? ==> seconds == old(seconds)
      ensures nanos == old(nanos)
      ensures err == Current().Validate()
    {
      match src {
        case DInt(v) => seconds := v;
        case DInt32(v) => seconds := v;
        case DInt64(v) => seconds := v;
        case DOther =>
      }
      err := Current().Validate();
    }

    /** The error half of Value: the validation of the current value. */
    function ValueError(): (err: Option<TimestampError>)
      reads this
      ensures err.None? <==> Current().InRange()
    {
      Current().Validate()
    }
  }

  /** Millis preserves order between valid timestamps, with the seconds deciding first. */
  lemma {:induction false} MillisMonotone(a: Ts, b: Ts)
    requires a.InRange() && b.InRange()
    requires a.seconds < b.seconds || (a.seconds == b.seconds && a.nanos <= b.nanos)
    ensures a.Millis() <= b.Millis()
  {
    if a.seconds == b.seconds {
      DivMonotone(a.nanos, b.nanos, NANOS_PER_MILLI);
    }
  }

  lemma DivMonotone(x: nat, y: nat, d: nat)
    requires x <= y && d > 0
    ensures x / d <= y / d
  {
    var qx, qy := x / d, y / d;
    if qx > qy {
      MulMono(qy + 1, qx, d);
      assert false;
    }
  }

  lemma MulMono(a: nat, b: nat, d: nat)
    requires a <= b
    ensures a * d <= b * d
  {
  }
}
