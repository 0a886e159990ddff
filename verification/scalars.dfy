/**
 * The custom GraphQL scalars the generated schemas use: ByteString,
 * Timestamp (an integer number of milliseconds) and Any, with their
 * coercion functions.
 */
module Scalars {
  import opened Wrappers
  import opened GoTypes
  import opened Timestamps

  /** The Any message: a type URL and the serialized payload. */
  datatype AnyMsg = AnyMsg(typeUrl: string, payload: seq<Byte>)

  /**
   * A Go `interface{}` handed to a coercion function, by dynamic type.
   * Floating-point values are not represented; `OtherValue` stands for a
   * value of any type the coercions do not name.
   */
  datatype GoValue =
    | GoBool(b: bool)
    | GoInt(i: Int64)
    | GoInt8(i8: Int8)
    | GoInt16(i16: Int16)
    | GoInt32(i32: Int32)
    | GoInt64(i64: Int64)
    | GoUint(u: Uint64)
    | GoUint8(u8: Uint8)
    | GoUint16(u16: Uint16)
    | GoUint32(u32: Uint32)
    | GoUint64(u64: Uint64)
    | GoString(str: seq<Byte>)
    | GoBytes(bytes: seq<Byte>)
    | TimestampRef(ts: Ts)
    | AnyRef(any: AnyMsg)
    | OtherValue

  /** A GraphQL literal from a query document, by AST node kind. */
  datatype AstValue = StringValue(text: string) | IntValue(digits: string) | OtherLiteral

  /** The result of coerceString: a string, or the `%v` rendering of some other value. */
  datatype Coerced = Text(bytes: seq<Byte>) | Printed(of: GoValue)

  /** Whether an integer fits GraphQL's 32-bit Int. */
  predicate FitsInt32(x: int)
  {
    MIN_INT32 <= x <= MAX_INT32
  }

  /** The mathematical value of a value of one of the fixed-size integer kinds (and of a bool, as 0 or 1). */
  function IntegerOf(v: GoValue): int
    requires v.GoBool? || v.GoInt8? || v.GoInt16? || v.GoInt32? || v.GoInt64?
      || v.GoUint8? || v.GoUint16? || v.GoUint32? || v.GoUint64?
  {
    match v
    case GoBool(b) => if b then 1 else 0
    case GoInt8(x) => x
    case GoInt16(x) => x
    case GoInt32(x) => x
    case GoInt64(x) => x
    case GoUint8(x) => x
    case GoUint16(x) => x
    case GoUint32(x) => x
    case GoUint64(x) => x
  }

  /** Serialize and ParseValue of ByteString: strings as they are, byte slices as the string of the same bytes. */
  function CoerceString(v: GoValue): (r: Coerced)
    ensures v.GoString? ==> r == Text(v.str)
    ensures v.GoBytes? ==> r == Text(v.bytes)
    ensures !v.GoString? && !v.GoBytes? ==> r == Printed(v)
  {
    match v
    case GoString(s) => Text(s)
    case GoBytes(b) => Text(b)
    case _ => Printed(v)
  }

  /**
   * Serialize and ParseValue of Timestamp. Narrow integers, bools and the
   * platform `int` come through as their value, a `uint` is reinterpreted as
   * a 64-bit `int`, `int64`, `uint32` and `uint64` must fit a 32-bit Int, a
   * Timestamp message gives its milliseconds, and anything else gives
   * nothing (never 0).
   */
  function CoerceInt(v: GoValue): (r: Option<int>)
    requires !v.GoString?
    ensures v.GoBool? || v.GoInt8? || v.GoInt16? || v.GoInt32? || v.GoUint8? || v.GoUint16? ==>
      r == Some(IntegerOf(v)) && FitsInt32(IntegerOf(v))
    ensures v.GoInt64? || v.GoUint32? || v.GoUint64? ==>
      r == (if FitsInt32(IntegerOf(v)) then Some(IntegerOf(v)) else None)
    ensures v.GoInt? ==> r == Some(v.i)
    ensures v.GoUint? ==> r == Some(Wrap64(v.u))
    ensures v.GoUint? ==> -TWO_63 <= r.value < TWO_63 && (r.value - v.u) % TWO_64 == 0 && (v.u < TWO_63 ==> r.value == v.u)
    ensures v.TimestampRef? ==> r == Some(v.ts.Millis())
    ensures v.GoBytes? || v.AnyRef? || v.OtherValue? ==> r == None
  {
    match v
    case GoBool(b) => if b then Some(1) else Some(0)
    case GoInt(x) => Some(x)
    case GoInt8(x) => Some(x)
    case GoInt16(x) => Some(x)
    case GoInt32(x) => Some(x)
    case GoInt64(x) => if x < MIN_INT32 || x > MAX_INT32 then None else Some(x)
    case GoUint(x) => Some(Wrap64(x))
    case GoUint8(x) => Some(x)
    case GoUint16(x) => Some(x)
    case GoUint32(x) => if x > MAX_INT32 then None else Some(x)
    case GoUint64(x) => if x > MAX_INT32 then None else Some(x)
    case TimestampRef(t) => Some(t.Millis())
    case _ => None
  }

  /** Every value CoerceInt range-checks or that is narrow by its type comes out as a 32-bit Int. */
  lemma CoerceIntFits(v: GoValue)
    requires !v.GoString? && !v.GoInt? && !v.GoUint? && !v.TimestampRef?
    ensures CoerceInt(v).Some? ==> FitsInt32(CoerceInt(v).value)
  {
  }

  /** Serialize and ParseValue of Any: the payload bytes of an Any message as a string, and nothing for anything else. */
  function CoerceAny(v: GoValue): (r: Option<seq<Byte>>)
    ensures r.Some? <==> v.AnyRef?
    ensures v.AnyRef? ==> r.value == v.any.payload
  {
    if v.AnyRef? then Some(v.any.payload) else None
  }

  /** ParseLiteral of ByteString and Any: the text of a string literal, and nothing for any other literal. */
  function StringParseLiteral(lit: AstValue): (r: Option<string>)
    ensures r.Some? <==> lit.StringValue?
    ensures lit.StringValue? ==> r.value == lit.text
  {
    if lit.StringValue? then Some(lit.text) else None
  }

  predicate IsDigit(c: char)
  {
    '0' <= c <= '9'
  }

  predicate AllDigits(s: string)
  {
    forall i :: 0 <= i < |s| ==> IsDigit(s[i])
  }

  /** The value of a string of decimal digits, most significant first. */
  function DigitsValue(s: string): (v: nat)
    requires AllDigits(s)
  {
    if s == [] then 0 else DigitsValue(s[..|s| - 1]) * 10 + (s[|s| - 1] as int - '0' as int)
  }

  /** The digits after an optional leading sign. */
  function Unsigned(s: string): string
  {
    if |s| > 0 && (s[0] == '+' || s[0] == '-') then s[1..] else s
  }

  /** Whether s has the shape Atoi accepts: an optional sign and at least one decimal digit. */
  predicate DecimalSyntax(s: string)
  {
    |Unsigned(s)| > 0 && AllDigits(Unsigned(s))
  }

  /** The value s denotes, for s of decimal shape. */
  function DecimalValue(s: string): int
    requires DecimalSyntax(s)
  {
    var v: int := DigitsValue(Unsigned(s));
    if s[0] == '-' then -v else v
  }

  /**
   * `strconv.Atoi` on a 64-bit platform: an optional sign followed by
   * decimal digits, whose value must fit an `int`.
   */
  function Atoi(s: string): (r: Option<Int64>)
    ensures r.Some? <==> DecimalSyntax(s) && -TWO_63 <= DecimalValue(s) < TWO_63
    ensures r.Some? ==> r.value == DecimalValue(s)
  {
    var digits := Unsigned(s);
    if |digits| == 0 then None
    else if !AllDigits(digits) then None
    else
      var v: int := DigitsValue(digits);
      var n := if s[0] == '-' then -v else v;
      if -TWO_63 <= n < TWO_63 then Some(n) else None
  }

  /** ParseLiteral of Timestamp: an integer literal whose digits Atoi accepts, and nothing otherwise. */
  function TimestampParseLiteral(lit: AstValue): (r: Option<Int64>)
    ensures r.Some? ==> lit.IntValue? && r == Atoi(lit.digits)
    ensures lit.IntValue? ==> r == Atoi(lit.digits)
  {
    if lit.IntValue? then Atoi(lit.digits) else None
  }

  /** The decimal digits of m, without leading zeros. */
  function NatDigits(m: nat): (s: string)
    ensures |s| > 0 && AllDigits(s)
  {
    var d := [('0' as int + m % 10) as char];
    if m < 10 then d else NatDigits(m / 10) + d
  }

  /** The decimal text of n, with a '-' when negative: how an integer literal is written. */
  function FormatInt(n: int): string
  {
    if n < 0 then "-" + NatDigits(-n) else NatDigits(n)
  }

  lemma {:induction false} NatDigitsValue(m: nat)
    ensures DigitsValue(NatDigits(m)) == m
  {
    var s := NatDigits(m);
    if m >= 10 {
      NatDigitsValue(m / 10);
      assert s[..|s| - 1] == NatDigits(m / 10);
    }
  }

  /** FormatInt writes decimal text denoting n. */
  lemma {:induction false} FormatIntDecimal(n: int)
    ensures DecimalSyntax(FormatInt(n)) && DecimalValue(FormatInt(n)) == n
  {
    var s := FormatInt(n);
    if n < 0 {
      var d := NatDigits(-n);
      NatDigitsValue(-n);
      assert s[0] == '-';
      assert Unsigned(s) == d;
    } else {
      var d := NatDigits(n);
      NatDigitsValue(n);
      assert IsDigit(d[0]);
      assert Unsigned(s) == d;
    }
  }

  /** Atoi reads back every `int` written in decimal. */
  lemma AtoiFormatInt(n: Int64)
    ensures Atoi(FormatInt(n)) == Some(n)
  {
    FormatIntDecimal(n);
  }
}
