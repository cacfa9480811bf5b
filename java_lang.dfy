/**
 * The pieces of Java's value semantics the clients and PositionInfo rely on:
 * fixed-width integers with two's-complement wrap-around, and the decimal
 * rendering of a non-negative number (String.valueOf) used for Content-Length.
 */
module JavaLang {

  const TWO_32: int := 0x1_0000_0000
  const TWO_64: int := 0x1_0000_0000_0000_0000

  /** Java `int`. */
  type int32 = x: int | -0x8000_0000 <= x < 0x8000_0000
  /** Java `long`. */
  type int64 = x: int | -0x8000_0000_0000_0000 <= x < 0x8000_0000_0000_0000
  /** The range of UnsignedIntegerFourBytes. */
  type uint32 = x: int | 0 <= x < 0x1_0000_0000

  const INTEGER_MAX_VALUE: int32 := 0x7FFF_FFFF

  /** The `int` a Java `int` operation yields for the mathematical value x. */
  function Wrap32(x: int): (r: int32)
    ensures (r - x) % TWO_32 == 0
    ensures -0x8000_0000 <= x < 0x8000_0000 ==> r == x
  {
    var m := x % TWO_32;
    if m < 0x8000_0000 then m else m - TWO_32
  }

  /** The `long` a Java `long` operation yields for the mathematical value x. */
  function Wrap64(x: int): (r: int64)
    ensures (r - x) % TWO_64 == 0
    ensures -0x8000_0000_0000_0000 <= x < 0x8000_0000_0000_0000 ==> r == x
  {
    var m := x % TWO_64;
    if m < 0x8000_0000_0000_0000 then m else m - TWO_64
  }

  predicate IsDigit(c: char) {
    '0' <= c <= '9'
  }

  predicate AllDigits(s: string) {
    forall i :: 0 <= i < |s| ==> IsDigit(s[i])
  }

  function Digit(d: nat): (c: char)
    requires d < 10
    ensures IsDigit(c)
  {
    ('0' as int + d) as char
  }

  /** String.valueOf of a non-negative number: its decimal digits, most significant first, no leading zeros. */
  function Decimal(n: nat): (s: string)
    ensures |s| > 0 && AllDigits(s)
    ensures |s| > 1 ==> s[0] != '0'
  {
    if n < 10 then [Digit(n)] else Decimal(n / 10) + [Digit(n % 10)]
  }

  /** The number a string of decimal digits denotes (how a receiver reads a Content-Length value). */
  function ParseDecimal(s: string): nat
    requires AllDigits(s)
  {
    if s == [] then 0 else ParseDecimal(s[..|s| - 1]) * 10 + (s[|s| - 1] as int - '0' as int)
  }

  /** Reading back a rendered number gives the number: the Content-Length a client writes denotes the length it measured. */
  lemma {:induction false} DecimalRoundTrip(n: nat)
    ensures ParseDecimal(Decimal(n)) == n
  {
    if n >= 10 {
      var s := Decimal(n);
      assert s[..|s| - 1] == Decimal(n / 10);
      DecimalRoundTrip(n / 10);
    }
  }
}
