/** Integer and real helpers shared by every part of the visualizer model:
    the 8-bit byte, C's unsigned size_t subtraction, and the float-to-integer
    conversions the C and Swift code rely on (truncation, roundf, clamping). */
module Numeric {

  /** An unsigned 8-bit value: a canvas byte, a palette component, a spectrum bin. */
  type Byte = b: int | 0 <= b < 256

  /** 2^64, the modulus of size_t arithmetic on the 64-bit targets the program is built for. */
  const SizeModulus: int := 0x1_0000_0000_0000_0000

  /** A value representable as a size_t. */
  predicate IsSize(v: int) { 0 <= v < SizeModulus }

  /** The unsigned difference `a - b` of two size_t values, which wraps around when b > a. */
  function SizeSub(a: nat, b: nat): (r: nat)
    requires IsSize(a) && IsSize(b)
    ensures IsSize(r)
    ensures a >= b ==> r == a - b
    ensures a < b ==> r == SizeModulus - (b - a)
  {
    (a - b) % SizeModulus
  }

  /** The conversion of a signed integer to `size_t`: the value modulo 2^64, so that a
      negative value wraps to the top of the range. */
  function AsSize(v: int): (r: nat)
    ensures IsSize(r)
    ensures IsSize(v) ==> r == v
    ensures -SizeModulus <= v < 0 ==> r == SizeModulus + v
  {
    v % SizeModulus
  }

  /** pi, to the precision of the C constants MILKY_PI and M_PI. */
  const Pi: real := 3.14159265358979

  function Min(a: int, b: int): (r: int)
    ensures r <= a && r <= b && (r == a || r == b)
  {
    if a < b then a else b
  }

  function Max(a: int, b: int): (r: int)
    ensures r >= a && r >= b && (r == a || r == b)
  {
    if a < b then b else a
  }

  function Abs(v: int): (r: nat)
    ensures r == v || r == -v
  {
    if v < 0 then -v else v
  }

  function AbsR(v: real): (r: real)
    ensures r >= 0.0 && (r == v || r == -v)
  {
    if v < 0.0 then -v else v
  }

  lemma MulAtLeast(d: int, b: int)
    requires d >= 1 && b > 0
    ensures d * b >= b
  {
    assert d * b == (d - 1) * b + b;
  }

  /** Division is determined by the quotient-remainder decomposition. */
  lemma DivModUnique(a: int, b: int, q: int, r: int)
    requires b > 0 && 0 <= r < b && a == q * b + r
    ensures a / b == q && a % b == r
  {
    var q', r' := a / b, a % b;
    assert (q - q') * b == r' - r;
    if q > q' {
      MulAtLeast(q - q', b);
    } else if q < q' {
      MulAtLeast(q' - q, b);
    }
  }

  /** C's and Swift's float-to-integer conversion: truncation toward zero. */
  function Trunc(x: real): (r: int)
    ensures x >= 0.0 ==> r >= 0 && r as real <= x < r as real + 1.0
    ensures x < 0.0 ==> r <= 0 && r as real - 1.0 < x <= r as real
  {
    if x >= 0.0 then x.Floor else -((-x).Floor)
  }

  /** C's `roundf`: nearest integer, halfway cases rounded away from zero. */
  function RoundF(x: real): (r: int)
    ensures x - 0.5 <= r as real <= x + 0.5
    ensures r as real - x == 0.5 ==> x > 0.0
    ensures x - r as real == 0.5 ==> x < 0.0
  {
    if x >= 0.0 then (x + 0.5).Floor else -((0.5 - x).Floor)
  }

  /** Clamping of an integer into [0, 255]: `max(0, min(255, v))`. */
  function ClampByte(v: int): (r: Byte)
    ensures 0 <= v <= 255 ==> r == v
    ensures v < 0 ==> r == 0
    ensures v > 255 ==> r == 255
  {
    if v < 0 then 0 else if v > 255 then 255 else v
  }

  /** The conversion `(uint8_t)v` of a float to an 8-bit byte. C leaves values outside
      [0, 256) undefined; the model keeps the low eight bits of the truncated value,
      which is what the common targets produce. */
  function FloatToUint8(v: real): (r: Byte)
    ensures 0.0 <= v < 256.0 ==> r == v.Floor
  {
    Trunc(v) % 256
  }
}
