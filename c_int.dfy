/** The C integer types of avr-gcc on the ATmega128RFA1 (`int` and `unsigned
    int` are 16 bits wide, `long` 32 bits) and C's truncating division. */
module CInt {

  type Int8 = x: int | -0x80 <= x < 0x80
  type UInt8 = x: int | 0 <= x < 0x100
  type Int16 = x: int | -0x8000 <= x < 0x8000
  type UInt16 = x: int | 0 <= x < 0x1_0000
  type UInt32 = x: int | 0 <= x < 0x1_0000_0000

  /** `INT_MIN` for a 16-bit `int`. */
  const INT_MIN: Int16 := -0x8000
  /** `USHRT_MAX`. */
  const USHRT_MAX: UInt16 := 0xFFFF

  /** Storing into an `unsigned char`. */
  function ToUInt8(x: int): (r: UInt8)
  {
    x % 0x100
  }

  /** The two's-complement 16-bit wrap of a signed `int` result. */
  function ToInt16(x: int): (r: Int16)
  {
    (x + 0x8000) % 0x1_0000 - 0x8000
  }

  /** Storing into an `unsigned short` or a 16-bit `unsigned int`. */
  function ToUInt16(x: int): (r: UInt16)
  {
    x % 0x1_0000
  }

  /** Storing into an `unsigned long`. */
  function ToUInt32(x: int): (r: UInt32)
  {
    x % 0x1_0000_0000
  }

  lemma Int16Exact(x: int)
    requires -0x8000 <= x < 0x8000
    ensures ToInt16(x) == x
  {
  }

  lemma UInt8Exact(x: int)
    requires 0 <= x < 0x100
    ensures ToUInt8(x) == x
  {
  }

  lemma UInt16Exact(x: int)
    requires 0 <= x < 0x1_0000
    ensures ToUInt16(x) == x
  {
  }

  lemma UInt32Exact(x: int)
    requires 0 <= x < 0x1_0000_0000
    ensures ToUInt32(x) == x
  {
  }

  /** `abs` on a value that fits. */
  function Abs(x: int): (r: nat)
    ensures r == x || r == -x
  {
    if x < 0 then -x else x
  }

  /** C's `a / b` for b > 0: the quotient truncated toward zero. */
  function CDiv(a: int, b: int): (r: int)
    requires b > 0
  {
    if a >= 0 then a / b else -((-a) / b)
  }

  /** C's `a % b` for b > 0: the remainder takes the sign of a. */
  function CRem(a: int, b: int): (r: int)
    requires b > 0
  {
    if a >= 0 then a % b else -((-a) % b)
  }

  /** C's division identity, with the remainder below b in magnitude and of
      the sign of the dividend. */
  lemma CDivRem(a: int, b: int)
    requires b > 0
    ensures b * CDiv(a, b) + CRem(a, b) == a
    ensures Abs(CRem(a, b)) < b
    ensures a >= 0 ==> 0 <= CRem(a, b) && CDiv(a, b) >= 0
    ensures a < 0 ==> CRem(a, b) <= 0 && CDiv(a, b) <= 0
  {
    if a < 0 {
      var q, r := (-a) / b, (-a) % b;
      assert -a == b * q + r && 0 <= r < b;
      DivNonneg(-a, b);
      assert b * -q == -(b * q);
      assert CDiv(a, b) == -q && CRem(a, b) == -r;
    } else {
      var q, r := a / b, a % b;
      assert a == b * q + r && 0 <= r < b;
      DivNonneg(a, b);
    }
  }

  lemma DivNonneg(a: int, b: int)
    requires a >= 0 && b > 0
    ensures a / b >= 0
  {
  }

  /** On negative dividends C and Dafny's Euclidean operators differ: -150 is
      -1 hundred and -50 in C, -2 hundreds and 50 in Dafny. */
  lemma CDivDiffersFromEuclidean()
    ensures CDiv(-150, 100) == -1 && CRem(-150, 100) == -50
    ensures -150 / 100 == -2 && -150 % 100 == 50
  {
  }
}
