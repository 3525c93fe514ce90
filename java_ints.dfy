/** Java's fixed-width integers and the operators of InputService whose
    meaning depends on them: `&` on an `int` button mask, `long`
    subtraction, unary minus on an `int` and `/`, which truncates toward zero. */
module JavaInts {

  /** A Java `int`. */
  type Int32 = x: int | -0x8000_0000 <= x < 0x8000_0000

  /** A Java `long`. */
  type Int64 = x: int | -0x8000_0000_0000_0000 <= x < 0x8000_0000_0000_0000

  function Abs(x: int): nat { if x < 0 then -x else x }

  /** `(mask & (1 << bit)) != 0` on a Java `int`: bit `bit` of the
      two's-complement representation of `mask`. */
  function ButtonPressed(mask: Int32, bit: nat): bool
    requires bit < 32
  {
    ((mask % 0x1_0000_0000) as bv32) & ((1 as bv32) << bit) != 0
  }

  /** The low bit of a 32-bit pattern is its parity. */
  lemma LowBitIsParity(u: int)
    requires 0 <= u < 0x1_0000_0000
    ensures (u as bv32) & 1 != 0 <==> u % 2 == 1
  {
  }

  /** Reducing modulo 2^32 keeps the parity. */
  lemma WrapKeepsParity(mask: Int32)
    ensures (mask % 0x1_0000_0000) % 2 == mask % 2
  {
    if mask < 0 {
      assert mask % 0x1_0000_0000 == mask + 0x1_0000_0000;
    }
  }

  /** The left button (bit 0) is down exactly when the mask is odd, negative
      masks included: the bit test agrees with integer arithmetic. */
  lemma ButtonOneIsOddMask(mask: Int32)
    ensures ButtonPressed(mask, 0) <==> mask % 2 == 1
  {
    LowBitIsParity(mask % 0x1_0000_0000);
    WrapKeepsParity(mask);
    assert (1 as bv32) << 0 == 1;
  }

  /** The result of Java `long` arithmetic whose exact value is `v`. */
  function WrapLong(v: int): (r: Int64)
    ensures (r - v) % 0x1_0000_0000_0000_0000 == 0
    ensures -0x8000_0000_0000_0000 <= v < 0x8000_0000_0000_0000 ==> r == v
  {
    (v + 0x8000_0000_0000_0000) % 0x1_0000_0000_0000_0000 - 0x8000_0000_0000_0000
  }

  /** The result of Java `int` arithmetic whose exact value is `v`. */
  function WrapInt(v: int): (r: Int32)
    ensures (r - v) % 0x1_0000_0000 == 0
    ensures -0x8000_0000 <= v < 0x8000_0000 ==> r == v
  {
    (v + 0x8000_0000) % 0x1_0000_0000 - 0x8000_0000
  }

  /** Java's integer division: the quotient is truncated toward zero, so
      the remainder is smaller than the divisor in magnitude and has the
      sign of the dividend (section 15.17.2 of the Java Language Specification). */
  function JavaDiv(a: int, b: int): (q: int)
    requires b != 0
    ensures Abs(a - q * b) < Abs(b)
    ensures a - q * b == 0 || (a - q * b < 0 <==> a < 0)
  {
    if a >= 0 && b > 0 then a / b
    else if a >= 0 then -(a / -b)
    else if b > 0 then -((-a) / b)
    else (-a) / (-b)
  }
}
