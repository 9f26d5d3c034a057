/**
  The machine types of the simulation: 8- and 32-bit integers, C#'s truncating
  integer division, and single-precision floats kept as their bit patterns.
  No floating-point arithmetic is modelled; where the source computes with
  floats, the model takes the result from a supplied function.
 */
module Numeric {

  type Byte = x: int | 0 <= x < 0x100
  type UInt32 = x: int | 0 <= x < 0x1_0000_0000
  type Int32 = x: int | -0x8000_0000 <= x < 0x8000_0000

  const MaxInt32: int := 0x7FFF_FFFF

  /** An IEEE-754 single, as the 32 bits the save format stores. */
  datatype Single = Single(bits: UInt32)

  /** An IEEE-754 double (what Random.NextDouble returns), as its 64 bits. */
  datatype Double = Double(bits: nat)

  /** WalkerSim's Vector3 (three singles). */
  datatype Vector3 = Vector3(x: Single, y: Single, z: Single)

  const ZeroSingle: Single := Single(0)
  const ZeroVector: Vector3 := Vector3(ZeroSingle, ZeroSingle, ZeroSingle)

  /** The two's-complement bit pattern of a signed 32-bit integer. */
  function ToUnsigned(x: Int32): (u: UInt32)
    ensures ToSigned(u) == x
    ensures x >= 0 <==> u < 0x8000_0000
  {
    if x < 0 then x + 0x1_0000_0000 else x
  }

  /** The signed 32-bit integer a bit pattern stands for. */
  function ToSigned(u: UInt32): (x: Int32)
    ensures x < 0 <==> u >= 0x8000_0000
  {
    if u < 0x8000_0000 then u else u - 0x1_0000_0000
  }

  /** Reading a bit pattern back as a signed value and re-encoding it is the identity. */
  lemma UnsignedRoundTrip(u: UInt32)
    ensures ToUnsigned(ToSigned(u)) == u
  {
  }

  function Abs(x: int): nat
  {
    if x < 0 then -x else x
  }

  /** C#'s `a / b` on int: the quotient truncated toward zero. */
  function CsDiv(a: int, b: int): int
    requires b != 0
  {
    if (a < 0) == (b < 0) then Abs(a) / Abs(b) else -(Abs(a) / Abs(b))
  }

  /** C#'s `a % b` on int: the remainder takes the sign of the dividend. */
  function CsRem(a: int, b: int): int
    requires b != 0
  {
    a - b * CsDiv(a, b)
  }

  /** Truncating division and remainder fit together the way C# promises. */
  lemma CsDivRem(a: int, b: int)
    requires b != 0
    ensures a == b * CsDiv(a, b) + CsRem(a, b)
    ensures Abs(CsRem(a, b)) < Abs(b)
    ensures CsRem(a, b) != 0 ==> (CsRem(a, b) < 0 <==> a < 0)
    ensures Abs(b) * Abs(CsDiv(a, b)) <= Abs(a)
  {
    if b > 0 {
      PositiveDivisor(a, b);
    } else {
      PositiveDivisor(a, -b);
      assert CsDiv(a, b) == -CsDiv(a, -b);
      assert b * CsDiv(a, b) == (-b) * CsDiv(a, -b);
    }
  }

  /** Truncating division by a positive divisor, in terms of the magnitudes. */
  lemma PositiveDivisor(a: int, b: int)
    requires b > 0
    ensures a == b * CsDiv(a, b) + CsRem(a, b)
    ensures CsRem(a, b) == if a < 0 then -(Abs(a) % b) else Abs(a) % b
    ensures b * Abs(CsDiv(a, b)) <= Abs(a)
  {
    if a < 0 {
      NegativeDividend(a, b);
    } else {
      NonNegativeDividend(a, b);
    }
  }

  /** A non-negative dividend: the quotient and the remainder are Euclid's. */
  lemma NonNegativeDividend(a: int, b: int)
    requires a >= 0 && b > 0
    ensures CsRem(a, b) == a % b
    ensures b * Abs(CsDiv(a, b)) <= a
  {
    var q, m := a / b, a % b;
    assert a == b * q + m && 0 <= m < b && q >= 0;
    assert CsDiv(a, b) == q && Abs(CsDiv(a, b)) == q;
  }

  /** A negative dividend: the quotient and the remainder both flip sign. */
  lemma NegativeDividend(a: int, b: int)
    requires a < 0 && b > 0
    ensures CsRem(a, b) == -((-a) % b)
    ensures b * Abs(CsDiv(a, b)) <= -a
  {
    var q, m := (-a) / b, (-a) % b;
    assert -a == b * q + m && 0 <= m < b && q >= 0;
    assert CsDiv(a, b) == -q && Abs(CsDiv(a, b)) == q;
    assert b * -q == -(b * q);
  }

  /** On a non-negative dividend and a positive divisor C# and Dafny agree. */
  lemma CsDivNonNegative(a: int, b: int)
    requires a >= 0 && b > 0
    ensures CsDiv(a, b) == a / b && CsRem(a, b) == a % b
  {
  }
}
