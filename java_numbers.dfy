/**
 * Java's fixed-width integer types and the two narrowing casts the tile code uses,
 * written out on unbounded integers.
 */
module JavaNumbers {

  const INT_MIN: int := -0x8000_0000
  const INT_MAX: int := 0x7FFF_FFFF

  type Byte = z: int | -0x80 <= z < 0x80
  type Int32 = x: int | -0x8000_0000 <= x < 0x8000_0000
  type Long = x: int | -0x8000_0000_0000_0000 <= x < 0x8000_0000_0000_0000

  /** 2^n, the value `Math.pow(2, n)` has for a non-negative integral exponent. */
  function Pow2(n: nat): (p: nat)
    ensures p >= 1
  {
    if n == 0 then 1 else 2 * Pow2(n - 1)
  }

  lemma {:induction false} Pow2Monotone(a: nat, b: nat)
    requires a <= b
    ensures Pow2(a) <= Pow2(b)
  {
    if a < b {
      Pow2Monotone(a, b - 1);
    }
  }

  lemma Pow2Of31()
    ensures Pow2(31) == INT_MAX + 1
  {
    assert Pow2(8) == 0x100;
    assert Pow2(16) == 0x1_0000;
    assert Pow2(24) == 0x100_0000;
  }

  /** `(int) v` for a `long` v: keeps the low 32 bits, read as two's complement. */
  function WrapToInt32(v: int): (r: Int32)
    ensures (r - v) % 0x1_0000_0000 == 0
    ensures INT_MIN <= v <= INT_MAX ==> r == v
  {
    (v + 0x8000_0000) % 0x1_0000_0000 - 0x8000_0000
  }

  /** `(int) d` for a double d holding an integral value: clamps to the int range. */
  function SaturateToInt32(v: int): (r: Int32)
    ensures INT_MIN <= v <= INT_MAX ==> r == v
    ensures v > INT_MAX ==> r == INT_MAX
    ensures v < INT_MIN ==> r == INT_MIN
  {
    if v > INT_MAX then INT_MAX else if v < INT_MIN then INT_MIN else v
  }
}
