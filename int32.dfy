/**
 * C# `int` arithmetic. The builder's depth counters are 32-bit integers and the
 * compiler adds them in an unchecked context, so a sum that leaves the range wraps around.
 */
module Int32 {

  const MinValue: int := -0x8000_0000
  const MaxValue: int := 0x7fff_ffff
  const Modulus: int := 0x1_0000_0000

  /** The values of a C# `int`. */
  type Int32 = x: int | MinValue <= x <= MaxValue

  /** Unchecked `a + b`: the mathematical sum, reduced modulo 2^32 into the `int` range. */
  function Add(a: Int32, b: Int32): (r: Int32)
    ensures MinValue <= a + b <= MaxValue ==> r == a + b
    ensures a + b > MaxValue ==> r == a + b - Modulus
    ensures a + b < MinValue ==> r == a + b + Modulus
  {
    (a + b - MinValue) % Modulus + MinValue
  }

  /** `x++` followed by `x--` gives `x` back, even across the wrap-around. */
  lemma IncrementThenDecrement(x: Int32)
    ensures Add(Add(x, 1), -1) == x
  {
  }
}
