/**
 * The 32-bit signed integer of C#, in the unchecked arithmetic that Unity
 * compiles scripts with: `lifetime--` on the smallest value wraps around to
 * the largest one instead of throwing.
 */
module CSharpInt {

  const Min: int := -0x8000_0000
  const Max: int := 0x7fff_ffff
  const Modulus: int := 0x1_0000_0000

  type Int32 = x: int | Min <= x <= Max

  /** The value of `x` reduced into the 32-bit range, as a wrapping cast does. */
  function Wrap(x: int): (r: Int32)
    ensures (x - r) % Modulus == 0
  {
    (x - Min) % Modulus + Min
  }

  /** `x - 1` in unchecked 32-bit arithmetic (the C# `x--`). */
  function Decrement(x: Int32): (r: Int32)
    ensures (x - 1 - r) % Modulus == 0
    ensures r < x <==> x != Min
  {
    if x == Min then Max else x - 1
  }

  /** Decrementing and then wrapping `x - j` is the same as wrapping `x - (j + 1)`. */
  lemma DecrementThenWrap(x: Int32, j: int)
    ensures Wrap(Decrement(x) - j) == Wrap(x - 1 - j)
  {
  }

  /** A value already in range is its own wrap. */
  lemma WrapInRange(x: int)
    requires Min <= x <= Max
    ensures Wrap(x) == x
  {
  }
}
