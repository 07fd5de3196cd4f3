/**
 * Java's 32-bit `int`: the range of the type and the wrap-around of `+` and unary `-`.
 */
module JavaInt {

  const MinInt: int := -0x8000_0000
  const MaxInt: int := 0x7FFF_FFFF
  const Modulus: int := 0x1_0000_0000

  predicate IsInt(x: int) {
    MinInt <= x <= MaxInt
  }

  /** The `int` that a mathematical result wraps to: the one congruent to it modulo 2^32. */
  function Wrap(x: int): (r: int)
    ensures IsInt(r)
    ensures IsInt(x) ==> r == x
    ensures (x - r) % Modulus == 0
  {
    var q := (x - MinInt) / Modulus;
    var r := x - q * Modulus;
    assert (x - r) % Modulus == 0 by {
      assert x - r == q * Modulus;
    }
    r
  }

  /** `a + b` on Java ints. */
  function Add(a: int, b: int): (r: int)
    ensures IsInt(r)
    ensures IsInt(a + b) ==> r == a + b
  {
    Wrap(a + b)
  }

  /** `a * b` on Java ints. */
  function Mul(a: int, b: int): (r: int)
    ensures IsInt(r)
    ensures IsInt(a * b) ==> r == a * b
  {
    Wrap(a * b)
  }

  /** `-a` on Java ints (the negation of `Integer.MIN_VALUE` is itself). */
  function Neg(a: int): (r: int)
    ensures IsInt(r)
    ensures IsInt(-a) ==> r == -a
  {
    Wrap(-a)
  }
}
