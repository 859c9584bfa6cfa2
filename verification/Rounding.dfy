/** `Number.prototype.toFixed` over exact numbers: nearest multiple of a power of
    ten, halves away from zero. Amounts are reals, so binary rounding is not
    part of this model. */
module Rounding {

  /** The nearest integer, halves away from zero. */
  function Units(y: real): (n: int)
    ensures -0.5 <= n as real - y <= 0.5
  {
    if y >= 0.0 then (y + 0.5).Floor else -((0.5 - y).Floor)
  }

  function Abs(x: real): real {
    if x >= 0.0 then x else -x
  }

  function Max(x: real, y: real): real {
    if x >= y then x else y
  }

  function Min(x: real, y: real): real {
    if x <= y then x else y
  }

  /** The number of cents in `x.toFixed(2)`. */
  function Cents(x: real): int {
    Units(x * 100.0)
  }

  function To2(x: real): real {
    Cents(x) as real / 100.0
  }

  function To3(x: real): real {
    Units(x * 1000.0) as real / 1000.0
  }

  function To4(x: real): real {
    Units(x * 10000.0) as real / 10000.0
  }

  /** Rounding never reverses an order. */
  lemma UnitsMonotone(x: real, y: real)
    requires x <= y
    ensures Units(x) <= Units(y)
  {
    if x < 0.0 <= y {
      assert Units(x) <= 0;
    }
  }

  /** Integers are left alone, and nothing else reaches an integer from half a unit away. */
  lemma UnitsOfInt(n: int)
    ensures Units(n as real) == n
  {
  }

  /** A negative amount is rounded like the positive one: halves go away from zero. */
  lemma UnitsSymmetric(y: real)
    ensures Units(-y) == -Units(y)
    ensures y >= 0.0 ==> Units(y) as real - y > -0.5
  {
  }

  lemma To2Monotone(x: real, y: real)
    requires x <= y
    ensures To2(x) <= To2(y)
  {
    UnitsMonotone(x * 100.0, y * 100.0);
  }

  /** A whole number of cents survives `toFixed(2)`. */
  lemma To2Fixed(n: int)
    ensures To2(n as real / 100.0) == n as real / 100.0
  {
    assert n as real / 100.0 * 100.0 == n as real;
    UnitsOfInt(n);
  }

  lemma To2Near(x: real)
    ensures Abs(To2(x) - x) <= 0.005
  {
  }

  lemma To3Near(x: real)
    ensures Abs(To3(x) - x) <= 0.0005
  {
  }
}
