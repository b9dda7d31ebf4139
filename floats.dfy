/** Real numbers extended with "not a number", the way pandas columns hold them.

    `None` stands for NaN: a rolling value still inside its warm-up window, or
    the result of a division by zero. Every ordered comparison that involves
    `None` is false, exactly as every comparison with NaN is false in Python. */
module Floats {

  datatype Option<+T> = None | Some(value: T)

  type Float = Option<real>

  predicate Lt(a: Float, b: Float) { a.Some? && b.Some? && a.value < b.value }
  predicate Le(a: Float, b: Float) { a.Some? && b.Some? && a.value <= b.value }
  predicate Gt(a: Float, b: Float) { Lt(b, a) }
  predicate Ge(a: Float, b: Float) { Le(b, a) }

  /** Division; a zero denominator gives NaN. The callers below say why an
      infinite quotient (non-zero over zero) behaves like NaN where they use it. */
  function Div(a: real, b: real): (q: Float)
    ensures q.Some? <==> b != 0.0
    ensures q.Some? ==> q.value * b == a
  {
    if b == 0.0 then None else Some(a / b)
  }

  /** A percentage `num / den * 100`, NaN when `den` is zero. */
  function Percent(num: real, den: real): (p: Float)
    ensures p.Some? <==> den != 0.0
    ensures p.Some? ==> p.value * den == num * 100.0
  {
    if den == 0.0 then None else Some(num / den * 100.0)
  }

  lemma SignOfQuotient(a: real, b: real)
    requires b > 0.0 && a * b >= 0.0
    ensures a >= 0.0
  {
  }

  /** Python's int() on a float: truncation toward zero (not Dafny's floor). */
  function Trunc(x: real): (n: int)
    ensures x >= 0.0 ==> n as real <= x < n as real + 1.0
    ensures x < 0.0 ==> n as real - 1.0 < x <= n as real
  {
    if x >= 0.0 then x.Floor else -((-x).Floor)
  }
}
