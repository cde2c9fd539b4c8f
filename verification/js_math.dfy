/** The rounding primitives of JavaScript's `Math`, over exact reals.
    IEEE-754 double behaviour is not modelled. */
module JsMath {

  /** `Math.round(x)`: the nearest integer, with halves rounded toward +infinity. */
  function Round(x: real): (r: int)
    ensures r as real - 0.5 <= x < r as real + 0.5
  {
    (x + 0.5).Floor
  }

  /** `Math.ceil(x)`: the least integer that is not below `x`. */
  function Ceil(x: real): (r: int)
    ensures x <= r as real < x + 1.0
  {
    -((-x).Floor)
  }

  /** Rounding never reverses the order of its arguments. */
  lemma RoundMonotone(x: real, y: real)
    requires x <= y
    ensures Round(x) <= Round(y)
  {
  }

  /** Rounding leaves integers unchanged. */
  lemma RoundOfInt(n: int)
    ensures Round(n as real) == n
  {
  }

  /** The ceiling of `a / b` for a positive `b` is the least `m` with `m * b >= a`. */
  lemma CeilDivision(a: int, b: int)
    requires b > 0
    ensures Ceil(a as real / b as real) * b >= a
    ensures (Ceil(a as real / b as real) - 1) * b < a
  {
    var q := a as real / b as real;
    var m := Ceil(q);
    LeastMultiple(a, b, q, m);
  }

  lemma LeastMultiple(a: int, b: int, q: real, m: int)
    requires b > 0 && q * (b as real) == a as real
    requires q <= m as real < q + 1.0
    ensures m * b >= a && (m - 1) * b < a
  {
    var d := q - (m as real - 1.0);
    assert d > 0.0;
    MultiplyPositive(d, b as real);
    assert (m as real - 1.0) * (b as real) == a as real - d * (b as real);
    var e := m as real - q;
    assert e >= 0.0;
    MultiplyNonNegative(e, b as real);
    assert (m as real) * (b as real) == a as real + e * (b as real);
    assert ((m - 1) * b) as real == (m as real - 1.0) * (b as real);
    assert (m * b) as real == (m as real) * (b as real);
  }

  lemma MultiplyPositive(x: real, y: real)
    requires x > 0.0 && y > 0.0
    ensures x * y > 0.0
  {
  }

  lemma MultiplyNonNegative(x: real, y: real)
    requires x >= 0.0 && y >= 0.0
    ensures x * y >= 0.0
  {
  }
}
