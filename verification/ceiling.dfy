/** Rounding up to the next whole currency unit, the role `kotlin.math.ceil`
    plays in the tip calculator. Amounts are exact reals rather than doubles. */
module Ceiling {

  /** True when `x` is a whole number. */
  predicate IsIntegral(x: real) {
    x == x.Floor as real
  }

  /** The least whole number that is not below `x`. */
  function Ceil(x: real): (r: real)
    ensures IsIntegral(r)
    ensures x <= r < x + 1.0
  {
    var f := (-x).Floor;
    assert (-f) as real == -(f as real);
    -(f as real)
  }

  /** Rounding up leaves a whole number where it is. */
  lemma CeilOfIntegral(n: real)
    requires IsIntegral(n)
    ensures Ceil(n) == n
  {
    assert -n == (-(n.Floor)) as real;
    assert (-n).Floor == -(n.Floor);
  }

  /** `Ceil(x)` is the least whole number at or above `x`: every whole number
      that bounds `x` from above also bounds `Ceil(x)`. */
  lemma CeilIsLeast(x: real, n: int)
    requires x <= n as real
    ensures Ceil(x) <= n as real
  {
    assert -(n as real) <= -x;
    assert -n <= (-x).Floor;
  }

  /** The two bounds pin the ceiling down: a whole number within one unit
      above `x` is `Ceil(x)`. */
  lemma CeilUnique(x: real, r: real)
    requires IsIntegral(r) && x <= r < x + 1.0
    ensures r == Ceil(x)
  {
    CeilIsLeast(x, r.Floor);
    var c := Ceil(x);
    assert c.Floor as real == c;
    assert r.Floor - 1 < c.Floor;
  }
}
