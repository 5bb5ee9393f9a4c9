/** Small facts about integer multiplication and Euclidean division used by several modules. */
module Arith {

  /** Multiplying by a non-negative factor is monotone. */
  lemma MulMonotone(d: int, x: int, y: int)
    requires d >= 0 && x <= y
    ensures d * x <= d * y && x * d <= y * d
  {
  }

  /** Multiplying by a positive factor preserves strict order, so it can be cancelled. */
  lemma MulCancelLess(d: int, x: int, y: int)
    requires d > 0 && x * d < y * d
    ensures x < y
  {
    if x >= y {
      MulMonotone(d, y, x);
    }
  }

  /** Division is determined by the division equation: `a == d * q + r` with `0 <= r < d`. */
  lemma DivUnique(a: int, d: int, q: int, r: int)
    requires d > 0 && 0 <= r < d && a == d * q + r
    ensures a / d == q && a % d == r
  {
    var q' := a / d;
    var r' := a % d;
    assert a == d * q' + r';
    if q' > q {
      assert d * q' >= d * (q + 1) by { MulMonotone(d, q + 1, q'); }
    } else if q' < q {
      assert d * q >= d * (q' + 1) by { MulMonotone(d, q' + 1, q); }
    }
  }

  /** Floor division twice is floor division by the product: `(a / b) / c == a / (b * c)`. */
  lemma NestedDiv(a: int, b: int, c: int)
    requires b > 0 && c > 0
    ensures b * c > 0
    ensures (a / b) / c == a / (b * c)
  {
    var q1, r1 := a / b, a % b;
    var q2, r2 := q1 / c, q1 % c;
    MulMonotone(b, 1, c);
    MulMonotone(b, r2, c - 1);
    assert b * (c * q2 + r2) == (b * c) * q2 + b * r2;
    assert b * (c - 1) == b * c - b;
    DivUnique(a, b * c, q2, b * r2 + r1);
  }
}
