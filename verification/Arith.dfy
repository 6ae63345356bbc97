/** Facts about products, floor and ceiling division that the solver does not find alone. */
module Arith {

  function CeilDiv(a: int, d: int): int
    requires d > 0
  {
    (a + d - 1) / d
  }

  lemma DivFloor(a: int, d: int)
    requires d > 0
    ensures d * (a / d) <= a < d * (a / d) + d
  {
  }

  lemma MulMonotone(d: int, x: int, y: int)
    requires d >= 0 && x <= y
    ensures d * x <= d * y
  {
  }

  /** The quotient is the only q with d*q <= a < d*q + d. */
  lemma DivUnique(a: int, d: int, q: int)
    requires d > 0 && d * q <= a < d * q + d
    ensures a / d == q
  {
    var c := a / d;
    DivFloor(a, d);
    assert d * (q + 1) == d * q + d && d * (c + 1) == d * c + d;
    if c >= q + 1 {
      MulMonotone(d, q + 1, c);
    } else if q >= c + 1 {
      MulMonotone(d, c + 1, q);
    }
  }

  /** floor(a/d) reaches q exactly when a reaches d*q. */
  lemma DivAtLeast(a: int, d: int, q: int)
    requires d > 0
    ensures a / d >= q <==> a >= d * q
  {
    var c := a / d;
    DivFloor(a, d);
    assert d * (c + 1) == d * c + d;
    if c >= q {
      MulMonotone(d, q, c);
    } else {
      MulMonotone(d, c + 1, q);
    }
  }

  /** ceil(a/d) stays within q exactly when a stays within d*q. */
  lemma CeilAtMost(a: int, d: int, q: int)
    requires d > 0
    ensures CeilDiv(a, d) <= q <==> a <= d * q
  {
    DivAtLeast(a + d - 1, d, q + 1);
    assert d * (q + 1) == d * q + d;
  }

  /** The floor of a negated dividend is the negated ceiling. */
  lemma FloorOfNegation(a: int, d: int)
    requires d > 0
    ensures (-a) / d == -CeilDiv(a, d)
    ensures a / d <= CeilDiv(a, d) <= a / d + 1
  {
    var c := CeilDiv(a, d);
    DivFloor(a + d - 1, d);
    assert d * (-c) == -(d * c);
    DivUnique(-a, d, -c);
    DivFloor(a, d);
    CeilAtMost(a, d, a / d + 1);
    assert d * (a / d + 1) == d * (a / d) + d;
    DivAtLeast(a + d - 1, d, a / d);
  }

  lemma CeilDivSubadditive(a: int, b: int, d: int)
    requires d > 0 && a >= 0 && b >= 0
    ensures CeilDiv(a, d) + CeilDiv(b, d) >= CeilDiv(a + b, d)
    ensures CeilDiv(a, d) >= 0
  {
    var x, y := CeilDiv(a, d), CeilDiv(b, d);
    CeilAtMost(a, d, x);
    CeilAtMost(b, d, y);
    assert d * (x + y) == d * x + d * y;
    CeilAtMost(a + b, d, x + y);
    DivAtLeast(a + d - 1, d, 0);
  }
}
