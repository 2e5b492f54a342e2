/** Facts about integer multiplication and Euclidean division that the solver needs spelled out. */
module Arithmetic {

  lemma MulMonotone(b: int, x: int, y: int)
    requires b >= 0 && x <= y
    ensures b * x <= b * y
  {
    assert b * y - b * x == b * (y - x);
  }

  /** A quotient is fixed by bracketing the dividend between two multiples. */
  lemma DivBracket(a: int, b: int, q: int)
    requires b > 0 && b * q <= a < b * q + b
    ensures a / b == q
  {
    var k := a / b;
    assert a == b * k + a % b;
    if k > q {
      MulMonotone(b, q + 1, k);
    } else if k < q {
      MulMonotone(b, k + 1, q);
    }
  }

  /** Quotient and remainder are determined by any decomposition with a remainder in range. */
  lemma ModBracket(a: int, b: int, q: int, r: int)
    requires b > 0 && a == b * q + r && 0 <= r < b
    ensures a / b == q && a % b == r
  {
    DivBracket(a, b, q);
  }

  lemma DivMonotone(a: int, c: int, b: int)
    requires b > 0 && a <= c
    ensures a / b <= c / b
  {
    var k, l := a / b, c / b;
    assert a == b * k + a % b;
    assert c == b * l + c % b;
    if k > l {
      MulMonotone(b, l + 1, k);
    }
  }
}
