/** Facts about whole-number division by a variable. */
module Arithmetic {

  lemma ProductOrder(d: nat, a: int, b: int)
    requires a <= b
    ensures d * a <= d * b
  {
    assert d * (b - a) >= 0;
  }

  lemma FactorOrder(d: nat, a: int, b: int)
    requires d * a < d * b
    ensures a < b
  {
    if b <= a {
      ProductOrder(d, b, a);
    }
  }

  lemma QuotientOrder(a: nat, b: nat, d: nat)
    requires a <= b && d > 0
    ensures a / d <= b / d
  {
    var p, q := a / d, b / d;
    assert d * p <= a;
    assert b < d * (q + 1);
    FactorOrder(d, p, q + 1);
  }

  lemma QuotientUnique(a: nat, d: nat, q: nat, r: nat)
    requires d > 0 && a == d * q + r && r < d
    ensures a / d == q
  {
    var p := a / d;
    assert d * p <= a < d * (p + 1);
    FactorOrder(d, q, p + 1);
    FactorOrder(d, p, q + 1);
  }

  lemma ScaledQuotient(g: nat, x: nat, y: nat)
    requires g > 0 && y > 0
    ensures g * y > 0 && (g * x) / (g * y) == x / y
  {
    var q, r := x / y, x % y;
    assert x == y * q + r;
    assert g * x == (g * y) * q + g * r;
    ProductOrder(g, r + 1, y);
    ProductOrder(g, 1, y);
    QuotientUnique(g * x, g * y, q, g * r);
  }

  lemma FloorBounds(a: nat, d: nat)
    requires d > 0
    ensures d * (a / d) <= a < d * (a / d) + d
  {
  }

  /** The growth of a floor is below the rounded-up growth of its argument. */
  lemma FloorGrowth(d: nat, x: nat, y: nat)
    requires d > 0
    ensures 0 <= (x + y) / d - x / d && d * ((x + y) / d - x / d) < y + d
  {
    QuotientOrder(x, x + y, d);
    FloorBounds(x, d);
    FloorBounds(x + y, d);
  }

  lemma CeilOfSum(d: nat, x: nat, y: nat, p: nat, c: nat, e: nat)
    requires d * p <= x && d * c < y + d && x + y <= d * e
    ensures p + c <= e
  {
    assert d * (p + c) == d * p + d * c;
    assert d * (e + 1) == d * e + d;
    FactorOrder(d, p + c, e + 1);
  }
}
