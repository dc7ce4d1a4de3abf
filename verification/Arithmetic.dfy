// Products and quotients, one fact at a time.

module Arithmetic {

  function Least(a: nat, b: nat): nat {
    if a < b then a else b
  }

  // ---- integers ----

  lemma NegativeTimes(a: int, t: int)
    requires a < 0 && t > 0
    ensures a * t < 0
  {
  }

  lemma Distribute(a: int, b: int, c: int)
    ensures a * (b + c) == a * b + a * c && (b + c) * a == b * a + c * a
  {
  }

  // ---- rationals ----

  lemma RealNonNegative(a: real, b: real)
    requires a >= 0.0 && b >= 0.0
    ensures a * b >= 0.0
  {
  }

  lemma RealNegative(a: real, b: real)
    requires a < 0.0 && b > 0.0
    ensures a * b < 0.0
  {
  }

  lemma UnitQuotient(a: real, b: real)
    requires 0.0 <= a <= b && b > 0.0
    ensures 0.0 <= a / b <= 1.0 && (a / b == 1.0 <==> a == b)
  {
    var q := a / b;
    assert q * b == a;
    if q < 0.0 { RealNegative(q, b); }
  }

  lemma QuotientGrows(a: real, b: real, n: real)
    requires a <= b && n > 0.0
    ensures a / n <= b / n
  {
    var x, y := a / n, b / n;
    assert x * n == a && y * n == b;
  }
}
