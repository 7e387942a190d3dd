/** `Decimal.quantize` with ROUND_HALF_UP, on fractions: the nearest integer, ties away from zero. */
module Rounding {

  function HalfUp(num: int, den: int): (r: int)
    requires den > 0
    ensures (2 * r - 1) * den <= 2 * num <= (2 * r + 1) * den
    ensures 2 * num == (2 * r - 1) * den ==> num > 0
    ensures 2 * num == (2 * r + 1) * den ==> num < 0
  {
    if num >= 0 then
      Nearest(num, den);
      (2 * num + den) / (2 * den)
    else
      Nearest(-num, den);
      Mirrored((2 * -num + den) / (2 * den), den);
      -((2 * -num + den) / (2 * den))
  }

  lemma Quotient(n: int, d: int)
    requires 0 <= n && 0 < d
    ensures n / d * d <= n < n / d * d + d
  {
  }

  lemma Nearest(n: int, d: int)
    requires 0 <= n && 0 < d
    ensures var q := (2 * n + d) / (2 * d); (2 * q - 1) * d <= 2 * n < (2 * q + 1) * d && (n == 0 ==> q == 0)
  {
    var q := (2 * n + d) / (2 * d);
    Quotient(2 * n + d, 2 * d);
    assert q * (2 * d) == 2 * (q * d);
    assert (2 * q - 1) * d == 2 * (q * d) - d && (2 * q + 1) * d == 2 * (q * d) + d;
    if n == 0 {
      if q >= 1 {
        Scale(1, q, d);
      } else if q <= -1 {
        Scale(q, -1, d);
      }
    }
  }

  lemma Mirrored(q: int, d: int)
    ensures (2 * -q - 1) * d == -((2 * q + 1) * d) && (2 * -q + 1) * d == -((2 * q - 1) * d)
  {
  }

  lemma Scale(a: int, b: int, c: int)
    requires a <= b && 0 <= c
    ensures a * c <= b * c
  {
  }

  lemma ScaleStrictly(a: int, b: int, c: int)
    requires a < b && 0 < c
    ensures a * c < b * c
  {
  }

  /** The rounding is the only integer within half a unit, ties away from zero. */
  lemma HalfUpIs(num: int, den: int, r: int)
    requires den > 0
    requires (2 * r - 1) * den <= 2 * num <= (2 * r + 1) * den
    requires 2 * num == (2 * r - 1) * den ==> num > 0
    requires 2 * num == (2 * r + 1) * den ==> num < 0
    ensures HalfUp(num, den) == r
  {
    var h := HalfUp(num, den);
    if h < r {
      Scale(2 * h + 1, 2 * r - 1, den);
    } else if r < h {
      Scale(2 * r + 1, 2 * h - 1, den);
    }
  }

  /** A whole number of units is left alone. */
  lemma HalfUpExact(k: int, den: int)
    requires den > 0
    ensures HalfUp(k * den, den) == k
  {
    ScaleStrictly(2 * k - 1, 2 * k, den);
    ScaleStrictly(2 * k, 2 * k + 1, den);
    HalfUpIs(k * den, den, k);
  }

  /** Rounding keeps the order of fractions: n1/d1 <= n2/d2. */
  lemma HalfUpMonotone(n1: int, d1: int, n2: int, d2: int)
    requires d1 > 0 && d2 > 0 && n1 * d2 <= n2 * d1
    ensures HalfUp(n1, d1) <= HalfUp(n2, d2)
  {
    var r1, r2 := HalfUp(n1, d1), HalfUp(n2, d2);
    if r2 < r1 {
      var m := 2 * r1 - 1;
      Scale(2 * r2 + 1, m, d2);
      Between(n1, d1, n2, d2, m);
      if r1 >= 1 {
        ScaleStrictly(0, 2 * r2 + 1, d2);
      } else {
        ScaleStrictly(m, 0, d1);
      }
    }
  }

  /** If m/2 separates two fractions from the wrong side, both equal it. */
  lemma Between(n1: int, d1: int, n2: int, d2: int, m: int)
    requires d1 > 0 && d2 > 0 && n1 * d2 <= n2 * d1
    requires m * d1 <= 2 * n1 && 2 * n2 <= m * d2
    ensures 2 * n1 == m * d1 && 2 * n2 == m * d2
  {
    Scale(m * d1, 2 * n1, d2);
    Scale(2 * n2, m * d2, d1);
    assert m * d1 * d2 == m * d2 * d1;
    if m * d1 < 2 * n1 {
      ScaleStrictly(m * d1, 2 * n1, d2);
    }
    if 2 * n2 < m * d2 {
      ScaleStrictly(2 * n2, m * d2, d1);
    }
  }
}
