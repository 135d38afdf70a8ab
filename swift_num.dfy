/**
 * Swift's numeric conversions as the app uses them: `Int(x)` on a Double
 * truncates toward zero, Int `/` and `%` truncate toward zero (Dafny's own
 * `/` and `%` are Euclidean), and `truncatingRemainder(dividingBy:)` keeps
 * the sign of the dividend.
 */
module SwiftNum {

  /** `Int(x)` for a finite Double: drop the fraction, rounding toward zero. */
  function Trunc(x: real): (n: int)
    ensures x >= 0.0 ==> 0 <= n && n as real <= x < n as real + 1.0
    ensures x < 0.0 ==> n <= 0 && n as real - 1.0 < x <= n as real
  {
    if x >= 0.0 then x.Floor else -((-x).Floor)
  }

  /** Swift's `a / b` on Int for a positive divisor. */
  function Quot(a: int, b: int): (q: int)
    requires b > 0
    ensures a >= 0 ==> q >= 0 && q * b <= a < q * b + b
    ensures a < 0 ==> q <= 0 && q * b - b < a <= q * b
  {
    if a >= 0 then
      QuotBounds(a, b);
      a / b
    else
      QuotBounds(-a, b);
      -((-a) / b)
  }

  /** Euclidean division of a natural number: the quotient is the largest multiple not above it. */
  lemma QuotBounds(n: int, b: int)
    requires n >= 0 && b > 0
    ensures n / b >= 0 && (n / b) * b <= n < (n / b) * b + b
  {
    var q, r := n / b, n % b;
    assert n == q * b + r && 0 <= r < b;
  }

  /** Swift's `a % b` on Int for a positive divisor: same sign as `a`. */
  function Rem(a: int, b: int): (r: int)
    requires b > 0
    ensures a == Quot(a, b) * b + r
    ensures a >= 0 ==> 0 <= r < b
    ensures a < 0 ==> -b < r <= 0
  {
    a - Quot(a, b) * b
  }

  /** `x.truncatingRemainder(dividingBy: m)`: `x - m * Int(x / m)`. */
  function TruncRem(x: real, m: real): (r: real)
    requires m > 0.0
    ensures x >= 0.0 ==> 0.0 <= r < m
    ensures x < 0.0 ==> -m < r <= 0.0
  {
    var q := Trunc(x / m);
    assert x >= 0.0 ==> q as real * m <= x < q as real * m + m by {
      if x >= 0.0 { DivBounds(x, m, q); }
    }
    assert x < 0.0 ==> q as real * m - m < x <= q as real * m by {
      if x < 0.0 { DivBoundsNeg(x, m, q); }
    }
    x - m * q as real
  }

  lemma DivBounds(x: real, m: real, q: int)
    requires m > 0.0 && q as real <= x / m < q as real + 1.0
    ensures q as real * m <= x < q as real * m + m
  {
    ScaleBounds(x, x / m, m, q as real, q as real + 1.0);
  }

  lemma DivBoundsNeg(x: real, m: real, q: int)
    requires m > 0.0 && q as real - 1.0 < x / m <= q as real
    ensures q as real * m - m < x <= q as real * m
  {
    ScaleBounds(-x, -(x / m), m, -(q as real), -(q as real) + 1.0);
  }

  /** Multiplying `lo <= y < hi` by a positive `m`. */
  lemma ScaleBounds(x: real, y: real, m: real, lo: real, hi: real)
    requires m > 0.0 && x == y * m && lo <= y < hi
    ensures lo * m <= x < hi * m
  {
    assert x - lo * m == (y - lo) * m;
    assert hi * m - x == (hi - y) * m;
  }
}
