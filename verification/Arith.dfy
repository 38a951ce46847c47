/** The few facts about products, quotients and floors that the solver does not find unaided. */
module Arith {

  lemma MulLe(a: int, b: int, w: int)
    requires a <= b && 0 <= w
    ensures a * w <= b * w
  {
    assert (b - a) * w >= 0;
  }

  lemma RealMulLe(a: real, b: real, w: real)
    requires a <= b && 0.0 <= w
    ensures a * w <= b * w
  {
    assert (b - a) * w >= 0.0;
  }

  lemma RealMulLt(a: real, b: real, w: real)
    requires a < b && 0.0 < w
    ensures a * w < b * w
  {
    assert (b - a) * w > 0.0;
  }

  lemma DivModOf(q: int, r: int, n: int)
    requires 0 <= r < n
    ensures (q * n + r) / n == q && (q * n + r) % n == r
  {
    var k := q * n + r;
    var p := k / n;
    assert k == n * p + k % n;
    if p < q {
      MulLe(p + 1, q, n);
    } else if q < p {
      MulLe(q + 1, p, n);
    }
  }

  lemma QuotientBounds(m: nat, b: nat)
    requires 1 <= b <= m
    ensures 1 <= m / b && b * (m / b) <= m < b * (m / b) + b
  {
    assert m == b * (m / b) + m % b;
  }

  /** `k <= i / s` without the division. */
  lemma DivGe(i: nat, s: int, k: int)
    requires s >= 1
    ensures k * s <= i <==> k <= i / s
  {
    var y := i / s;
    assert i == s * y + i % s;
    if k <= y {
      MulLe(k, y, s);
    } else {
      MulLe(y + 1, k, s);
    }
  }

  lemma CastProduct(a: int, b: int)
    ensures a as real * b as real == (a * b) as real
  {
  }

  /** A floored quotient compared with k, without the division. */
  lemma FloorBelow(t: real, w: nat, k: int)
    requires 1 <= w
    ensures (t / w as real).Floor < k <==> t < (k * w) as real
  {
    var wr, kr := w as real, k as real;
    var q := t / wr;
    assert q * wr == t;
    CastProduct(k, w);
    if q < kr {
      RealMulLt(q, kr, wr);
    } else {
      RealMulLe(kr, q, wr);
    }
  }

  /** Cell (x, y) of a row-major array with rows of length n, and the row and column of a cell. */
  lemma RowMajor(x: int, y: int, n: int, rows: int)
    requires 0 <= x < n && 0 <= y < rows
    ensures 0 <= y * n + x < rows * n
    ensures (y * n + x) / n == y && (y * n + x) % n == x
  {
    DivModOf(y, x, n);
    MulLe(y + 1, rows, n);
    MulLe(0, y, n);
  }

  lemma RowMajorInverse(k: nat, n: int, rows: int)
    requires n > 0 && k < rows * n
    ensures 0 <= k % n < n && 0 <= k / n < rows && k == (k / n) * n + k % n
  {
    DivGe(k, n, rows);
    DivGe(k, n, 0);
  }
}
