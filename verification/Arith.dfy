/** Division with remainder, for the index computations. */
module Arith {

  /** A multiple of p other than 0 is at least p away from 0. */
  lemma Multiple(x: int, p: int)
    requires p > 0
    ensures x >= 1 ==> x * p >= p
    ensures x <= -1 ==> x * p <= -p
    ensures x >= 0 ==> x * p >= 0
    ensures x == 0 ==> x * p == 0
  {
  }

  lemma ModUnique(x: int, d: int, q: int, r: int)
    requires 0 <= r < d && x == q * d + r
    ensures x % d == r && x / d == q
  {
    var p, m := x / d, x % d;
    assert x == p * d + m;
    assert (p - q) * d == r - m;
    Multiple(p - q, d);
  }

  /** A multiple of p below d * p is one of the first d. */
  lemma MultipleBelow(x: nat, d: int, p: nat)
    requires p > 0 && x % p == 0 && x < d * p
    ensures x / p < d && x == (x / p) * p
  {
    var q := x / p;
    assert x == q * p;
    assert (q - d) * p == q * p - d * p;
    Multiple(q - d, p);
  }

  lemma Doubled(q: int, p: int)
    ensures q * (2 * p) == 2 * (q * p)
  {
  }

  lemma OneChunkLess(length: int, n: int, k: int, last: int)
    requires n > 0 && k > 0 && last >= 0 && length == n * k + last
    ensures length >= k && length - k == (n - 1) * k + last
  {
    Multiple(n - 1, k);
    assert n * k == (n - 1) * k + k;
  }

  /** One unit of weight m outweighs less than m single ones. */
  lemma OutweighedBy(x: int, y: int, m: int, u: int, v: int)
    requires y < x && m > 0 && v < u + m
    ensures y * m + v < x * m + u
  {
    Multiple(x - y, m);
    assert (x - y) * m == x * m - y * m;
  }

  lemma DivMod(x: int, d: int)
    requires d > 0
    ensures x == (x / d) * d + x % d && 0 <= x % d < d
  {
  }

  /** Position l of row s in a grid of rows of length q. */
  lemma InGrid(s: nat, l: nat, rows: nat, q: nat)
    requires s < rows && l < q
    ensures 0 <= s * q + l < rows * q
  {
    Multiple(rows - s - 1, q);
    Multiple(s, q);
    assert rows * q == s * q + q + (rows - s - 1) * q;
  }

  lemma SameResidue(x: int, y: int, d: int)
    requires d > 0 && x % d == y % d && -d < x - y < d
    ensures x == y
  {
    var p, q := x / d, y / d;
    assert x == p * d + x % d && y == q * d + y % d;
    assert x - y == (p - q) * d;
    Multiple(p - q, d);
  }

  lemma NextMod(t: int, d: int)
    requires d > 0
    ensures (t + 1) % d == if t % d + 1 == d then 0 else t % d + 1
  {
    var q, r := t / d, t % d;
    assert t == q * d + r;
    if r + 1 == d {
      ModUnique(t + 1, d, q + 1, 0);
    } else {
      ModUnique(t + 1, d, q, r + 1);
    }
  }

  lemma DivAtLeast(x: int, d: int, m: int)
    requires d > 0 && m * d <= x
    ensures x / d >= m
  {
    var q := x / d;
    assert x == q * d + x % d;
    assert (m - q) * d <= x % d < d;
    Multiple(m - q, d);
  }

  lemma DivBelow(x: int, d: int, m: int)
    requires d > 0 && x < m * d
    ensures x / d < m
  {
  }

  lemma TimesMonotone(m: int, a: int, b: int)
    requires m >= 0 && a <= b
    ensures m * a <= m * b
  {
  }

  /** A sum may be reduced after every addition. */
  lemma ModAdd(x: int, y: int, m: int)
    requires m > 0
    ensures (x % m + y) % m == (x + y) % m
  {
    var z := x % m + y;
    var q, r := z / m, z % m;
    assert x == (x / m) * m + x % m;
    assert x + y == (x / m + q) * m + r;
    ModUnique(x + y, m, x / m + q, r);
  }

  /** Between two consecutive multiples, the next multiple is the upper end. */
  lemma NextMultiple(j: int, d: int, p: int)
    requires p > 0 && (d - 1) * p < j <= d * p
    ensures j % p == 0 <==> j == d * p
    ensures j == d * p ==> j < (d + 1) * p
    ensures j != d * p ==> j + 1 <= d * p
  {
    if j == d * p {
      ModUnique(j, p, d, 0);
    } else {
      assert (d - 1) * p == d * p - p;
      ModUnique(j, p, d - 1, j - (d - 1) * p);
    }
  }
}
