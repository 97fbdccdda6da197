/** Facts about integer multiplication, division and remainder that the
    board iteration and the turn rotation rely on. */
module Arith {
  lemma {:induction false} MulMonotone(a: nat, b: nat, m: nat)
    requires a <= b
    ensures a * m <= b * m
    decreases b - a
  {
    if a < b {
      MulMonotone(a + 1, b, m);
      assert (a + 1) * m == a * m + m;
    }
  }

  /** Index k of a list of n blocks of width w lies in block k / w, at
      offset k % w. */
  lemma DivBelow(k: nat, w: nat, n: nat)
    requires w > 0 && k < n * w
    ensures k / w < n && k % w < w && (k / w) * w + k % w == k
  {
    var c := k / w;
    assert c * w + k % w == k;
    if c >= n {
      MulMonotone(n, c, w);
    }
  }

  /** The remainder is determined by any decomposition with a remainder in
      range. */
  lemma ModUnique(y: int, q: int, r: int, m: int)
    requires m > 0 && 0 <= r < m && y == q * m + r
    ensures y % m == r
  {
    var q', r' := y / m, y % m;
    assert y == q' * m + r';
    assert (q - q') * m == r' - r;
    if q > q' {
      MulMonotone(1, q - q', m);
    } else if q < q' {
      MulMonotone(1, q' - q, m);
    }
  }

  lemma ModAdd(a: nat, b: nat, m: nat)
    requires m > 0
    ensures ((a % m) + b) % m == (a + b) % m
  {
    var r := (a + b) % m;
    assert a + b == ((a + b) / m) * m + r;
    assert a == (a / m) * m + a % m;
    assert a % m + b == ((a + b) / m - a / m) * m + r;
    ModUnique(a % m + b, (a + b) / m - a / m, r, m);
  }
}
