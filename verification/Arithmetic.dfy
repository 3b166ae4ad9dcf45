/** Quotients and remainders by a variable divisor. */
module Arithmetic {

  lemma ModAddsMultiple(k: nat, c: nat, r: nat)
    requires c > 0
    ensures (k * c + r) % c == r % c
    decreases k
  {
    if k > 0 {
      ModAddsMultiple(k - 1, c, r);
      var x := (k - 1) * c + r;
      assert k * c + r == x + c;
      AddOneMultiple(x, c);
    }
  }

  lemma AddOneMultiple(x: nat, c: nat)
    requires c > 0
    ensures (x + c) % c == x % c
  {
    assert x == x / c * c + x % c;
    assert x + c == (x / c + 1) * c + x % c;
    QuotientIs(x + c, x / c + 1, c, x % c);
  }

  lemma QuotientIs(x: nat, q: nat, c: nat, r: nat)
    requires c > 0 && r < c && x == q * c + r
    ensures x % c == r && x / c == q
  {
    var q', r' := x / c, x % c;
    assert x == q' * c + r';
    assert (q - q') * c == r' - r;
    NoSmallMultiple(q - q', c);
  }

  /** A multiple of c strictly between -c and c is zero. */
  lemma NoSmallMultiple(k: int, c: nat)
    requires c > 0 && 0 < k * c + c && k * c < c
    ensures k == 0
  {
  }

  lemma NearbyDiffer(c: nat, i: nat, j: nat)
    requires i < j < i + c
    ensures i % c != j % c
  {
    var a, r, d := i / c, i % c, j - i;
    assert i == a * c + r;
    if r + d < c {
      QuotientIs(j, a, c, r + d);
    } else {
      assert (a + 1) * c == a * c + c;
      QuotientIs(j, a + 1, c, r + d - c);
    }
  }

  lemma WholePart(n: nat, c: nat)
    requires c > 0
    ensures (n - n % c) % c == 0
  {
    assert n - n % c == n / c * c + 0;
    QuotientIs(n - n % c, n / c, c, 0);
  }

  /** One step of a quotient and its remainder. */
  lemma DivSucc(x: nat, c: nat)
    requires c > 0
    ensures x % c == c - 1 ==> (x + 1) / c == x / c + 1 && (x + 1) % c == 0
    ensures x % c != c - 1 ==> (x + 1) / c == x / c && (x + 1) % c == x % c + 1
  {
    assert x == x / c * c + x % c;
    if x % c == c - 1 {
      assert (x / c + 1) * c == x / c * c + c;
      QuotientIs(x + 1, x / c + 1, c, 0);
    } else {
      QuotientIs(x + 1, x / c, c, x % c + 1);
    }
  }

  lemma DivAddsMultiple(m: nat, c: nat, x: nat)
    requires c > 0
    ensures (m * c + x) / c == m + x / c
    ensures (m * c + x) % c == x % c
  {
    var q, r := x / c, x % c;
    assert x == q * c + r;
    assert (m + q) * c == m * c + q * c;
    QuotientIs(m * c + x, m + q, c, r);
  }

  /** A step shorter than the divisor crosses at most one multiple of it. */
  lemma DivNearby(x: nat, c: nat, d: nat)
    requires 0 < d < c
    ensures x % c + d < c ==> (x + d) / c == x / c && (x + d) % c == x % c + d
    ensures x % c + d >= c ==> (x + d) / c == x / c + 1 && (x + d) % c == x % c + d - c
  {
    var q, r := x / c, x % c;
    assert x == q * c + r;
    if r + d < c {
      QuotientIs(x + d, q, c, r + d);
    } else {
      assert (q + 1) * c == q * c + c;
      QuotientIs(x + d, q + 1, c, r + d - c);
    }
  }
}
