/** Division and powers of two, as far as bit masks and byte-wise sums need them. */
module Arithmetic {
  function Power2(n: nat): (r: nat)
    ensures r > 0
  {
    if n == 0 then 1 else 2 * Power2(n - 1)
  }

  lemma Distribute(a: nat, x: nat, y: nat)
    ensures a * (x + y) == a * x + a * y
  {
  }

  lemma MulGap(d: nat, x: nat, y: nat)
    requires x < y
    ensures d * x + d <= d * y
  {
    Distribute(d, x, y - x);
    Distribute(d, 1, y - x - 1);
  }

  lemma DivUnique(n: nat, d: nat, q: nat, r: nat)
    requires n == d * q + r && r < d
    ensures n / d == q
  {
    if n / d != q {
      MulGap(d, if n / d < q then n / d else q, if n / d < q then q else n / d);
    }
  }

  lemma Reassociate(a: nat, b: nat, q: nat)
    ensures a * (b * q) == (a * b) * q
  {
  }

  lemma DivNested(n: nat, a: nat, b: nat, x: nat, m: nat, q: nat, r: nat)
    requires n == a * x + m && m < a && x == b * q + r && r < b
    ensures a * b > 0 && n / (a * b) == q
  {
    Distribute(a, b * q, r);
    Reassociate(a, b, q);
    MulGap(a, r, b);
    DivUnique(n, a * b, q, a * r + m);
  }

  lemma DivTwice(n: nat, a: nat, b: nat)
    requires a > 0 && b > 0
    ensures a * b > 0 && n / (a * b) == (n / a) / b
  {
    DivNested(n, a, b, n / a, n % a, (n / a) / b, (n / a) % b);
  }

  lemma DivAddsMultiple(p: nat, c: nat, b: nat)
    requires p > 0
    ensures (p * c + b) / p == c + b / p
  {
    Distribute(p, c, b / p);
    DivUnique(p * c + b, p, c + b / p, b % p);
  }

  lemma Associate(p: nat, w: nat, hi: nat)
    ensures p * (2 * (w * hi)) == (p * (2 * w)) * hi
  {
  }

  lemma EvenShift(x: nat, y: nat)
    ensures (2 * x + y) % 2 == y % 2
  {
  }

  lemma {:induction false} PowerAdds(a: nat, b: nat)
    ensures Power2(a + b) == Power2(a) * Power2(b)
    decreases a
  {
    if a > 0 {
      PowerAdds(a - 1, b);
      assert Power2(a) * Power2(b) == 2 * (Power2(a - 1) * Power2(b));
    }
  }

  lemma EightBits()
    ensures Power2(8) == 256 && Power2(1) == 2
  {
    assert Power2(3) == 8 && Power2(6) == 64;
  }
}
