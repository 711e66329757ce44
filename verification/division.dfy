/** Facts about quotients and remainders. */
module Division {

  lemma DivIs(r: nat, q: nat, k: nat)
    requires q > 0 && k * q <= r < (k + 1) * q
    ensures r / q == k
  {
    var d := r / q;
    assert r == d * q + r % q;
    if d < k {
      MulMonotone(d + 1, k, q);
    } else if d > k {
      MulMonotone(k + 1, d, q);
    }
  }

  lemma MulMonotone(a: nat, b: nat, q: nat)
    requires a <= b
    ensures a * q <= b * q
  {
  }

  lemma SameMod(x: int, k: int, q: nat)
    requires q > 0
    ensures (x + k * q) % q == x % q
  {
    var a, b := x / q, (x + k * q) / q;
    assert x == a * q + x % q;
    assert x + k * q == b * q + (x + k * q) % q;
    assert (a + k) * q == a * q + k * q;
    var d := b - a - k;
    assert d * q == b * q - (a + k) * q;
    assert -(q as int) < d * q < q;
    if d > 0 {
      MulMonotone(1, d, q);
    } else if d < 0 {
      MulMonotone(1, -d, q);
    }
  }

  lemma SmallMod(x: nat, q: nat)
    requires x < q
    ensures x % q == x
  {
  }

  lemma ModIs(x: nat, s: nat, q: nat, r: nat)
    requires s > 0 && r < s && x == q * s + r
    ensures x % s == r && x / s == q
  {
    assert (q + 1) * s == q * s + s;
    DivIs(x, s, q);
  }

  lemma Distribute(a: int, b: int, q: int)
    ensures (a + b) * q == a * q + b * q
  {
  }

  lemma MulDifference(a: int, b: int, q: int)
    ensures (a - b) * q == a * q - b * q
  {
  }

  lemma Associate(a: int, b: int, c: int)
    ensures (a * b) * c == a * (b * c)
  {
  }

  lemma Swap(a: int, b: int)
    ensures a * b == b * a
  {
  }

  lemma DivMod(x: int, q: nat)
    requires q > 0
    ensures x == x / q * q + x % q && 0 <= x % q < q
  {
  }
}
