/** Facts about products, quotients and remainders that the solver does not find on its own. */
module Arithmetic {
  lemma DivIs(x: nat, d: nat, k: nat)
    requires d > 0
    ensures x / d == k <==> d * k <= x < d * k + d
  {
    assert x == d * (x / d) + x % d;
    if d * k <= x < d * k + d {
      var j := x / d;
      assert d * (j - k) == d * j - d * k;
      if j < k {
        MulMono(j + 1, k, d);
      } else if j > k {
        MulMono(k + 1, j, d);
      }
    }
  }

  lemma MulMono(a: nat, b: nat, d: nat)
    requires a <= b
    ensures d * a <= d * b
  {
  }

  lemma Assoc(a: int, b: int, c: int)
    ensures (a * b) * c == a * (b * c)
  {
  }

  lemma Distr(a: int, b: int, c: int)
    ensures a * (b + c) == a * b + a * c && a * (b - c) == a * b - a * c
    ensures (b + c) * a == b * a + c * a && (b - c) * a == b * a - c * a
  {
  }

  lemma Swap(a: int, b: int)
    ensures a * b == b * a
  {
  }

  lemma MulNat(a: nat, b: nat)
    ensures a * b >= 0
  {
  }

  lemma MulLess(d: nat, a: int, b: int)
    requires a < b
    ensures d * a + d <= d * b
  {
    var k := b - a - 1;
    Distr(d, a + 1, k);
    Distr(d, a, 1);
    MulNat(d, k);
  }

  lemma ModRange(x: int, d: nat)
    requires d > 0
    ensures 0 <= x % d < d && x == d * (x / d) + x % d
  {
  }

  lemma ModIs(x: nat, d: nat, z: int, r: nat)
    requires d > 0 && x == d * z + r && r < d
    ensures x % d == r
  {
    if z < 0 {
      MulLess(d, z, 0);
      assert false;
    }
    DivIs(x, d, z);
  }
}
