/** Division and power-of-two facts the bit-packing proofs rest on. */
module Arith {
  function Pow2(n: nat): (r: nat)
    ensures r >= 1
  {
    if n == 0 then 1 else 2 * Pow2(n - 1)
  }

  lemma {:induction false} Pow2Add(a: nat, b: nat)
    ensures Pow2(a + b) == Pow2(a) * Pow2(b)
    decreases a
  {
    if a > 0 {
      Pow2Add(a - 1, b);
    }
  }

  lemma MulMono(p: int, a: int, b: int)
    requires p >= 0 && a >= b
    ensures p * a >= p * b
  {
    assert p * a - p * b == p * (a - b);
  }

  lemma DivModUnique(x: int, d: int, q: int, r: int)
    requires d > 0 && 0 <= r < d && x == d * q + r
    ensures x / d == q && x % d == r
  {
    var q', r' := x / d, x % d;
    if q > q' {
      MulMono(d, q, q' + 1);
      assert false;
    }
    if q < q' {
      MulMono(d, q', q + 1);
      assert false;
    }
  }

  lemma DivNonNegative(a: int, d: int)
    requires a >= 0 && d > 0
    ensures a / d >= 0
  {
    if a / d < 0 {
      MulMono(d, -1, a / d);
      assert false;
    }
  }

  lemma DivBelow(r: nat, p: nat, q: nat)
    requires p > 0 && r < p * q
    ensures r / p < q
  {
    if r / p >= q {
      MulMono(p, r / p, q);
      assert false;
    }
  }

  lemma DivDiv(a: nat, p: nat, q: nat)
    requires p > 0 && q > 0
    ensures a / p / q == a / (p * q)
  {
    var x, y := a / p / q, a / p % q;
    var z := a % p;
    assert a / p == q * x + y;
    assert a == p * (q * x + y) + z;
    assert a == (p * q) * x + (p * y + z);
    assert p * y + z < p * q by {
      assert y <= q - 1;
      assert p * y <= p * (q - 1);
    }
    DivModUnique(a, p * q, x, p * y + z);
  }

  lemma ModMod(a: nat, p: nat, q: nat)
    requires p > 0 && q > 0
    ensures a % (p * q) % p == a % p
  {
    var x, r := a / (p * q), a % (p * q);
    assert a == (p * q) * x + r;
    assert a == p * (q * x + r / p) + r % p;
    DivModUnique(a, p, q * x + r / p, r % p);
  }

  lemma DivMod(a: nat, p: nat, q: nat)
    requires p > 0 && q > 0
    ensures a / p % q == a % (p * q) / p
  {
    var x, r := a / (p * q), a % (p * q);
    assert a == (p * q) * x + r;
    assert a == p * (q * x + r / p) + r % p;
    DivModUnique(a, p, q * x + r / p, r % p);
    DivBelow(r, p, q);
    DivModUnique(q * x + r / p, q, x, r / p);
  }

  lemma ShiftInMod(a: nat, b: nat, p: nat)
    requires b < 256 && p > 0
    ensures (a * 256 + b) % (p * 256) == (a % p) * 256 + b
    ensures (a * 256 + b) / 256 == a
  {
    var x, r := a / p, a % p;
    assert a * 256 + b == (p * 256) * x + (r * 256 + b);
    assert r * 256 + b < p * 256 by {
      assert r <= p - 1;
    }
    DivModUnique(a * 256 + b, p * 256, x, r * 256 + b);
    DivModUnique(a * 256 + b, 256, a, b);
  }
}
