/** Small facts about multiplication and Euclidean division by a variable divisor. */
module Arithmetic {
  type uint32 = x: int | 0 <= x < 0x1_0000_0000

  const WORD: int := 0x1_0000_0000

  function Pow2(k: nat): (p: nat)
    ensures p > 0
  {
    if k == 0 then 1 else 2 * Pow2(k - 1)
  }

  lemma {:induction false} Pow2Split(j: nat, k: nat)
    requires j <= k
    ensures Pow2(k) == Pow2(j) * Pow2(k - j)
  {
    if j == k {
    } else {
      Pow2Split(j, k - 1);
      Swap(2, Pow2(j), Pow2(k - 1 - j));
    }
  }

  lemma Pow2Word()
    ensures Pow2(32) == WORD
  {
    assert Pow2(8) == 256;
    Pow2Split(8, 16);
    Pow2Split(16, 32);
  }

  lemma Swap(a: int, b: int, c: int)
    ensures a * (b * c) == b * (a * c) == (a * b) * c
  {
  }

  lemma Distribute(p: int, a: int, b: int)
    ensures p * (a + b) == p * a + p * b
    ensures p * (a - b) == p * a - p * b
  {
  }

  lemma MulAtLeast(p: int, d: int)
    requires p > 0 && d >= 1
    ensures p * d >= p
  {
  }

  lemma SmallMultiple(p: int, d: int)
    requires p > 0 && -p < p * d < p
    ensures d == 0
  {
    assert p * -d == -(p * d);
    if d >= 1 { MulAtLeast(p, d); }
    if d <= -1 { MulAtLeast(p, -d); }
  }

  lemma CancelLeft(p: int, a: int, b: int)
    requires p > 0 && p * a == p * b
    ensures a == b
  {
    Distribute(p, a, b);
    SmallMultiple(p, a - b);
  }

  lemma DivModUnique(x: int, p: int, q: int, r: int)
    requires p > 0 && x == p * q + r && 0 <= r < p
    ensures x / p == q && x % p == r
  {
    var q', r' := x / p, x % p;
    assert x == p * q' + r';
    Distribute(p, q, q');
    assert p * (q - q') == r' - r;
    SmallMultiple(p, q - q');
  }

  lemma ExactQuotient(n: nat, p: nat) returns (q: nat)
    requires p > 0 && n % p == 0
    ensures n == q * p
  {
    q := n / p;
    Swap(q, p, 1);
  }

  lemma ModShift(x: int, p: int, e: int)
    requires p > 0
    ensures (x + p * e) % p == x % p
  {
    var q, r := x / p, x % p;
    Distribute(p, q, e);
    DivModUnique(x + p * e, p, q + e, r);
  }

  lemma EqualResidues(x: int, y: int, p: int) returns (e: int)
    requires p > 0 && x % p == y % p
    ensures x == y + p * e
  {
    var a, b := x / p, y / p;
    e := a - b;
    Distribute(p, a, b);
  }

  /** Reducing by a multiple of p first does not change the residue modulo p. */
  lemma NestedMod(x: int, p: int, c: int)
    requires p > 0 && c > 0 && p * c > 0
    ensures x % (p * c) % p == x % p
  {
    var q := x / (p * c);
    Swap(p, c, q);
    assert x % (p * c) == x - (p * c) * q;
    assert p * -(c * q) == -(p * (c * q));
    ModShift(x, p, -(c * q));
  }
}
