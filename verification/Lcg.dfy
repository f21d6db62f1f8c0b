/** The 32-bit linear congruential generator shared by the simulated sensors and the DTC
    simulator, and the proof that it has full period: the low k bits of the seed return to
    their starting value after n steps exactly when 2^k divides n. */
module Lcg {
  import opened Arithmetic

  const MULTIPLIER: int := 1103515245
  const INCREMENT: int := 12345

  /** One generator step in unsigned 32-bit arithmetic. */
  function Next(seed: uint32): uint32 {
    (seed * MULTIPLIER + INCREMENT) % WORD
  }

  function Iterate(n: nat, seed: uint32): uint32 {
    if n == 0 then seed else Next(Iterate(n - 1, seed))
  }

  lemma {:induction false} IterateSplit(m: nat, n: nat, seed: uint32)
    ensures Iterate(m + n, seed) == Iterate(m, Iterate(n, seed))
  {
    if m == 0 {
    } else {
      IterateSplit(m - 1, n, seed);
    }
  }

  // ----- the same recurrence over the integers, without reduction -----

  ghost function Walk(n: nat, x: int): int {
    if n == 0 then x else Walk(n - 1, x) * MULTIPLIER + INCREMENT
  }

  lemma {:induction false} WalkSplit(m: nat, n: nat, x: int)
    ensures Walk(m + n, x) == Walk(m, Walk(n, x))
  {
    if m == 0 {
    } else {
      WalkSplit(m - 1, n, x);
    }
  }

  /** 2^k steps are the affine map x -> Slope(k) * x + Shift(k), obtained by doubling. */
  ghost function Slope(k: nat): int {
    if k == 0 then MULTIPLIER else Slope(k - 1) * Slope(k - 1)
  }

  ghost function Shift(k: nat): int {
    if k == 0 then INCREMENT else Slope(k - 1) * Shift(k - 1) + Shift(k - 1)
  }

  lemma ComposeAffine(a: int, b: int, x: int)
    ensures a * (a * x + b) + b == (a * a) * x + (a * b + b)
  {
    Distribute(a, a * x, b);
  }

  lemma {:induction false} DoubledWalk(k: nat, x: int)
    ensures Walk(Pow2(k), x) == Slope(k) * x + Shift(k)
  {
    if k == 0 {
      assert Walk(1, x) == Walk(0, x) * MULTIPLIER + INCREMENT;
    } else {
      var h := Pow2(k - 1);
      WalkSplit(h, h, x);
      DoubledWalk(k - 1, x);
      DoubledWalk(k - 1, Walk(h, x));
      ComposeAffine(Slope(k - 1), Shift(k - 1), x);
    }
  }

  lemma SquareForm(p: int, t: int, a: int)
    requires a == 1 + 4 * (p * t)
    ensures a * a == 1 + 4 * ((2 * p) * (t + 2 * (p * (t * t))))
  {
    var q := p * t;
    assert a * a == 1 + 8 * q + 16 * (q * q);
    assert q * q == p * (p * (t * t));
    Distribute(2 * p, t, 2 * (p * (t * t)));
  }

  lemma ShiftForm(p: int, q: int, u: int, a: int, b: int)
    requires a == 1 + 4 * q && b == p * (2 * u + 1)
    ensures a * b + b == (2 * p) * (2 * (u + 2 * (q * u) + q) + 1)
  {
    var o := 2 * u + 1;
    assert a * b + b == 2 * b + 4 * (q * b);
    assert q * b == p * (q * o);
    assert q * o == 2 * (q * u) + q;
    Distribute(p, o, 2 * (q * o));
  }

  /** Slope(k) is 1 modulo 2^(k+2). */
  lemma {:induction false} SlopeResidue(k: nat) returns (t: int)
    ensures Slope(k) == 1 + 4 * (Pow2(k) * t)
  {
    if k == 0 {
      t := (MULTIPLIER - 1) / 4;
    } else {
      t := SlopeResidue(k - 1);
      SquareForm(Pow2(k - 1), t, Slope(k - 1));
      t := t + 2 * (Pow2(k - 1) * (t * t));
    }
  }

  /** Shift(k) is an odd multiple of 2^k. */
  lemma {:induction false} ShiftResidue(k: nat) returns (u: int)
    ensures Shift(k) == Pow2(k) * (2 * u + 1)
  {
    if k == 0 {
      u := (INCREMENT - 1) / 2;
    } else {
      u := ShiftResidue(k - 1);
      var t := SlopeResidue(k - 1);
      var q := Pow2(k - 1) * t;
      ShiftForm(Pow2(k - 1), q, u, Slope(k - 1), Shift(k - 1));
      u := u + 2 * (q * u) + q;
    }
  }

  lemma OddStep(a: int, b: int, p: int, t: int, u: int, y: int) returns (h: int)
    requires a == 1 + 4 * (p * t) && b == p * (2 * u + 1)
    ensures a * y + b == y + p * (1 + 2 * h)
  {
    var z := t * y;
    Swap(p, t, y);
    assert a * y == y + 4 * (p * z) by {
      var q := p * t;
      assert (1 + 4 * q) * y == y + 4 * (q * y);
    }
    Distribute(p, 4 * z, 2 * u + 1);
    h := 2 * z + u;
  }

  /** 2^k steps move any x by an odd multiple of 2^k. */
  lemma OneJump(k: nat, x: int) returns (h: int)
    ensures Walk(Pow2(k), x) == x + Pow2(k) * (1 + 2 * h)
  {
    var t := SlopeResidue(k);
    var u := ShiftResidue(k);
    DoubledWalk(k, x);
    h := OddStep(Slope(k), Shift(k), Pow2(k), t, u, x);
  }

  lemma NextJump(k: nat, x: int, y: int, d: int) returns (h: int)
    requires y == x + Pow2(k) * d
    ensures Walk(Pow2(k), y) == x + Pow2(k) * (d + 1 + 2 * h)
  {
    h := OneJump(k, y);
    Distribute(Pow2(k), d, 1 + 2 * h);
  }

  ghost function Leap(m: nat, k: nat, x: int): int {
    if m == 0 then x else Walk(Pow2(k), Leap(m - 1, k, x))
  }

  lemma {:induction false} LeapIsWalk(m: nat, k: nat, x: int)
    ensures m * Pow2(k) >= 0 && Leap(m, k, x) == Walk(m * Pow2(k), x)
  {
    if m == 0 {
    } else {
      LeapIsWalk(m - 1, k, x);
      assert m * Pow2(k) == Pow2(k) + (m - 1) * Pow2(k);
      WalkSplit(Pow2(k), (m - 1) * Pow2(k), x);
    }
  }

  lemma {:induction false} LeapShift(m: nat, k: nat, x: int) returns (h: int)
    ensures Leap(m, k, x) == x + Pow2(k) * (m + 2 * h)
  {
    if m == 0 {
      h := 0;
    } else {
      var g := LeapShift(m - 1, k, x);
      h := NextJump(k, x, Leap(m - 1, k, x), m - 1 + 2 * g);
      h := h + g;
    }
  }

  /** m jumps of 2^k steps move x by 2^k times a number of the same parity as m. */
  lemma Jumps(m: nat, k: nat, x: int) returns (h: int)
    ensures m * Pow2(k) >= 0
    ensures Walk(m * Pow2(k), x) == x + Pow2(k) * (m + 2 * h)
  {
    LeapIsWalk(m, k, x);
    h := LeapShift(m, k, x);
  }

  // ----- reduction -----

  lemma StepResidue(i: int, w: int, p: int)
    requires p > 0 && i % p == w % p
    ensures (i * MULTIPLIER + INCREMENT) % p == (w * MULTIPLIER + INCREMENT) % p
  {
    var e := EqualResidues(i, w, p);
    assert (w + p * e) * MULTIPLIER == w * MULTIPLIER + p * (e * MULTIPLIER);
    ModShift(w * MULTIPLIER + INCREMENT, p, e * MULTIPLIER);
  }

  /** The reduced generator agrees with the unreduced walk in its low k bits. */
  lemma {:induction false} LowBits(n: nat, seed: uint32, k: nat)
    requires k <= 32
    ensures Iterate(n, seed) % Pow2(k) == Walk(n, seed) % Pow2(k)
  {
    if n == 0 {
    } else {
      LowBits(n - 1, seed, k);
      var i := Iterate(n - 1, seed);
      StepResidue(i, Walk(n - 1, seed), Pow2(k));
      NextResidue(i, k);
    }
  }

  lemma NextResidue(i: uint32, k: nat)
    requires k <= 32
    ensures Next(i) % Pow2(k) == (i * MULTIPLIER + INCREMENT) % Pow2(k)
  {
    Pow2Word();
    Pow2Split(k, 32);
    NestedMod(i * MULTIPLIER + INCREMENT, Pow2(k), Pow2(32 - k));
  }

  lemma {:induction false} OddPart(n: nat) returns (j: nat, c: nat)
    requires n > 0
    ensures n == (1 + 2 * c) * Pow2(j)
  {
    if n % 2 == 1 {
      j, c := 0, n / 2;
    } else {
      j, c := OddPart(n / 2);
      Swap(2, 1 + 2 * c, Pow2(j));
      j := j + 1;
    }
  }

  lemma OddShiftMoves(x: int, j: nat, k: nat, h: int)
    requires j < k
    ensures (x + Pow2(j) * (1 + 2 * h)) % Pow2(k) != x % Pow2(k)
  {
    var e := 1 + 2 * h;
    if (x + Pow2(j) * e) % Pow2(k) == x % Pow2(k) {
      var f := EqualResidues(x + Pow2(j) * e, x, Pow2(k));
      Pow2Split(j, k);
      Swap(Pow2(j), Pow2(k - j), f);
      CancelLeft(Pow2(j), e, Pow2(k - j) * f);
      Swap(2, Pow2(k - j - 1), f);
    }
  }

  /** Full period, both directions: after n steps the low k bits of the seed are what they
      were at the start if and only if n is a multiple of 2^k. */
  lemma FullPeriod(k: nat, n: nat, seed: uint32)
    requires k <= 32
    ensures Iterate(n, seed) % Pow2(k) == seed % Pow2(k) <==> n % Pow2(k) == 0
  {
    LowBits(n, seed, k);
    if n % Pow2(k) == 0 {
      Returns(k, n, seed);
    } else {
      Departs(k, n, seed);
    }
  }

  lemma Returns(k: nat, n: nat, x: int)
    requires n % Pow2(k) == 0
    ensures Walk(n, x) % Pow2(k) == x % Pow2(k)
  {
    var m := ExactQuotient(n, Pow2(k));
    var h := Jumps(m, k, x);
    ModShift(x, Pow2(k), m + 2 * h);
  }

  lemma Departs(k: nat, n: nat, x: int)
    requires n % Pow2(k) != 0
    ensures Walk(n, x) % Pow2(k) != x % Pow2(k)
  {
    if n == 0 {
      DivModUnique(0, Pow2(k), 0, 0);
    } else {
      var j, c := OddPart(n);
      if j < k {
        var h := Jumps(1 + 2 * c, j, x);
        OddShiftMoves(x, j, k, c + h);
      } else {
        DividesMultiple(1 + 2 * c, j, k);
      }
    }
  }

  lemma DividesMultiple(m: nat, j: nat, k: nat)
    requires j >= k
    ensures (m * Pow2(j)) % Pow2(k) == 0
  {
    Pow2Split(k, j);
    Swap(m, Pow2(k), Pow2(j - k));
    DivModUnique(m * Pow2(j), Pow2(k), m * Pow2(j - k), 0);
  }

  /** Every residue of the low k bits is reached within 2^k steps. */
  lemma {:induction false} VisitsAll(k: nat, seed: uint32, v: int) returns (n: nat)
    requires k <= 32
    ensures n < Pow2(k) && Iterate(n, seed) % Pow2(k) == v % Pow2(k)
  {
    if k == 0 {
      n := 0;
    } else {
      n := VisitsAll(k - 1, seed, v);
      LowBits(n, seed, k - 1);
      n := FixTopBit(k, n, seed, v);
      LowBits(n, seed, k);
    }
  }

  /** If n steps agree with v below bit k - 1, then n or n + 2^(k-1) steps agree below bit k. */
  lemma FixTopBit(k: nat, n: nat, x: int, v: int) returns (n': nat)
    requires k > 0 && Walk(n, x) % Pow2(k - 1) == v % Pow2(k - 1)
    ensures n' == n || n' == n + Pow2(k - 1)
    ensures Walk(n', x) % Pow2(k) == v % Pow2(k)
  {
    var f := EqualResidues(Walk(n, x), v, Pow2(k - 1));
    if f % 2 == 0 {
      n' := n;
      EvenShift(k, v, f / 2);
    } else {
      n' := Pow2(k - 1) + n;
      FlipTopBit(k, n, x, v, f / 2);
    }
  }

  lemma FlipTopBit(k: nat, n: nat, x: int, v: int, g: int)
    requires k > 0 && Walk(n, x) == v + Pow2(k - 1) * (1 + 2 * g)
    ensures Walk(Pow2(k - 1) + n, x) % Pow2(k) == v % Pow2(k)
  {
    WalkSplit(Pow2(k - 1), n, x);
    var h := NextJump(k - 1, v, Walk(n, x), 1 + 2 * g);
    EvenShift(k, v, g + 1 + h);
  }

  lemma EvenShift(k: nat, v: int, g: int)
    requires k > 0
    ensures (v + Pow2(k - 1) * (2 * g)) % Pow2(k) == v % Pow2(k)
  {
    Swap(2, Pow2(k - 1), g);
    ModShift(v, Pow2(k), g);
  }

  /** The whole 32-bit word: each of the 2^32 values occurs exactly once in 2^32 steps. */
  lemma WordPeriod(seed: uint32, v: uint32) returns (n: nat)
    ensures n < WORD && Iterate(n, seed) == v
    ensures forall m: nat :: m < WORD && Iterate(m, seed) == v ==> m == n
  {
    n := VisitsWord(seed, v);
    forall m: nat | m < WORD && Iterate(m, seed) == v
      ensures m == n
    {
      if m < n { NoRepeat(m, n, seed); }
      if n < m { NoRepeat(n, m, seed); }
    }
  }

  lemma VisitsWord(seed: uint32, v: uint32) returns (n: nat)
    ensures n < WORD && Iterate(n, seed) == v
  {
    Pow2Word();
    n := VisitsAll(32, seed, v);
    SmallMod(Iterate(n, seed));
    SmallMod(v);
  }

  lemma SmallMod(x: uint32)
    ensures x % WORD == x
  {
  }

  /** The seed first repeats after exactly 2^32 steps. */
  lemma SeedRepeats(n: nat, seed: uint32)
    ensures Iterate(n, seed) == seed <==> n % WORD == 0
  {
    Pow2Word();
    FullPeriod(32, n, seed);
    SmallMod(Iterate(n, seed));
    SmallMod(seed);
  }

  lemma IterateRecurs(m: nat, n: nat, seed: uint32)
    ensures Iterate(m + n, seed) == Iterate(n, seed) <==> m % WORD == 0
  {
    IterateSplit(m, n, seed);
    SeedRepeats(m, Iterate(n, seed));
  }

  lemma NoRepeat(m: nat, n: nat, seed: uint32)
    requires m < n < WORD
    ensures Iterate(m, seed) != Iterate(n, seed)
  {
    IterateRecurs(n - m, m, seed);
    SmallMod(n - m);
  }
}
