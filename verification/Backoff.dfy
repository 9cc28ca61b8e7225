/** The reconnect delay: its ideal value and what the int64 computation makes of it. */
module Backoff {
  import opened Basics

  const INIT_DELAY := 5_000_000_000
  const MAX_DELAY := 300_000_000_000

  /** min(5 * 2^(n-1), 300) seconds, for the n-th attempt. */
  function Ideal(n: nat): int
    requires n >= 1
  {
    var d := INIT_DELAY * Pow2(n - 1);
    if d > MAX_DELAY then MAX_DELAY else d
  }

  /** nextDelay after the counter reached `n`: the product wraps around in an int64. For
      n > 63 the conversion of the power to an integer is not defined by Go. */
  function Delay(n: nat): int
    requires 1 <= n <= 63
  {
    var d := Wrap64(INIT_DELAY * Pow2(n - 1));
    if d > MAX_DELAY then MAX_DELAY else d
  }

  lemma {:induction false} Pow2Monotone(m: nat, n: nat)
    requires m <= n
    ensures Pow2(m) <= Pow2(n)
  {
    if m < n {
      Pow2Monotone(m, n - 1);
    }
  }

  lemma {:induction false} Pow2Add(m: nat, n: nat)
    ensures Pow2(m + n) == Pow2(m) * Pow2(n)
  {
    if m > 0 {
      Pow2Add(m - 1, n);
      assert Pow2(m + n) == 2 * Pow2(m - 1 + n);
      assert Pow2(m) * Pow2(n) == 2 * (Pow2(m - 1) * Pow2(n));
    }
  }

  lemma SmallPowers()
    ensures Pow2(6) == 64 && Pow2(9) == 512 && Pow2(10) == 1024 && Pow2(12) == 4096 && Pow2(16) == 0x1_0000
  {
  }

  lemma LargePowers()
    ensures Pow2(20) == 0x10_0000 && Pow2(32) == 0x1_0000_0000 && Pow2(40) == 0x100_0000_0000
    ensures Pow2(30) == 0x4000_0000 && Pow2(64) == 0x1_0000_0000_0000_0000
  {
    SmallPowers();
    Pow2Add(10, 10);
    Pow2Add(16, 16);
    Pow2Add(20, 20);
    Pow2Add(10, 20);
    Pow2Add(32, 32);
  }

  lemma Powers()
    ensures Pow2(6) == 64 && Pow2(9) == 512 && Pow2(30) == 0x4000_0000 && Pow2(40) == 0x100_0000_0000
    ensures Pow2(63) == 0x8000_0000_0000_0000 && Pow2(64) == 0x1_0000_0000_0000_0000
  {
    SmallPowers();
    LargePowers();
    assert Pow2(64) == 2 * Pow2(63);
  }

  // ----------------------------------------------------------- the ideal delay

  lemma {:induction false} IdealMonotone(m: nat, n: nat)
    requires 1 <= m <= n
    ensures Ideal(m) <= Ideal(n)
  {
    Pow2Monotone(m - 1, n - 1);
  }

  function IdealSum(n: nat): int {
    if n == 0 then 0 else IdealSum(n - 1) + Ideal(n)
  }

  /** The cap bites from the seventh attempt on. */
  lemma IdealValue(n: nat)
    requires n >= 1
    ensures Ideal(n) == if n <= 6 then 5_000_000_000 * Pow2(n - 1) else 300_000_000_000
  {
    assert Pow2(5) == 32 && Pow2(6) == 64;
    if n <= 6 {
      Pow2Monotone(n - 1, 5);
    } else {
      Pow2Monotone(6, n - 1);
    }
  }

  /** The total wait before the (n+1)-st attempt, in closed form. */
  lemma {:induction false} IdealSumClosed(n: nat)
    ensures IdealSum(n) ==
      if n <= 6 then 5_000_000_000 * (Pow2(n) - 1) else 315_000_000_000 + 300_000_000_000 * (n - 6)
  {
    if n > 0 {
      IdealSumClosed(n - 1);
      IdealValue(n);
      if n == 7 {
        assert Pow2(6) == 64;
      }
    }
  }

  // ------------------------------------------------------- the computed delay

  const ODD := 9_765_625  // INIT_DELAY is ODD * 2^9

  predicate BitSet(x: nat, e: nat) { x % Pow2(e + 1) >= Pow2(e) }

  lemma ProductForm(n: nat)
    requires n >= 1
    ensures INIT_DELAY * Pow2(n - 1) == ODD * Pow2(n + 8)
  {
    Powers();
    Pow2Add(9, n - 1);
    assert INIT_DELAY == ODD * 512;
    assert Pow2(n + 8) == 512 * Pow2(n - 1);
  }

  lemma WrapOf(x: int, k: int, r: int)
    requires x == k * 0x1_0000_0000_0000_0000 + r && 0 <= r < 0x1_0000_0000_0000_0000
    ensures Wrap64(x) == if r < 0x8000_0000_0000_0000 then r else r - 0x1_0000_0000_0000_0000
  {
  }

  /** From the 56th attempt on the product is a multiple of 2^64. */
  lemma VanishingProduct(n: nat)
    requires 56 <= n <= 63
    ensures Wrap64(INIT_DELAY * Pow2(n - 1)) == 0 && Delay(n) == 0
  {
    ProductForm(n);
    Pow2Add(n - 56, 64);
    Powers();
    WrapOf(INIT_DELAY * Pow2(n - 1), ODD * Pow2(n - 56), 0);
  }

  lemma SmallProduct(n: nat)
    requires 1 <= n <= 31
    ensures Delay(n) == Ideal(n)
  {
    Powers();
    Pow2Monotone(n - 1, 30);
    assert INIT_DELAY * Pow2(n - 1) <= INIT_DELAY * 0x4000_0000;
  }

  /** In between, the sign of the product is one bit of the odd factor. */
  lemma MiddleProduct(n: nat)
    requires 32 <= n <= 55
    ensures BitSet(ODD, 55 - n) ==> Delay(n) < 0
    ensures !BitSet(ODD, 55 - n) ==> Delay(n) == MAX_DELAY
  {
    var e := 55 - n;
    ProductForm(n);
    var q, r := SplitProduct(ODD, e);
    OddRemainder(ODD, e);
    RemainderRange(r, e);
    WrapOf(ODD * Pow2(63 - e), q, r * Pow2(63 - e));
  }

  /** `r` is the part of x that survives in x * 2^(63-e) modulo 2^64. */
  lemma SplitProduct(x: nat, e: nat) returns (q: nat, r: nat)
    requires e <= 63
    ensures x * Pow2(63 - e) == q * 0x1_0000_0000_0000_0000 + r * Pow2(63 - e)
    ensures r == x % Pow2(e + 1) && r < Pow2(e + 1)
  {
    var p := Pow2(e + 1);
    q, r := DivMod(x, p);
    Pow2Add(e + 1, 63 - e);
    Powers();
    SplitWith(x, q, r, p, Pow2(63 - e));
  }

  lemma DivMod(x: nat, p: nat) returns (q: nat, r: nat)
    requires p > 0
    ensures x == q * p + r && r < p && r == x % p
  {
    q, r := x / p, x % p;
  }

  lemma SplitWith(x: nat, q: nat, r: nat, p: nat, step: nat)
    requires x == q * p + r && p * step == 0x1_0000_0000_0000_0000
    ensures x * step == q * 0x1_0000_0000_0000_0000 + r * step
  {
  }

  lemma RemainderRange(r: nat, e: nat)
    requires e <= 23 && 1 <= r < Pow2(e + 1)
    ensures 0x100_0000_0000 <= r * Pow2(63 - e) < 0x1_0000_0000_0000_0000
    ensures r * Pow2(63 - e) >= 0x8000_0000_0000_0000 <==> r >= Pow2(e)
  {
    var step := Pow2(63 - e);
    Pow2Add(e + 1, 63 - e);
    Pow2Add(e, 63 - e);
    Pow2Monotone(40, 63 - e);
    Powers();
    Scale(r, Pow2(e + 1), step);
    Scale(r, Pow2(e), step);
    Scale(r, 1, step);
  }

  lemma Scale(r: nat, p: nat, step: nat)
    requires step > 0
    ensures r < p ==> r * step < p * step
    ensures r >= p ==> r * step >= p * step
  {
  }

  lemma OddRemainder(x: nat, e: nat)
    requires x % 2 == 1
    ensures x % Pow2(e + 1) >= 1
  {
    var p := Pow2(e);
    var q := x / (2 * p);
    assert Pow2(e + 1) == 2 * p;
    assert x == (2 * p) * q + x % (2 * p);
    assert (2 * p) * q == 2 * (p * q);
  }

  /** The exact attempts at which the computed delay is the ideal one: all up to the 31st,
      and later only those at which a bit of the odd factor is clear, where the wrapped
      product happens to be positive and is capped. */
  lemma DelayIsIdealIff(n: nat)
    requires 1 <= n <= 63
    ensures Delay(n) == Ideal(n) <==> n <= 31 || (n <= 55 && !BitSet(ODD, 55 - n))
  {
    IdealValue(n);
    if n <= 31 {
      SmallProduct(n);
    } else if n <= 55 {
      MiddleProduct(n);
    } else {
      VanishingProduct(n);
    }
  }

  lemma FirstBitSet()
    ensures BitSet(ODD, 23)
  {
    assert Pow2(11) == 2048 && Pow2(12) == 4096;
    Pow2Add(11, 12);
    assert Pow2(24) == 2 * Pow2(23);
  }

  /** The first wrong delay is that of the 32nd attempt in a row: it is negative, so the
      loop does not wait at all. */
  lemma FirstWrongDelay(n: nat)
    requires 1 <= n <= 32
    ensures Delay(n) == Ideal(n) <==> n < 32
    ensures Delay(32) < 0
  {
    DelayIsIdealIff(n);
    FirstBitSet();
    MiddleProduct(32);
  }
}
