/** The retry delay of handleFailure, in 64-bit nanoseconds. */
module Backoff {

  const SECOND: int := 1_000_000_000
  const CAP: int := 300 * SECOND

  /** The value a signed 64-bit integer holds. */
  function Wrap64(x: int): (r: int)
    ensures -0x8000_0000_0000_0000 <= r < 0x8000_0000_0000_0000
  {
    var m := x % 0x1_0000_0000_0000_0000;
    if m >= 0x8000_0000_0000_0000 then m - 0x1_0000_0000_0000_0000 else m
  }

  function Pow2(k: nat): (p: int)
    ensures p >= 1
  {
    if k == 0 then 1 else 2 * Pow2(k - 1)
  }

  function Min(a: int, b: int): int {
    if a < b then a else b
  }

  /** 1<<k as an int64: shifting by the width or more leaves zero. */
  function ShiftedOne(k: nat): int {
    if k >= 64 then 0 else Wrap64(Pow2(k))
  }

  /** The delay as the code computes it, each product wrapping. */
  function Delay(k: nat): int {
    Min(Wrap64(Wrap64(ShiftedOne(k) * 15) * SECOND), CAP)
  }

  /** The delay meant: it doubles from 30 seconds up to 5 minutes. */
  function Intended(k: nat): int {
    Min(15 * SECOND * Pow2(k), CAP)
  }

  /** Fifteen seconds, in nanoseconds, without its factor 512. */
  const ODD_PART: int := 29_296_875

  /** The sign bit of the wrapped product is clear: bit 54 - k of the odd part is. */
  predicate SignClear(k: nat) {
    k <= 54 && (ODD_PART / Pow2(54 - k)) % 2 == 0
  }

  // ----- Powers of two -----

  lemma {:induction false} Pow2Add(a: nat, b: nat)
    ensures Pow2(a + b) == Pow2(a) * Pow2(b)
  {
    if a > 0 {
      Pow2Add(a - 1, b);
    }
  }

  lemma {:induction false} Pow2Monotone(j: nat, k: nat)
    requires j <= k
    ensures Pow2(j) <= Pow2(k)
  {
    if j < k {
      Pow2Monotone(j, k - 1);
    }
  }

  lemma SmallPowers()
    ensures Pow2(1) == 2 && Pow2(2) == 4 && Pow2(3) == 8 && Pow2(4) == 16 && Pow2(5) == 32 && Pow2(9) == 512
  {
    assert Pow2(3) == 8;
    assert Pow2(5) == 32;
    assert Pow2(7) == 128;
  }

  lemma BigPowers()
    ensures Pow2(24) == 16_777_216 && Pow2(25) == 33_554_432
    ensures Pow2(39) == 549_755_813_888 && Pow2(63) == 0x8000_0000_0000_0000
  {
    SmallPowers();
    Pow2Add(4, 4);
    Pow2Add(8, 8);
    Pow2Add(16, 8);
    Pow2Add(24, 1);
    Pow2Add(24, 9);
    Pow2Add(33, 5);
    Pow2Add(38, 1);
    Pow2Add(39, 24);
  }

  // ----- Wrapping -----

  lemma WrapShift(x: int, t: int)
    ensures Wrap64(x - 0x1_0000_0000_0000_0000 * t) == Wrap64(x)
  {
    var m, q := 0x1_0000_0000_0000_0000, x / 0x1_0000_0000_0000_0000;
    assert x - m * t == m * (q - t) + x % m;
    assert (x - m * t) / m == q - t;
  }

  lemma WrapTimes(a: int, b: int)
    ensures Wrap64(Wrap64(a) * b) == Wrap64(a * b)
  {
    var m := 0x1_0000_0000_0000_0000;
    var t := if a % m >= 0x8000_0000_0000_0000 then a / m + 1 else a / m;
    assert Wrap64(a) == a - m * t;
    assert Wrap64(a) * b == a * b - m * (t * b);
    WrapShift(a * b, t * b);
  }

  /** The two wraps are one. */
  lemma DelayWrapsOnce(k: nat)
    requires k < 64
    ensures Delay(k) == Min(Wrap64(15 * SECOND * Pow2(k)), CAP)
  {
    WrapTimes(Pow2(k), 15);
    WrapTimes(Pow2(k) * 15, SECOND);
    assert Pow2(k) * 15 * SECOND == 15 * SECOND * Pow2(k);
  }

  /** A number below 2^63, shifted by q times 2^63: the parity of q is the sign. */
  lemma WrapHalves(q: int, y: int)
    requires 0 <= y < 0x8000_0000_0000_0000
    ensures Wrap64(q * 0x8000_0000_0000_0000 + y) == if q % 2 == 0 then y else y - 0x8000_0000_0000_0000
  {
    WrapShift(q * 0x8000_0000_0000_0000 + y, q / 2);
  }

  /** Division with remainder, scaled. */
  lemma Cut(c: nat, p: int, h: int)
    requires p >= 1 && h >= 1
    ensures c * h == (c / p) * (p * h) + (c % p) * h
    ensures 0 <= (c % p) * h < p * h
  {
    Scaled(c / p, p, c % p, h);
    Below(c % p, p, h);
  }

  lemma Scaled(q: int, p: int, r: int, h: int)
    ensures (q * p + r) * h == q * (p * h) + r * h
  {
  }

  lemma Below(r: int, p: int, h: int)
    requires 0 <= r < p && h >= 1
    ensures 0 <= r * h < p * h
  {
    AtLeast(p - r, h);
    assert (p - r) * h == p * h - r * h;
  }

  lemma ProductAsOddPart(k: nat)
    requires k <= 54
    ensures 15 * SECOND * Pow2(k) == ODD_PART * Pow2(k + 9)
    ensures Pow2(54 - k) * Pow2(k + 9) == 0x8000_0000_0000_0000
  {
    OddPartTimes(k);
    Pow2Add(54 - k, k + 9);
    BigPowers();
  }

  /** What the product wraps to, cut where bit 63 falls. */
  lemma WrappedProduct(k: nat)
    requires k <= 54
    ensures var low := (ODD_PART % Pow2(54 - k)) * Pow2(k + 9);
            && Wrap64(15 * SECOND * Pow2(k)) == (if SignClear(k) then low else low - 0x8000_0000_0000_0000)
            && 0 <= low < 0x8000_0000_0000_0000
  {
    var p, h := Pow2(54 - k), Pow2(k + 9);
    ProductAsOddPart(k);
    Cut(ODD_PART, p, h);
    WrapHalves(ODD_PART / p, (ODD_PART % p) * h);
  }

  /** Up to 29 nothing is cut off. */
  lemma FitsUpTo29(k: nat)
    requires k <= 29
    ensures SignClear(k) && Wrap64(15 * SECOND * Pow2(k)) == 15 * SECOND * Pow2(k)
  {
    BigPowers();
    Pow2Monotone(25, 54 - k);
    Small(ODD_PART, Pow2(54 - k));
    ProductAsOddPart(k);
    WrappedProduct(k);
  }

  lemma Small(c: nat, p: int)
    requires c < p
    ensures c / p == 0 && c % p == c
  {
  }

  /** Beyond, what is left is far above the cap, if it is positive at all. */
  lemma HugeOrNegative(k: nat)
    requires 30 <= k <= 54
    ensures if SignClear(k) then Wrap64(15 * SECOND * Pow2(k)) >= CAP else Wrap64(15 * SECOND * Pow2(k)) < 0
  {
    WrappedProduct(k);
    BigPowers();
    Pow2Monotone(39, k + 9);
    if SignClear(k) {
      OddRemainder(Pow2(54 - k));
      AtLeast(ODD_PART % Pow2(54 - k), Pow2(k + 9));
    }
  }

  lemma AtLeast(r: int, h: int)
    requires r >= 1 && h >= 1
    ensures r * h >= h
  {
  }

  /** An odd number with an even quotient leaves a remainder. */
  lemma OddRemainder(p: int)
    requires p >= 1 && (ODD_PART / p) % 2 == 0
    ensures ODD_PART % p >= 1
  {
    var q := ODD_PART / p;
    assert ODD_PART == p * q + ODD_PART % p;
    assert p * q == 2 * (p * (q / 2));
  }

  lemma VanishesFrom55(k: nat)
    requires 55 <= k < 64
    ensures Wrap64(15 * SECOND * Pow2(k)) == 0
  {
    OddPartTimes(k);
    From64(k);
    Regroup(ODD_PART, 0x1_0000_0000_0000_0000, Pow2(k - 55));
    WrapOfMultiple(ODD_PART * Pow2(k - 55));
  }

  lemma OddPartTimes(k: nat)
    ensures 15 * SECOND * Pow2(k) == ODD_PART * Pow2(k + 9)
  {
    SmallPowers();
    Pow2Add(k, 9);
    assert 15 * SECOND * Pow2(k) == ODD_PART * (Pow2(k) * 512);
  }

  lemma From64(k: nat)
    requires k >= 55
    ensures Pow2(k + 9) == 0x1_0000_0000_0000_0000 * Pow2(k - 55)
  {
    BigPowers();
    Pow2Add(63, 1);
    Pow2Add(64, k - 55);
  }

  lemma WrapOfMultiple(t: int)
    ensures Wrap64(0x1_0000_0000_0000_0000 * t) == 0
  {
  }

  lemma Regroup(a: int, b: int, c: int)
    ensures a * (b * c) == b * (a * c)
  {
  }

  // ----- The delay -----

  lemma CappedFrom5(k: nat)
    requires k >= 5
    ensures Intended(k) == CAP
  {
    SmallPowers();
    Pow2Monotone(5, k);
  }

  lemma DelayUpTo29(k: nat)
    requires k <= 29
    ensures SignClear(k) && Delay(k) == Intended(k) && Delay(k) > 0
  {
    DelayWrapsOnce(k);
    FitsUpTo29(k);
  }

  lemma DelayAbove29(k: nat)
    requires k >= 30
    ensures if SignClear(k) then Delay(k) == Intended(k) == CAP else Delay(k) <= 0 < Intended(k)
  {
    CappedFrom5(k);
    if k < 64 {
      DelayWrapsOnce(k);
      if k <= 54 {
        HugeOrNegative(k);
      } else {
        VanishesFrom55(k);
      }
    }
  }

  /**
   Exactly when the delay is the one meant: the sign bit of the 64-bit product is clear. At every
   other failure count the delay is not even positive, so no retry is scheduled.
   */
  lemma DelayIsExact(k: nat)
    ensures Delay(k) == Intended(k) <==> SignClear(k)
    ensures Delay(k) > 0 <==> SignClear(k)
  {
    if k <= 29 {
      DelayUpTo29(k);
    } else {
      DelayAbove29(k);
    }
  }

  lemma ThirtiethIsNegative()
    ensures !SignClear(30) && Delay(30) < 0
  {
    BigPowers();
    HugeOrNegative(30);
    DelayWrapsOnce(30);
  }

  /** So 29 is the largest bound up to which every retry is delayed as meant. */
  lemma TightBound(n: nat)
    ensures (forall k: nat :: k <= n ==> Delay(k) == Intended(k)) <==> n <= 29
  {
    DelayIsExact(30);
    ThirtiethIsNegative();
    forall k: nat | k <= 29 ensures Delay(k) == Intended(k) {
      DelayUpTo29(k);
    }
  }

  /** Within the bound the delay is positive and never shrinks. */
  lemma DelayGrows(j: nat, k: nat)
    requires j <= k <= 29
    ensures 0 < Delay(j) <= Delay(k) <= CAP
  {
    TightBound(29);
    Pow2Monotone(j, k);
  }

  /** The total wait over the first n retries. */
  function TotalDelay(n: nat): int {
    if n == 0 then 0 else TotalDelay(n - 1) + Delay(n)
  }

  lemma FirstWaits()
    ensures TotalDelay(4) == 450 * SECOND
  {
    TightBound(29);
    SmallPowers();
    assert Delay(1) == 30 * SECOND && Delay(2) == 60 * SECOND && Delay(3) == 120 * SECOND && Delay(4) == 240 * SECOND;
    assert TotalDelay(2) == Delay(1) + Delay(2);
  }

  lemma {:induction false} TotalWait(n: nat)
    requires 4 <= n <= 29
    ensures TotalDelay(n) == (450 + 300 * (n - 4)) * SECOND
  {
    if n == 4 {
      FirstWaits();
    } else {
      TotalWait(n - 1);
      TightBound(29);
      CappedFrom5(n);
    }
  }
}
