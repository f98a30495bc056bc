/** The delay before a failed delivery is tried again (handleDeliveryFailure). */
module Backoff {
  import opened Clock

  const CAP := 300 * SECOND

  function Pow2(k: nat): (p: nat)
    ensures p > 0
  {
    if k == 0 then 1 else 2 * Pow2(k - 1)
  }

  /** 1<<k on an int64: bits shifted past the top are lost. */
  function ShiftedOne(k: nat): int {
    if k < 64 then Wrap64(Pow2(k)) else 0
  }

  /** The delay the code computes, every operation on int64. */
  function Delay(base: int, retry: nat): int
    requires retry > 0
  {
    var backoff := Wrap64(base * ShiftedOne(retry - 1));
    if backoff > CAP then CAP else backoff
  }

  /** The delay the code means: base doubled per retry, capped at five minutes. */
  function Intended(base: int, retry: nat): int
    requires retry > 0
  {
    var doubled := base * Pow2(retry - 1);
    if doubled > CAP then CAP else doubled
  }

  lemma {:induction false} Pow2Monotone(j: nat, k: nat)
    requires j <= k
    ensures Pow2(j) <= Pow2(k)
    decreases k
  {
    if j < k { Pow2Monotone(j, k - 1); }
  }

  lemma ProductMonotone(base: int, p: nat, q: nat)
    requires base > 0 && p <= q
    ensures base * p <= base * q
    ensures p <= base * p
  {
  }

  lemma {:induction false} Pow2Sum(j: nat, k: nat)
    ensures Pow2(j + k) == Pow2(j) * Pow2(k)
  {
    if j > 0 { Pow2Sum(j - 1, k); }
  }

  lemma Pow2Table()
    ensures Pow2(32) == 0x1_0000_0000 && Pow2(33) == 0x2_0000_0000
    ensures Pow2(62) == TWO_63 / 2 && Pow2(63) == TWO_63
  {
    assert Pow2(4) == 2 * Pow2(3) == 16;
    Pow2Sum(4, 4);
    Pow2Sum(8, 8);
    Pow2Sum(16, 16);
    Pow2Sum(32, 32);
    assert Pow2(64) == 2 * Pow2(63) == 4 * Pow2(62);
  }

  /** As long as the doubled delay fits in an int64 the shift loses nothing. */
  lemma FitsMeansSmallShift(base: int, retry: nat)
    requires retry > 0 && base > 0 && base * Pow2(retry - 1) < TWO_63
    ensures retry < 64 && ShiftedOne(retry - 1) == Pow2(retry - 1)
  {
    Pow2Table();
    ProductMonotone(base, Pow2(retry - 1), Pow2(retry - 1));
    if retry >= 64 { Pow2Monotone(63, retry - 1); }
  }

  /** Without overflow the delay is the intended one, positive, and never shorter than the previous delay. */
  lemma DelayInRange(base: int, retry: nat)
    requires retry > 0 && base > 0 && base * Pow2(retry - 1) < TWO_63
    ensures Delay(base, retry) == Intended(base, retry) > 0
    ensures forall earlier: nat | 0 < earlier <= retry :: Delay(base, earlier) <= Delay(base, retry)
    ensures Delay(base, retry) >= (if base < CAP then base else CAP)
  {
    FitsMeansSmallShift(base, retry);
    ProductMonotone(base, 1, Pow2(retry - 1));
    forall earlier: nat | 0 < earlier <= retry ensures Delay(base, earlier) <= Delay(base, retry) {
      Pow2Monotone(earlier - 1, retry - 1);
      ProductMonotone(base, Pow2(earlier - 1), Pow2(retry - 1));
      FitsMeansSmallShift(base, earlier);
    }
  }

  /** The first retry whose doubled delay overflows is scheduled in the past. */
  lemma FirstOverflowIsNegative(base: int, retry: nat)
    requires retry > 0 && 0 < base < TWO_63 && base * Pow2(retry - 1) >= TWO_63
    requires retry == 1 || base * Pow2(retry - 2) < TWO_63
    ensures Delay(base, retry) < 0
  {
    ProductMonotone(base, 1, 1);
    FitsMeansSmallShift(base, retry - 1);
    var product := base * Pow2(retry - 1);
    assert product < TWO_64 by { DoubledProduct(base, Pow2(retry - 2)); }
    Pow2Table();
    if retry == 64 {
      assert base * (TWO_63 / 2) < TWO_63;
    } else {
      Pow2Monotone(retry - 1, 62);
      assert ShiftedOne(retry - 1) == Pow2(retry - 1);
    }
  }

  lemma DoubledProduct(base: int, p: int)
    ensures base * (2 * p) == 2 * (base * p)
  {
  }

  lemma {:induction false} FirstOverflow(base: int, retry: nat) returns (first: nat)
    requires retry > 0 && 0 < base < TWO_63 && base * Pow2(retry - 1) >= TWO_63
    ensures 0 < first <= retry && base * Pow2(first - 1) >= TWO_63
    ensures first == 1 || base * Pow2(first - 2) < TWO_63
  {
    if retry == 1 || base * Pow2(retry - 2) < TWO_63 {
      first := retry;
    } else {
      first := FirstOverflow(base, retry - 1);
    }
  }

  /** A retry limit gives every retry its intended delay exactly when the largest doubled delay fits in an int64. */
  lemma DelaysCorrectIff(base: int, maxRetries: nat)
    requires 0 < base < TWO_63 && maxRetries > 0
    ensures (forall retry: nat | 0 < retry <= maxRetries :: Delay(base, retry) == Intended(base, retry))
       <==> base * Pow2(maxRetries - 1) < TWO_63
  {
    if base * Pow2(maxRetries - 1) < TWO_63 {
      forall retry: nat | 0 < retry <= maxRetries ensures Delay(base, retry) == Intended(base, retry) {
        Pow2Monotone(retry - 1, maxRetries - 1);
        ProductMonotone(base, Pow2(retry - 1), Pow2(maxRetries - 1));
        DelayInRange(base, retry);
      }
    } else {
      var first := FirstOverflow(base, maxRetries);
      FirstOverflowIsNegative(base, first);
      ProductMonotone(base, 0, Pow2(first - 1));
      assert Delay(base, first) != Intended(base, first);
    }
  }

  /** With the default base of two seconds that limit is 33 retries. */
  lemma DefaultBaseLimit(maxRetries: nat)
    requires maxRetries > 0
    ensures (forall retry: nat | 0 < retry <= maxRetries :: Delay(2 * SECOND, retry) == Intended(2 * SECOND, retry))
       <==> maxRetries <= 33
  {
    DelaysCorrectIff(2 * SECOND, maxRetries);
    Pow2Table();
    if maxRetries <= 33 {
      Pow2Monotone(maxRetries - 1, 32);
      ProductMonotone(2 * SECOND, Pow2(maxRetries - 1), Pow2(32));
    } else {
      Pow2Monotone(33, maxRetries - 1);
      ProductMonotone(2 * SECOND, Pow2(33), Pow2(maxRetries - 1));
    }
  }
}
