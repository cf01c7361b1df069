/** The retry delay of Maintain (registry/consul.go), on 64-bit durations. */
module Backoff {
  import opened Common
  import ConsulOptions

  const TWO_63 := 0x8000_0000_0000_0000
  const TWO_64 := 0x1_0000_0000_0000_0000

  /** Two's complement wrap-around of a Go int64 result. */
  function Wrap64(x: int): int {
    (x + TWO_63) % TWO_64 - TWO_63
  }

  /** The base delay in use: the configured one, or one second. */
  function Base(retryBase: int): (base: int)
    ensures 0 < retryBase ==> base == retryBase
    ensures retryBase <= 0 ==> base == 1_000_000_000
  {
    if retryBase <= 0 then ConsulOptions.DEFAULT_RETRY_BASE else retryBase
  }

  /** The cap in use: the configured one, unless it is below the base delay in use. */
  function Cap(retryBase: int, retryMax: int): (maxDelay: int)
    ensures Base(retryBase) <= retryMax ==> maxDelay == retryMax
    ensures retryMax < Base(retryBase) ==> maxDelay == Base(retryBase)
  {
    if retryMax < Base(retryBase) then Base(retryBase) else retryMax
  }

  /** The delay for the retry after this one. */
  function NextDelay(delay: int, maxDelay: int): int {
    if delay < maxDelay then
      var doubled := Wrap64(delay * 2);
      if doubled > maxDelay then maxDelay else doubled
    else delay
  }

  /** The delay variable after k waits in a row. */
  function DelayAfter(base: int, maxDelay: int, k: nat): int {
    if k == 0 then base else NextDelay(DelayAfter(base, maxDelay, k - 1), maxDelay)
  }

  function Pow2(k: nat): (p: nat)
    ensures 1 <= p
  {
    if k == 0 then 1 else 2 * Pow2(k - 1)
  }

  /** Exponential backoff with a cap, on unbounded integers. */
  function Capped(base: int, maxDelay: int, k: nat): int {
    Min(base * Pow2(k), maxDelay)
  }

  /** No doubling on the way from d up to the cap leaves 64 bits. */
  predicate DoublingFits(d: int, maxDelay: int)
    requires 0 < d
    decreases maxDelay - d
  {
    d < maxDelay ==> d * 2 < TWO_63 && DoublingFits(d * 2, maxDelay)
  }

  lemma {:induction false} FitsAlongTheWay(base: int, maxDelay: int, k: nat)
    requires 0 < base && DoublingFits(base, maxDelay)
    requires base * Pow2(k) < maxDelay
    ensures 0 < base * Pow2(k) && DoublingFits(base * Pow2(k), maxDelay)
  {
    if k > 0 {
      var d := base * Pow2(k - 1);
      assert base * Pow2(k) == 2 * d;
      FitsAlongTheWay(base, maxDelay, k - 1);
    }
  }

  lemma StepOfCapped(d: int, maxDelay: int)
    requires 0 < d && 0 < maxDelay < TWO_63
    requires d < maxDelay ==> d * 2 < TWO_63
    ensures NextDelay(Min(d, maxDelay), maxDelay) == Min(2 * d, maxDelay)
  {
  }

  lemma ScaleUp(base: int, k: nat)
    requires 0 < base && 0 < k
    ensures base * Pow2(k) == 2 * (base * Pow2(k - 1)) && 0 < base * Pow2(k - 1)
  {
  }

  lemma {:induction false} DelayIsCapped(base: int, maxDelay: int, k: nat)
    requires 0 < base <= maxDelay < TWO_63
    requires DoublingFits(base, maxDelay)
    ensures DelayAfter(base, maxDelay, k) == Capped(base, maxDelay, k)
  {
    if k > 0 {
      DelayIsCapped(base, maxDelay, k - 1);
      var d := base * Pow2(k - 1);
      assert base * Pow2(k) == 2 * d && 0 < d by { ScaleUp(base, k); }
      if d < maxDelay {
        FitsAlongTheWay(base, maxDelay, k - 1);
      }
      StepOfCapped(d, maxDelay);
    }
  }

  lemma {:induction false} OverflowShows(base: int, maxDelay: int, d: int, k: nat)
    requires 0 < base <= maxDelay < TWO_63
    requires d == base * Pow2(k) && 0 < d && !DoublingFits(d, maxDelay)
    ensures exists j: nat :: DelayAfter(base, maxDelay, j) != Capped(base, maxDelay, j)
    decreases maxDelay - d
  {
    assert base * Pow2(k + 1) == 2 * d;
    if d * 2 < TWO_63 {
      OverflowShows(base, maxDelay, d * 2, k + 1);
    } else if DelayAfter(base, maxDelay, k) == Capped(base, maxDelay, k) {
      assert DelayAfter(base, maxDelay, k + 1) < 0 < Capped(base, maxDelay, k + 1);
    }
  }

  /** The exact condition: the delay follows capped exponential backoff iff no doubling overflows. */
  lemma BackoffExact(base: int, maxDelay: int)
    requires 0 < base <= maxDelay < TWO_63
    ensures (forall k: nat :: DelayAfter(base, maxDelay, k) == Capped(base, maxDelay, k))
            <==> DoublingFits(base, maxDelay)
  {
    if DoublingFits(base, maxDelay) {
      forall k: nat ensures DelayAfter(base, maxDelay, k) == Capped(base, maxDelay, k) {
        DelayIsCapped(base, maxDelay, k);
      }
    } else {
      OverflowShows(base, maxDelay, base, 0);
    }
  }

  /** Any cap up to half the range is safe; the default cap of 30 seconds is far below it. */
  lemma {:induction false} SmallCapFits(d: int, maxDelay: int)
    requires 0 < d && maxDelay <= TWO_63 / 2
    ensures DoublingFits(d, maxDelay)
    decreases maxDelay - d
  {
    if d < maxDelay {
      SmallCapFits(d * 2, maxDelay);
    }
  }

  /** The defaults of one and thirty seconds: 1, 2, 4, 8, 16, then 30 seconds for good. */
  lemma DefaultsFit()
    ensures var base, maxDelay := ConsulOptions.DEFAULT_RETRY_BASE, ConsulOptions.DEFAULT_RETRY_MAX;
            && Base(base) == 1_000_000_000 && Cap(base, maxDelay) == 30_000_000_000
            && DoublingFits(Base(base), Cap(base, maxDelay))
            && forall k: nat :: DelayAfter(Base(base), Cap(base, maxDelay), k)
                                == if k < 5 then 1_000_000_000 * Pow2(k) else 30_000_000_000
  {
    var base, maxDelay := ConsulOptions.DEFAULT_RETRY_BASE, ConsulOptions.DEFAULT_RETRY_MAX;
    SmallCapFits(base, maxDelay);
    forall k: nat
      ensures DelayAfter(base, maxDelay, k) == if k < 5 then 1_000_000_000 * Pow2(k) else 30_000_000_000
    {
      DelayIsCapped(base, maxDelay, k);
      Pow2Grows(k);
    }
  }

  lemma {:induction false} Pow2Grows(k: nat)
    ensures if k < 5 then Pow2(k) <= 16 else 32 <= Pow2(k)
  {
    if 5 < k {
      Pow2Grows(k - 1);
    } else {
      assert Pow2(0) == 1 && Pow2(1) == 2 && Pow2(2) == 4 && Pow2(3) == 8 && Pow2(4) == 16 && Pow2(5) == 32;
    }
  }

  lemma CappedInRange(base: int, maxDelay: int, k: nat)
    requires 0 < base <= maxDelay
    ensures base <= Capped(base, maxDelay, k) <= maxDelay
  {
    assert base * Pow2(k) >= base * 1;
  }

  /** One doubling step, as the invariant of a loop uses it. */
  lemma NextIsCapped(base: int, maxDelay: int, k: nat)
    requires 0 < base <= maxDelay < TWO_63
    requires DoublingFits(base, maxDelay)
    ensures NextDelay(Capped(base, maxDelay, k), maxDelay) == Capped(base, maxDelay, k + 1)
  {
    DelayIsCapped(base, maxDelay, k);
    DelayIsCapped(base, maxDelay, k + 1);
  }
}
