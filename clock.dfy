/** The millisecond clock as the firmware sees it: `millis()` is a 32-bit
    counter that wraps, every elapsed time is taken modulo 2^32, and a busy
    wait is released by the first clock reading whose elapsed time reaches
    the period. */
module Clock {
  import opened Common

  const WRAP: int := 0x1_0000_0000

  /** `millis() - last`, stored in a `uint32_t`. Whether the subtraction is
      done on 32 or 64 bits, truncating to 32 bits leaves it modulo 2^32. */
  function Elapsed(now: u32, last: int): (e: u32)
    ensures (now - last - e) % WRAP == 0
    ensures 0 <= last <= now ==> e == now - last
    ensures now < last < now + WRAP ==> e == now + WRAP - last
  {
    (now - last) % WRAP
  }

  /** Wrap-around is harmless: as long as less than 2^32 ms really passed,
      the truncated difference of the two counter values is the true
      elapsed time, even when the counter rolled over in between. */
  lemma ElapsedAcrossWrap(tLast: nat, tNow: nat)
    requires tLast <= tNow < tLast + WRAP
    ensures Elapsed(tNow % WRAP, tLast % WRAP) == tNow - tLast
  {
    var d := tNow - tLast;
    var a, b := tNow % WRAP, tLast % WRAP;
    assert tNow == (tNow / WRAP) * WRAP + a;
    assert tLast == (tLast / WRAP) * WRAP + b;
    var q := tNow / WRAP - tLast / WRAP;
    assert a - b == d - q * WRAP;
    assert (a - b) % WRAP == d % WRAP by {
      ModShift(d, -q);
    }
    assert d % WRAP == d;
  }

  /** Adding a multiple of the modulus does not change the remainder. */
  lemma {:induction false} ModShift(d: int, q: int)
    ensures (d + q * WRAP) % WRAP == d % WRAP
    decreases if q < 0 then -q else q
  {
    if q > 0 {
      ModShift(d, q - 1);
      assert d + q * WRAP == (d + (q - 1) * WRAP) + WRAP;
    } else if q < 0 {
      ModShift(d, q + 1);
      assert d + q * WRAP == (d + (q + 1) * WRAP) - WRAP;
    }
  }

  /** Some reading that is not the last one reaches the period; the reading
      after it is the one the wait stores as the new start time. */
  ghost predicate CanRelease(clock: seq<u32>, last: int, period: int) {
    exists k :: 0 <= k < |clock| - 1 && period <= Elapsed(clock[k], last)
  }

  /** Reading `k` is the first whose elapsed time is at least `period`. */
  ghost predicate ReleasedAt(clock: seq<u32>, last: int, period: int, k: nat) {
    && k < |clock|
    && period <= Elapsed(clock[k], last)
    && forall j :: 0 <= j < k ==> Elapsed(clock[j], last) < period
  }
}
