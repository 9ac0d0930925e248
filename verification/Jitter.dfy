/** The refresh jitter in 64-bit machine arithmetic
    (jitteredWorkloadIdentityRefreshInterval of internal/controller/workloadidentity_controller.go). */
module Jitter {

  const TWO_64: int := 0x1_0000_0000_0000_0000
  const TWO_63: int := 0x8000_0000_0000_0000
  const MAX_HASH: int := 0xFFFF_FFFF

  /** The value a uint64 holds after an operation with this mathematical result. */
  function Unsigned(x: int): int { x % TWO_64 }

  /** The value an int64 holds after an operation with this mathematical result. */
  function Signed(x: int): int {
    var y := x % TWO_64;
    if y < TWO_63 then y else y - TWO_64
  }

  /** The uint64 expression, wrapping after every operation. */
  function JitterNanos(maxJitter: int, hash: int): int {
    Unsigned(Unsigned(Unsigned(maxJitter / MAX_HASH) * hash) + Unsigned(Unsigned(maxJitter % MAX_HASH) * hash) / MAX_HASH)
  }

  /** The interval after jitter; `hash` is the FNV sum of a non-empty key. Go truncates the division
      by ten, which for a positive interval is the floor. */
  function Jittered(interval: int, hash: int): int {
    if interval <= 0 then interval else Signed(interval + Signed(JitterNanos(interval / 10, hash)))
  }

  /** x * k / k == x, and the quotient of a product that stays below a multiple. */
  lemma DivideProduct(q: int, r: int, h: int)
    requires 0 <= r < MAX_HASH && 0 <= q && 0 <= h
    ensures (q * MAX_HASH + r) * h / MAX_HASH == q * h + r * h / MAX_HASH
  {
    assert (q * MAX_HASH + r) * h == (q * h) * MAX_HASH + r * h;
    ShiftOut(q * h, r * h);
  }

  lemma ShiftOut(a: int, b: int)
    ensures (a * MAX_HASH + b) / MAX_HASH == a + b / MAX_HASH
  {
    var d := b / MAX_HASH;
    assert b == d * MAX_HASH + b % MAX_HASH;
    assert a * MAX_HASH + b == (a + d) * MAX_HASH + b % MAX_HASH;
  }

  lemma Scale(a: int, b: int, k: int)
    requires a <= b && 0 <= k
    ensures a * k <= b * k && k * a <= k * b
  {
  }

  lemma DivideMonotone(a: int, b: int)
    requires a <= b
    ensures a / MAX_HASH <= b / MAX_HASH
  {
  }

  lemma UnsignedFits(x: int)
    requires 0 <= x < TWO_64
    ensures Unsigned(x) == x
  {
  }

  lemma PartsStaySmall(q: int, r: int, hash: int)
    requires 0 <= q && 0 <= r < MAX_HASH && 0 <= hash <= MAX_HASH && q * MAX_HASH + r < TWO_63
    ensures 0 <= q * hash <= q * MAX_HASH && 0 <= r * hash < TWO_64
    ensures 0 <= r * hash / MAX_HASH <= r && q < TWO_64
  {
    Scale(hash, MAX_HASH, q);
    Scale(0, q, hash);
    Scale(hash, MAX_HASH, r);
    Scale(0, r, hash);
    DivideMonotone(0, r * hash);
    DivideMonotone(r * hash, r * MAX_HASH);
    ShiftOut(r, 0);
  }

  /** No uint64 step overflows: the machine result is the exact floor of maxJitter * hash / (2^32 - 1). */
  lemma NoStepOverflows(maxJitter: int, hash: int)
    requires 0 <= maxJitter < TWO_63 && 0 <= hash <= MAX_HASH
    ensures 0 <= maxJitter / MAX_HASH * hash < TWO_64 && 0 <= maxJitter % MAX_HASH * hash < TWO_64
    ensures 0 <= maxJitter / MAX_HASH * hash + maxJitter % MAX_HASH * hash / MAX_HASH < TWO_64
    ensures JitterNanos(maxJitter, hash) == maxJitter * hash / MAX_HASH
    ensures 0 <= JitterNanos(maxJitter, hash) <= maxJitter
  {
    hide Unsigned;
    var q, r := maxJitter / MAX_HASH, maxJitter % MAX_HASH;
    assert maxJitter == q * MAX_HASH + r;
    PartsStaySmall(q, r, hash);
    DivideProduct(q, r, hash);
    UnsignedFits(q);
    UnsignedFits(r);
    UnsignedFits(q * hash);
    UnsignedFits(r * hash);
    UnsignedFits(q * hash + r * hash / MAX_HASH);
  }

  lemma SignedFits(x: int)
    requires 0 <= x < TWO_63
    ensures Signed(x) == x
  {
  }

  /** For every positive interval whose tenth still fits, and every hash, the refresh interval grows
      by exactly floor(interval/10 * hash / (2^32 - 1)). */
  lemma JitterIsExact(interval: int, hash: int)
    requires 0 < interval && interval + interval / 10 < TWO_63 && 0 <= hash <= MAX_HASH
    ensures Jittered(interval, hash) == interval + interval / 10 * hash / MAX_HASH
    ensures interval <= Jittered(interval, hash) <= interval + interval / 10
  {
    hide JitterNanos;
    hide Signed;
    NoStepOverflows(interval / 10, hash);
    var jitter := JitterNanos(interval / 10, hash);
    SignedFits(jitter);
    SignedFits(interval + jitter);
  }

  /** No object is refreshed before its interval or more than a tenth after it; without a positive interval
      there is nothing to spread. */
  lemma JitterIsBounded(interval: int, hash: int)
    requires interval + interval / 10 < TWO_63 && 0 <= hash <= MAX_HASH
    ensures interval <= Jittered(interval, hash)
    ensures Jittered(interval, hash) <= if interval > 0 then interval + interval / 10 else interval
  {
    if interval > 0 {
      JitterIsExact(interval, hash);
    }
  }

  lemma JitterIsMonotone(interval: int, low: int, high: int)
    requires 0 < interval && interval + interval / 10 < TWO_63 && 0 <= low <= high <= MAX_HASH
    ensures Jittered(interval, low) <= Jittered(interval, high)
  {
    JitterIsExact(interval, low);
    JitterIsExact(interval, high);
    Scale(low, high, interval / 10);
    DivideMonotone(interval / 10 * low, interval / 10 * high);
  }

  /** Both ends are reached. */
  lemma JitterReachesBothEnds(interval: int)
    requires 0 < interval && interval + interval / 10 < TWO_63
    ensures Jittered(interval, 0) == interval && Jittered(interval, MAX_HASH) == interval + interval / 10
  {
    JitterIsExact(interval, 0);
    JitterIsExact(interval, MAX_HASH);
    ShiftOut(interval / 10, 0);
  }

  /** The bound is the right one: the sum is exact for every hash exactly when the interval and a
      tenth of it fit into an int64 together. */
  lemma FitsExactly(interval: int)
    requires 0 < interval < TWO_63
    ensures interval + interval / 10 < TWO_63 <==>
              forall hash | 0 <= hash <= MAX_HASH :: Jittered(interval, hash) == interval + interval / 10 * hash / MAX_HASH
  {
    if interval + interval / 10 < TWO_63 {
      forall hash | 0 <= hash <= MAX_HASH
        ensures Jittered(interval, hash) == interval + interval / 10 * hash / MAX_HASH
      {
        JitterIsExact(interval, hash);
      }
    } else {
      NoStepOverflows(interval / 10, MAX_HASH);
      ShiftOut(interval / 10, 0);
      assert Jittered(interval, MAX_HASH) < 0;
    }
  }
}
