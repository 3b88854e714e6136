/** One credential's token bucket as a value: its transitions and the laws of refilling.

    Time is a whole number of nanoseconds and a token is worth `UNIT`, so that the rate of
    `requestsPerMinute` adds exactly `requestsPerMinute` parts of a token per nanosecond. */
module TokenBucket {
  import opened Config

  const UNIT: int := 60_000_000_000
  const NANOS_PER_MILLI: int := 1_000_000

  datatype BucketState = BucketState(
    policy: Policy,
    tokens: int,
    updated: int,
    active: int,
    queue: seq<string>)

  function Min(a: int, b: int): int { if a <= b then a else b }

  function Full(policy: Policy): int { policy.burst * UNIT }

  function NewBucket(policy: Policy, now: int): BucketState {
    BucketState(policy, Full(policy), now, 0, [])
  }

  /** Time elapsed since the last refill, saturating when the clock reads earlier. */
  function Elapsed(updated: int, now: int): nat {
    if now <= updated then 0 else now - updated
  }

  function Refill(b: BucketState, now: int): BucketState {
    var tokens :=
      if b.policy.requestsPerMinute == 0 then Full(b.policy)
      else Min(b.tokens + Elapsed(b.updated, now) * b.policy.requestsPerMinute, Full(b.policy));
    b.(tokens := tokens, updated := now)
  }

  predicate Available(b: BucketState) {
    && (b.policy.maxConcurrency == 0 || b.active < b.policy.maxConcurrency)
    && (b.policy.requestsPerMinute == 0 || b.tokens >= UNIT)
  }

  function Charge(b: BucketState): BucketState {
    b.(tokens := if b.policy.requestsPerMinute != 0 then b.tokens - UNIT else b.tokens,
       active := b.active + 1)
  }

  /** Nanoseconds, rounded up, until `missing` parts have been added at `rate` parts each. */
  function WaitFor(missing: int, rate: nat): int
    requires rate != 0
  {
    (missing + rate - 1) / rate
  }

  function WakeAt(b: BucketState, now: int, deadline: int): int {
    if b.policy.requestsPerMinute != 0 && b.tokens < UNIT then
      Min(now + WaitFor(UNIT - b.tokens, b.policy.requestsPerMinute), deadline)
    else
      deadline
  }

  /** A bucket that eviction may drop: nothing active, nobody waiting, no rate debt. */
  predicate Evictable(b: BucketState) {
    && b.active == 0
    && b.queue == []
    && b.tokens >= Full(b.policy)
  }

  lemma {:induction false} Distribute(a: int, b: int, rate: int)
    ensures a * rate + b * rate == (a + b) * rate
  {
  }

  lemma {:induction false} Earns(elapsed: int, rate: nat)
    requires elapsed >= 0
    ensures elapsed * rate >= 0
  {
  }

  lemma {:induction false} EarnsMore(elapsed: int, rate: nat, more: nat)
    requires elapsed >= 0 && rate <= more
    ensures elapsed * rate <= elapsed * more
  {
    assert elapsed * more - elapsed * rate == elapsed * (more - rate);
    Earns(elapsed, more - rate);
  }

  /** Refilling in two steps is refilling once: intermediate refills are unobservable. */
  lemma {:induction false} RefillComposes(b: BucketState, t1: int, t2: int)
    requires b.updated <= t1 <= t2
    ensures Refill(Refill(b, t1), t2) == Refill(b, t2)
  {
    var rate := b.policy.requestsPerMinute;
    assert (t1 - b.updated) * rate + (t2 - t1) * rate == (t2 - b.updated) * rate;
    assert (t2 - t1) * rate >= 0;
  }

  lemma {:induction false} RefillIdempotent(b: BucketState, now: int)
    ensures Refill(Refill(b, now), now) == Refill(b, now)
  {
    assert 0 * b.policy.requestsPerMinute == 0;
  }

  /** Over `t2 - t1` nanoseconds a bucket gains at most the rate times the interval. */
  lemma {:induction false} RefillGain(b: BucketState, t1: int, t2: int)
    requires b.updated <= t1 <= t2
    requires b.policy.requestsPerMinute != 0
    ensures Refill(b, t1).tokens <= Refill(b, t2).tokens
    ensures Refill(b, t2).tokens <= Refill(b, t1).tokens + (t2 - t1) * b.policy.requestsPerMinute
  {
    var rate := b.policy.requestsPerMinute;
    assert (t1 - b.updated) * rate + (t2 - t1) * rate == (t2 - b.updated) * rate;
    assert (t2 - t1) * rate >= 0;
  }

  lemma {:induction false} RefillBounds(b: BucketState, now: int)
    requires 0 <= b.tokens
    ensures 0 <= Refill(b, now).tokens <= Full(b.policy)
  {
    assert Elapsed(b.updated, now) * b.policy.requestsPerMinute >= 0;
  }

  /** `WaitFor` is the first whole number of nanoseconds that earns `missing` parts, and is positive. */
  lemma {:induction false} WaitForIsFirst(missing: int, rate: nat, elapsed: nat)
    requires missing > 0 && rate != 0
    ensures WaitFor(missing, rate) >= 1
    ensures elapsed * rate >= missing <==> elapsed >= WaitFor(missing, rate)
  {
    var w := WaitFor(missing, rate);
    assert w * rate <= missing + rate - 1 < w * rate + rate;
    if elapsed >= w {
      assert elapsed * rate >= w * rate;
      assert w * rate >= missing;
    } else {
      assert elapsed * rate <= (w - 1) * rate;
      assert (w - 1) * rate == w * rate - rate;
    }
  }
}
