/** The bounds that validation puts on a configuration, and so on every engine. */
module Bounds {
  import opened Config
  import opened TokenBucket
  import opened Admission
  import opened Ledger
  import opened Reachability
  import Wake
  import opened Queues
  import opened Limits

  /** The bounds on one policy, as they are documented. */
  predicate PolicyWithin(p: Policy) {
    && 0 < p.burst <= 1_000_000 && p.requestsPerMinute <= 60_000_000
    && p.maxConcurrency <= 100_000 && p.maxQueue <= 100_000
    && 0 < p.queueTimeoutMs <= 300_000
  }

  /** A reload is taken exactly when the engine is running and every part of the new configuration
      is within its bounds; otherwise nothing at all changes. */
  lemma {:induction false} ReloadIsTakenIff(s: State, config: Config, now: int)
    ensures var (t, reply) := Step(s, Reload(config, now));
            && (reply == Reloaded(true) <==>
                  && !s.stopping && config.otherChecksPass
                  && 0 < config.maxTrackedRequests <= 100_000 && 0 < config.maxCredentials <= 100_000
                  && |config.overrides| <= config.maxCredentials
                  && PolicyWithin(config.fallback) && forall k :: k in config.overrides ==> PolicyWithin(config.overrides[k]))
            && (if reply == Reloaded(true) then t.config == config else reply == Reloaded(false) && t == s)
            && t.requests == s.requests && t.parents == s.parents && t.children == s.children && t.stopping == s.stopping
  {
  }

  /** Within the bounds of any valid configuration. */
  ghost predicate Small(s: State) {
    && |s.requests| <= 100_000 && |s.buckets| <= 100_000
    && forall k :: |Line(s, k)| <= 100_000
  }

  lemma {:induction false} StepStaysSmall(s: State, op: Op)
    requires Valid(s) && s.config.Valid() && Small(s)
    ensures Small(Step(s, op).0)
  {
    StepTracked(s, op);
    StepBuckets(s, op);
    forall k ensures |Line(Step(s, op).0, k)| <= 100_000 {
      StepLine(s, op, k);
    }
  }

  lemma {:induction false} RunStaysSmall(s: State, ops: seq<Op>)
    requires Valid(s) && s.config.Valid() && Small(s)
    ensures var t := Run(s, ops); Valid(t) && t.config.Valid() && Small(t)
    decreases |ops|
  {
    if ops != [] {
      StepStaysSmall(s, ops[0]);
      StepKeepsValid(s, ops[0]);
      ConfigStaysValid(s, ops[0]);
      RunStaysSmall(Step(s, ops[0]).0, ops[1..]);
    }
  }

  lemma {:induction false} SlotsAreRequests(s: State, k: Key)
    requires Books(s)
    ensures Slots(s, k) <= |s.requests|
  {
    if k in s.buckets {
      assert Balanced(s.config, s.requests, k, s.buckets[k]);
      SubsetSize(Holders(s.requests, k), s.requests.Keys);
      assert |s.requests| == |s.requests.Keys|;
    }
  }

  lemma {:induction false} TokensAreBounded(s: State, k: Key)
    requires Books(s) && s.config.Valid() && k in s.buckets
    ensures 0 <= s.buckets[k].tokens <= 1_000_000 * UNIT
  {
    assert Balanced(s.config, s.requests, k, s.buckets[k]);
    assert s.config.PolicyFor(k).burst <= 1_000_000;
  }

  /** An engine started on a valid configuration stays within fixed bounds, whatever is asked of it
      and however it is reconfigured. */
  lemma {:induction false} EverythingIsBounded(config: Config, ops: seq<Op>, k: Key)
    requires config.Valid()
    ensures var t := Run(Initial(config), ops);
            && |t.requests| <= 100_000 && |t.buckets| <= 100_000
            && |Line(t, k)| <= 100_000 && Slots(t, k) <= 100_000
            && (k in t.buckets ==> 0 <= t.buckets[k].tokens <= 1_000_000 * UNIT)
  {
    InitialIsValid(config);
    RunStaysSmall(Initial(config), ops);
    SlotsAreRequests(Run(Initial(config), ops), k);
    if k in Run(Initial(config), ops).buckets {
      TokensAreBounded(Run(Initial(config), ops), k);
    }
  }

  /** Who is told to wait has a deadline, the configured milliseconds after the attempt, at most
      five minutes away, and is to wake up by then. */
  lemma {:induction false} WaitsAreBounded(s: State, id: Id, k: Key, now: int)
    requires Books(s) && s.config.Valid() && Wake.Waits(Start(s, id, k, now).1)
    ensures var (t, d) := Start(s, id, k, now);
            && id in t.requests && t.requests[id].Queued?
            && t.requests[id].deadline == now + s.config.PolicyFor(k).queueTimeoutMs * 1_000_000
            && now < d.instant <= t.requests[id].deadline <= now + 300_000_000_000
  {
    Wake.AttemptWaitsInTime(s, id, k, now);
    assert s.config.PolicyFor(k).queueTimeoutMs <= 300_000;
  }

  /** A minute of 60 000 000 000 nanoseconds earns as many tokens as the rate says, up to the burst. */
  lemma {:induction false} AMinuteEarnsTheRate(b: BucketState)
    requires b.policy.requestsPerMinute > 0
    ensures Refill(b, b.updated + 60_000_000_000).tokens ==
            Min(b.tokens + b.policy.requestsPerMinute * UNIT, b.policy.burst * UNIT)
  {
  }
}
