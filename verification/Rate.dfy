/** The token bucket over whole runs: how often one credential can be charged. */
module Rate {
  import opened Config
  import opened TokenBucket
  import opened Admission
  import opened Ledger
  import opened Effects

  /** The tokens of `k` at `now`; eviction and re-creation do not show in it. */
  function Level(s: State, k: Key, now: int): int {
    At(s, k, now).tokens
  }

  lemma {:induction false} AttemptSpends(s: State, id: Id, key: Key, now: int, k: Key)
    requires Sound(s, now) && s.config.PolicyFor(k).requestsPerMinute != 0
    ensures Level(Start(s, id, key, now).0, k, now) ==
            Level(s, k, now) - if Charged(s, Attempt(id, key, now), k) then UNIT else 0
  {
    StartEffect(s, id, key, now, k);
    AtIsBalanced(s, k, now);
    AttemptCharges(s, id, key, now, k);
  }

  /** An attempt charges the credential that it is for, when it is served at once. */
  lemma {:induction false} AttemptCharges(s: State, id: Id, key: Key, now: int, k: Key)
    requires Sound(s, now)
    ensures Charged(s, Attempt(id, key, now), k) <==>
              k == key && IsServed(s, id, key, now) && Eased(s, id, key, now).queue == [] && Available(Eased(s, id, key, now))
  {
    StartEffect(s, id, key, now, k);
  }

  lemma {:induction false} PollSpends(s: State, id: Id, now: int, k: Key)
    requires Sound(s, now) && s.config.PolicyFor(k).requestsPerMinute != 0
    ensures Level(Poll(s, id, now).0, k, now) ==
            Level(s, k, now) - if Charged(s, Recheck(id, now), k) then UNIT else 0
  {
    PollEffect(s, id, now, k);
    AtIsBalanced(s, k, now);
  }

  /** Tokens are conserved: a step that leaves the policy of `k` alone spends one whole token
      if it charges `k`, and none otherwise, whatever it evicts, re-creates or cancels. */
  lemma {:induction false} StepConservesTokens(s: State, op: Op, clock: int, k: Key)
    requires Sound(s, clock) && clock <= Clock(op, clock)
    requires s.config.PolicyFor(k) == Step(s, op).0.config.PolicyFor(k)
    requires s.config.PolicyFor(k).requestsPerMinute != 0
    ensures var now := Clock(op, clock);
            Level(Step(s, op).0, k, now) == Level(s, k, now) - if Charged(s, op, k) then UNIT else 0
  {
    var now := Clock(op, clock);
    LaterClock(s, clock, now);
    match op {
      case Registration(_) =>
      case Nested(_, _) =>
      case Attempt(id, key, _) => AttemptSpends(s, id, key, now, k);
      case Recheck(id, _) => PollSpends(s, id, now, k);
      case Completion(id) => CompleteEffect(s, id, k, now);
      case Reload(config, _) => SettleReload(s, config, now, k);
      case Quiesce =>
    }
  }

  /** Reloading the same policy is unobservable, whenever and however often it happens. */
  lemma {:induction false} SettleReload(s: State, config: Config, now: int, k: Key)
    requires Books(s)
    requires Reconfigurable(s, config) ==> s.config.PolicyFor(k) == config.PolicyFor(k)
    ensures At(Reconfigure(s, config, now), k, now) == At(s, k, now)
  {
    if k in s.buckets {
      AtIsBalanced(s, k, now);
      RefillIdempotent(s.buckets[k], now);
    }
  }

  /** A reload gives nothing either: at most it takes away what the new burst does not allow. */
  lemma {:induction false} ReloadGivesNoTokens(s: State, config: Config, now: int, k: Key)
    requires Books(s)
    requires var next := Reconfigure(s, config, now).config.PolicyFor(k);
             next.requestsPerMinute != 0 && next.burst <= s.config.PolicyFor(k).burst
    ensures Level(Reconfigure(s, config, now), k, now) <= Level(s, k, now)
  {
    ReloadKeepsDebt(s, config, now, k);
    AtIsBalanced(s, k, now);
  }

  lemma {:induction false} StepSpends(s: State, op: Op, clock: int, k: Key)
    requires Sound(s, clock) && clock <= Clock(op, clock)
    requires s.config.PolicyFor(k).requestsPerMinute != 0
    requires var next := Step(s, op).0.config.PolicyFor(k);
             next.requestsPerMinute != 0 && next.burst <= s.config.PolicyFor(k).burst
    ensures var now := Clock(op, clock);
            Level(Step(s, op).0, k, now) <= Level(s, k, now) - if Charged(s, op, k) then UNIT else 0
  {
    var now := Clock(op, clock);
    LaterClock(s, clock, now);
    match op {
      case Registration(_) =>
      case Nested(_, _) =>
      case Attempt(id, key, _) => AttemptSpends(s, id, key, now, k);
      case Recheck(id, _) => PollSpends(s, id, now, k);
      case Completion(id) => CompleteEffect(s, id, k, now);
      case Reload(config, _) => ReloadGivesNoTokens(s, config, now, k);
      case Quiesce =>
    }
  }

  // ----- Over runs -----

  /** All along the run the credential has a rate, at most `rate`, and no step raises its burst. */
  ghost predicate Capped(s: State, ops: seq<Op>, k: Key, rate: nat)
    decreases |ops|
  {
    && 0 < s.config.PolicyFor(k).requestsPerMinute <= rate
    && (ops != [] ==>
          Step(s, ops[0]).0.config.PolicyFor(k).burst <= s.config.PolicyFor(k).burst && Capped(Step(s, ops[0]).0, ops[1..], k, rate))
  }

  ghost predicate PolicyFixed(s: State, ops: seq<Op>, k: Key, policy: Policy)
    decreases |ops|
  {
    && s.config.PolicyFor(k) == policy
    && (ops == [] || PolicyFixed(Step(s, ops[0]).0, ops[1..], k, policy))
  }

  /** The charged admissions of `k` whose clock reads between `lo` and `hi`. */
  function Charges(s: State, ops: seq<Op>, k: Key, lo: int, hi: int): nat
    decreases |ops|
  {
    if ops == [] then 0
    else
      var op := ops[0];
      (if Charged(s, op, k) && Timed(op) && lo <= op.now <= hi then 1 else 0) +
      Charges(Step(s, op).0, ops[1..], k, lo, hi)
  }

  lemma {:induction false} LevelGain(s: State, k: Key, t1: int, t2: int)
    requires Sound(s, t1) && t1 <= t2
    requires s.config.PolicyFor(k).requestsPerMinute != 0
    ensures Level(s, k, t2) <= Level(s, k, t1) + (t2 - t1) * s.config.PolicyFor(k).requestsPerMinute
    ensures 0 <= Level(s, k, t2) <= Full(s.config.PolicyFor(k))
  {
    AtIsBalanced(s, k, t1);
    AtIsBalanced(s, k, t2);
    if k in s.buckets {
      RefillGain(s.buckets[k], t1, t2);
    } else {
      Earns(t2 - t1, s.config.PolicyFor(k).requestsPerMinute);
    }
  }

  // ----- The run as a sequence of numbers -----

  /** What `elapsed` nanoseconds are worth at `rate`. */
  ghost function Earned(elapsed: nat, rate: nat): nat {
    if elapsed == 0 then 0 else Earned(elapsed - 1, rate) + rate
  }

  lemma {:induction false} EarnedIs(elapsed: nat, rate: nat)
    ensures Earned(elapsed, rate) == elapsed * rate
  {
    if elapsed != 0 {
      EarnedIs(elapsed - 1, rate);
      Distribute(elapsed - 1, 1, rate);
    }
  }

  lemma {:induction false} EarnedAdds(a: nat, b: nat, rate: nat)
    ensures Earned(a, rate) + Earned(b, rate) == Earned(a + b, rate)
    decreases b
  {
    if b != 0 {
      EarnedAdds(a, b - 1, rate);
    }
  }

  /** One step: the clock, the tokens left after it, and the charges it made. */
  datatype Mark = Mark(now: int, level: int, cost: nat)

  function Cost(s: State, op: Op, k: Key): nat {
    if Charged(s, op, k) then 1 else 0
  }

  function Trail(s: State, ops: seq<Op>, clock: int, k: Key): seq<Mark>
    decreases |ops|
  {
    if ops == [] then []
    else
      var t, now := Step(s, ops[0]).0, Clock(ops[0], clock);
      [Mark(now, Level(t, k, now), Cost(s, ops[0], k))] + Trail(t, ops[1..], now, k)
  }

  function Count(marks: seq<Mark>, lo: int, hi: int): nat {
    if marks == [] then 0
    else (if lo <= marks[0].now <= hi then marks[0].cost else 0) + Count(marks[1..], lo, hi)
  }

  /** Each step spends what was there before it or was earned since, and never more than `cap`. */
  ghost predicate Spends(marks: seq<Mark>, clock: int, level: int, cap: int, rate: nat) {
    && 0 <= level
    && (marks != [] ==>
          && clock <= marks[0].now
          && marks[0].level + marks[0].cost * UNIT <= cap
          && marks[0].level + marks[0].cost * UNIT <= level + Earned(marks[0].now - clock, rate)
          && Spends(marks[1..], marks[0].now, marks[0].level, cap, rate))
  }

  lemma {:induction false} NothingLate(marks: seq<Mark>, clock: int, level: int, cap: int, rate: nat, lo: int, hi: int)
    requires Spends(marks, clock, level, cap, rate) && hi < clock
    ensures Count(marks, lo, hi) == 0
  {
    if marks != [] {
      NothingLate(marks[1..], marks[0].now, marks[0].level, cap, rate, lo, hi);
    }
  }

  /** From now on, what is spent was there or is earned. */
  lemma {:induction false} CountFromNow(marks: seq<Mark>, clock: int, level: int, cap: int, rate: nat, lo: int, hi: int)
    requires Spends(marks, clock, level, cap, rate) && clock <= hi
    ensures Count(marks, lo, hi) * UNIT <= level + Earned(hi - clock, rate)
  {
    if marks != [] {
      var m := marks[0];
      if m.now <= hi {
        CountFromNow(marks[1..], m.now, m.level, cap, rate, lo, hi);
        EarnedAdds(m.now - clock, hi - m.now, rate);
      } else {
        NothingLate(marks[1..], m.now, m.level, cap, rate, lo, hi);
      }
    }
  }

  /** In any window, what is spent is at most the cap and what is earned inside. */
  lemma {:induction false} CountWithin(marks: seq<Mark>, clock: int, level: int, cap: int, rate: nat, lo: int, hi: int)
    requires Spends(marks, clock, level, cap, rate) && level <= cap && lo <= hi
    ensures Count(marks, lo, hi) * UNIT <= cap + Earned(hi - lo, rate)
  {
    if marks != [] {
      var m := marks[0];
      if m.now < lo {
        CountWithin(marks[1..], m.now, m.level, cap, rate, lo, hi);
      } else if m.now <= hi {
        CountFromNow(marks[1..], m.now, m.level, cap, rate, lo, hi);
        EarnedAdds(m.now - lo, hi - m.now, rate);
      } else {
        NothingLate(marks[1..], m.now, m.level, cap, rate, lo, hi);
      }
    }
  }

  // ----- The run itself -----

  lemma {:induction false} ChargesAreCounted(s: State, ops: seq<Op>, clock: int, k: Key, lo: int, hi: int)
    ensures Charges(s, ops, k, lo, hi) == Count(Trail(s, ops, clock, k), lo, hi)
    decreases |ops|
  {
    if ops != [] {
      ChargesAreCounted(Step(s, ops[0]).0, ops[1..], Clock(ops[0], clock), k, lo, hi);
    }
  }

  lemma {:induction false} LevelEarns(s: State, k: Key, t1: int, t2: int, rate: nat)
    requires Sound(s, t1) && t1 <= t2 && 0 < s.config.PolicyFor(k).requestsPerMinute <= rate
    ensures Level(s, k, t2) <= Level(s, k, t1) + Earned(t2 - t1, rate)
    ensures Level(s, k, t2) <= Full(s.config.PolicyFor(k))
  {
    LevelGain(s, k, t1, t2);
    EarnsMore(t2 - t1, s.config.PolicyFor(k).requestsPerMinute, rate);
    EarnedIs(t2 - t1, rate);
  }

  /** A step leaves and spends no more than was there before or was earned since, up to `cap`. */
  ghost predicate Affordable(s: State, op: Op, clock: int, k: Key, cap: int, rate: nat) {
    var now := Clock(op, clock);
    var spent := Level(Step(s, op).0, k, now) + Cost(s, op, k) * UNIT;
    && 0 <= Level(s, k, clock)
    && clock <= now && spent <= cap && spent <= Level(s, k, clock) + Earned(now - clock, rate)
  }

  lemma {:induction false} StepIsAffordable(s: State, op: Op, clock: int, k: Key, cap: int, rate: nat)
    requires Sound(s, clock) && clock <= Clock(op, clock)
    requires 0 < s.config.PolicyFor(k).requestsPerMinute <= rate && Full(s.config.PolicyFor(k)) <= cap
    requires var next := Step(s, op).0.config.PolicyFor(k);
             next.requestsPerMinute != 0 && next.burst <= s.config.PolicyFor(k).burst
    ensures Affordable(s, op, clock, k, cap, rate)
  {
    StepSpends(s, op, clock, k);
    LevelEarns(s, k, clock, Clock(op, clock), rate);
    AtIsBalanced(s, k, clock);
  }

  lemma {:induction false} RunSpends(s: State, ops: seq<Op>, clock: int, k: Key, cap: int, rate: nat)
    requires Sound(s, clock) && Chronological(ops, clock) && Capped(s, ops, k, rate)
    requires Full(s.config.PolicyFor(k)) <= cap
    ensures Spends(Trail(s, ops, clock, k), clock, Level(s, k, clock), cap, rate)
    decreases |ops|
  {
    if ops == [] {
      AtIsBalanced(s, k, clock);
    } else {
      StepKeepsSound(s, ops[0], clock);
      RunSpends(Step(s, ops[0]).0, ops[1..], Clock(ops[0], clock), k, cap, rate);
      FirstSpends(s, ops, clock, k, cap, rate);
    }
  }

  lemma {:induction false} FirstSpends(s: State, ops: seq<Op>, clock: int, k: Key, cap: int, rate: nat)
    requires ops != [] && Sound(s, clock) && clock <= Clock(ops[0], clock)
    requires 0 < s.config.PolicyFor(k).requestsPerMinute <= rate && Full(s.config.PolicyFor(k)) <= cap
    requires var next := Step(s, ops[0]).0.config.PolicyFor(k);
             next.requestsPerMinute != 0 && next.burst <= s.config.PolicyFor(k).burst
    requires var t, now := Step(s, ops[0]).0, Clock(ops[0], clock);
             Spends(Trail(t, ops[1..], now, k), now, Level(t, k, now), cap, rate)
    ensures Spends(Trail(s, ops, clock, k), clock, Level(s, k, clock), cap, rate)
  {
    StepIsAffordable(s, ops[0], clock, k, cap, rate);
    TrailSpends(s, ops, clock, k, cap, rate);
  }

  lemma {:induction false} TrailSpends(s: State, ops: seq<Op>, clock: int, k: Key, cap: int, rate: nat)
    requires ops != [] && Affordable(s, ops[0], clock, k, cap, rate)
    requires var t, now := Step(s, ops[0]).0, Clock(ops[0], clock);
             Spends(Trail(t, ops[1..], now, k), now, Level(t, k, now), cap, rate)
    ensures Spends(Trail(s, ops, clock, k), clock, Level(s, k, clock), cap, rate)
  {
    var t, now := Step(s, ops[0]).0, Clock(ops[0], clock);
    var mark := Mark(now, Level(t, k, now), Cost(s, ops[0], k));
    assert ([mark] + Trail(t, ops[1..], now, k))[1..] == Trail(t, ops[1..], now, k);
  }

  /** Debt survives reloads: however often the configuration changes on the way, as long as no step
      raises the burst or switches the rate off, a credential is charged between two clock readings
      at most its first burst plus its highest rate times the interval, and between the start of the
      run and a reading at most what was there plus that. */
  lemma {:induction false} RateBoundAcrossReloads(s: State, ops: seq<Op>, clock: int, k: Key, rate: nat, lo: int, hi: int)
    requires Sound(s, clock) && Chronological(ops, clock) && Capped(s, ops, k, rate)
    requires lo <= hi
    ensures Charges(s, ops, k, lo, hi) * UNIT <= Full(s.config.PolicyFor(k)) + (hi - lo) * rate
    ensures clock <= hi ==> Charges(s, ops, k, lo, hi) * UNIT <= Level(s, k, clock) + (hi - clock) * rate
  {
    RunSpends(s, ops, clock, k, Full(s.config.PolicyFor(k)), rate);
    AtIsBalanced(s, k, clock);
    ChargesAreCounted(s, ops, clock, k, lo, hi);
    CountIsBounded(Trail(s, ops, clock, k), clock, Level(s, k, clock), Full(s.config.PolicyFor(k)), rate, lo, hi);
  }

  lemma {:induction false} CountIsBounded(marks: seq<Mark>, clock: int, level: int, cap: int, rate: nat, lo: int, hi: int)
    requires Spends(marks, clock, level, cap, rate) && level <= cap && lo <= hi
    ensures Count(marks, lo, hi) * UNIT <= cap + (hi - lo) * rate
    ensures clock <= hi ==> Count(marks, lo, hi) * UNIT <= level + (hi - clock) * rate
  {
    CountWithin(marks, clock, level, cap, rate, lo, hi);
    EarnedIs(hi - lo, rate);
    if clock <= hi {
      CountFromNow(marks, clock, level, cap, rate, lo, hi);
      EarnedIs(hi - clock, rate);
    }
  }

  lemma {:induction false} FixedIsCapped(s: State, ops: seq<Op>, k: Key, policy: Policy)
    requires PolicyFixed(s, ops, k, policy) && policy.requestsPerMinute != 0
    ensures Capped(s, ops, k, policy.requestsPerMinute)
    decreases |ops|
  {
    if ops != [] {
      FixedIsCapped(Step(s, ops[0]).0, ops[1..], k, policy);
    }
  }

  /** In particular under one policy: between any two clock readings a credential is charged at most
      `burst` times plus the rate times the interval. */
  lemma {:induction false} RateBound(s: State, ops: seq<Op>, clock: int, k: Key, policy: Policy, lo: int, hi: int)
    requires Sound(s, clock) && Chronological(ops, clock)
    requires PolicyFixed(s, ops, k, policy) && policy.requestsPerMinute != 0
    requires lo <= hi
    ensures Charges(s, ops, k, lo, hi) * UNIT <= policy.burst * UNIT + (hi - lo) * policy.requestsPerMinute
  {
    FixedIsCapped(s, ops, k, policy);
    RateBoundAcrossReloads(s, ops, clock, k, policy.requestsPerMinute, lo, hi);
  }
}
