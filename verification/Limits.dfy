/** Concurrency, queue and tracking limits while the configuration changes underneath. */
module Limits {
  import opened Config
  import opened Admission
  import opened Ledger
  import opened Completion
  import opened Reachability
  import opened Effects
  import opened Queues

  function Slots(s: State, k: Key): int {
    if k in s.buckets then s.buckets[k].active else 0
  }

  function Max(a: int, b: int): int { if a >= b then a else b }

  /** `after` is no more than `before`, or no more than the limit. */
  predicate Within(after: int, before: int, limit: int) {
    after <= Max(before, limit)
  }

  lemma {:induction false} AttemptSlots(s: State, id: Id, key: Key, now: int, k: Key)
    requires Books(s) && s.config.Valid() && s.config.PolicyFor(k).maxConcurrency != 0
    ensures Within(Slots(Start(s, id, key, now).0, k), Slots(s, k), s.config.PolicyFor(k).maxConcurrency)
  {
    StartEffect(s, id, key, now, k);
    AtIsBalanced(s, k, now);
  }

  lemma {:induction false} PollSlots(s: State, id: Id, now: int, k: Key)
    requires Books(s) && s.config.PolicyFor(k).maxConcurrency != 0
    ensures Within(Slots(Poll(s, id, now).0, k), Slots(s, k), s.config.PolicyFor(k).maxConcurrency)
  {
    PollEffect(s, id, now, k);
    AtIsBalanced(s, k, now);
  }

  lemma {:induction false} CompleteSlots(s: State, id: Id, k: Key)
    requires Valid(s)
    ensures Slots(Complete(s, id), k) <= Slots(s, k)
    ensures |Line(Complete(s, id), k)| <= |Line(s, k)|
  {
    CompleteIsExact(s, id);
  }

  lemma {:induction false} StepSlots(s: State, op: Op, k: Key)
    requires Valid(s) && s.config.Valid()
    ensures var policy := s.config.PolicyFor(k);
            policy.maxConcurrency != 0 ==> Within(Slots(Step(s, op).0, k), Slots(s, k), policy.maxConcurrency)
  {
    if s.config.PolicyFor(k).maxConcurrency != 0 {
      match op {
        case Attempt(id, key, now) => AttemptSlots(s, id, key, now, k);
        case Recheck(id, now) => PollSlots(s, id, now, k);
        case Completion(id) => CompleteSlots(s, id, k);
        case _ =>
      }
    }
  }

  lemma {:induction false} AttemptLine(s: State, id: Id, key: Key, now: int, k: Key)
    requires Books(s) && s.config.Valid()
    ensures Within(|Line(Start(s, id, key, now).0, k)|, |Line(s, k)|, s.config.PolicyFor(k).maxQueue)
  {
    StartEffect(s, id, key, now, k);
    AtIsBalanced(s, k, now);
  }

  lemma {:induction false} StepLine(s: State, op: Op, k: Key)
    requires Valid(s) && s.config.Valid()
    ensures Within(|Line(Step(s, op).0, k)|, |Line(s, k)|, s.config.PolicyFor(k).maxQueue)
  {
    match op {
      case Attempt(id, key, now) => AttemptLine(s, id, key, now, k);
      case Recheck(id, now) => PollTakesTheFront(s, id, now, k);
      case Completion(id) => CompleteSlots(s, id, k);
      case _ =>
    }
  }

  lemma {:induction false} FewerKeys<K, V, W>(m: map<K, V>, n: map<K, W>)
    requires m.Keys <= n.Keys
    ensures |m| <= |n|
  {
    SubsetSize(m.Keys, n.Keys);
    assert |m| == |m.Keys| && |n| == |n.Keys|;
  }

  lemma {:induction false} SubsetSize<K>(a: set<K>, b: set<K>)
    requires a <= b
    ensures |a| <= |b|
  {
    assert b == a + (b - a);
  }

  lemma {:induction false} CompleteTracked(s: State, id: Id)
    requires Valid(s)
    ensures |Complete(s, id).requests| <= |s.requests| && |Complete(s, id).buckets| <= |s.buckets|
  {
    CompleteIsExact(s, id);
    FewerKeys(Complete(s, id).requests, s.requests);
    FewerKeys(Complete(s, id).buckets, s.buckets);
  }

  lemma {:induction false} StepTracked(s: State, op: Op)
    requires Valid(s) && s.config.Valid()
    ensures Within(|Step(s, op).0.requests|, |s.requests|, s.config.maxTrackedRequests)
  {
    var t := Step(s, op).0;
    match op {
      case Attempt(id, k, now) => StartKeepsLinks(s, id, k, now); FewerKeys(t.requests, s.requests);
      case Recheck(id, now) => PollKeepsLinks(s, id, now); FewerKeys(t.requests, s.requests);
      case Completion(id) => CompleteTracked(s, id);
      case _ =>
    }
  }

  lemma {:induction false} AttemptBuckets(s: State, id: Id, k: Key, now: int)
    ensures Within(|Start(s, id, k, now).0.buckets|, |s.buckets|, s.config.maxCredentials)
  {
    var t := Start(s, id, k, now).0;
    StartKeys(s, id, k, now);
    if t.buckets.Keys <= s.buckets.Keys {
      FewerKeys(t.buckets, s.buckets);
    } else {
      assert |t.buckets| == |t.buckets.Keys|;
    }
  }

  lemma {:induction false} StepBuckets(s: State, op: Op)
    requires Valid(s)
    ensures Within(|Step(s, op).0.buckets|, |s.buckets|, s.config.maxCredentials)
  {
    match op {
      case Attempt(id, k, now) => AttemptBuckets(s, id, k, now);
      case Recheck(id, now) => PollBuckets(s, id, now);
      case Completion(id) => CompleteTracked(s, id);
      case Reload(config, now) => ReloadBuckets(s, config, now);
      case _ =>
    }
  }

  lemma {:induction false} PollBuckets(s: State, id: Id, now: int)
    ensures |Poll(s, id, now).0.buckets| == |s.buckets|
  {
    PollKeepsKeys(s, id, now);
    FewerKeys(Poll(s, id, now).0.buckets, s.buckets);
    FewerKeys(s.buckets, Poll(s, id, now).0.buckets);
  }

  lemma {:induction false} ReloadBuckets(s: State, config: Config, now: int)
    ensures |Reconfigure(s, config, now).buckets| == |s.buckets|
  {
    FewerKeys(Reconfigure(s, config, now).buckets, s.buckets);
    FewerKeys(s.buckets, Reconfigure(s, config, now).buckets);
  }

  // ----- Between reconfigurations -----

  ghost predicate NoReload(ops: seq<Op>) {
    forall i :: 0 <= i < |ops| ==> !ops[i].Reload?
  }

  /** Until the next reconfiguration nothing grows beyond the larger of its limit and what it
      was; lowered limits drain, and no operation overshoots them. */
  lemma {:induction false} LimitsHold(s: State, ops: seq<Op>, k: Key)
    requires Valid(s) && s.config.Valid() && NoReload(ops)
    ensures var t := Run(s, ops);
            var policy := s.config.PolicyFor(k);
            && (policy.maxConcurrency != 0 ==> Within(Slots(t, k), Slots(s, k), policy.maxConcurrency))
            && Within(|Line(t, k)|, |Line(s, k)|, policy.maxQueue)
            && Within(|t.requests|, |s.requests|, s.config.maxTrackedRequests)
            && Within(|t.buckets|, |s.buckets|, s.config.maxCredentials)
    decreases |ops|
  {
    if ops != [] {
      var op := ops[0];
      StepSlots(s, op, k);
      StepLine(s, op, k);
      StepTracked(s, op);
      StepBuckets(s, op);
      StepKeepsValid(s, op);
      ConfigUntouched(s, op);
      LimitsHold(Step(s, op).0, ops[1..], k);
    }
  }
}
