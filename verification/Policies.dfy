/** Which policy a credential gets, told by what the engine does under different configurations. */
module Policies {
  import opened Config
  import opened TokenBucket
  import opened Admission
  import opened Ledger
  import opened Reachability
  import opened Effects
  import Queues
  import Eviction

  /** The same engine under another configuration. */
  function Under(s: State, config: Config): State {
    s.(config := config)
  }

  /** What the engine reads of a configuration when it works on `k` is the same in both. */
  predicate SameFor(a: Config, b: Config, k: Key) {
    && a.PolicyFor(k) == b.PolicyFor(k)
    && a.maxTrackedRequests == b.maxTrackedRequests && a.maxCredentials == b.maxCredentials
  }

  // ----- One step -----

  lemma {:induction false} DetachUnder(s: State, config: Config, id: Id)
    ensures Detach(Under(s, config), id) == Under(Detach(s, id), config)
  {
  }

  lemma {:induction false} PollUnder(s: State, config: Config, id: Id, now: int)
    ensures var (t, d) := Poll(s, id, now);
            Poll(Under(s, config), id, now) == (Under(t, config), d)
  {
    DetachUnder(s, config, id);
    if Waiting(s, id) && s.requests[id].key in s.buckets {
      var k := s.requests[id].key;
      DetachUnder(SetBucket(s, k, Refill(s.buckets[k], now)), config, id);
    }
  }

  lemma {:induction false} OfferUnder(s: State, config: Config, id: Id, k: Key, now: int)
    requires k in s.buckets
    ensures var (t, d) := Offer(s, id, k, now);
            Offer(Under(s, config), id, k, now) == (Under(t, config), d)
  {
    PollUnder(Joining(s, id, k, now), config, id, now);
    assert Joining(Under(s, config), id, k, now) == Under(Joining(s, id, k, now), config);
  }

  lemma {:induction false} SeatUnder(s: State, config: Config, id: Id, k: Key, now: int)
    requires SameFor(s.config, config, k)
    ensures var (t, d) := Seat(s, id, k, now);
            Seat(Under(s, config), id, k, now) == (Under(t, config), d)
  {
    if k in s.buckets {
      OfferUnder(s, config, id, k, now);
    } else {
      var t := s.(buckets := Evict(s.buckets, now));
      OfferUnder(SetBucket(t, k, NewBucket(t.config.PolicyFor(k), now)), config, id, k, now);
    }
  }

  lemma {:induction false} AttemptUnder(s: State, config: Config, id: Id, k: Key, now: int)
    requires SameFor(s.config, config, k)
    ensures var (t, d) := Start(s, id, k, now);
            Start(Under(s, config), id, k, now) == (Under(t, config), d)
  {
    DetachUnder(s, config, id);
    DetachKeepsLinks(s, id);
    SeatUnder(Detach(s, id), config, id, k, now);
  }

  lemma {:induction false} ForgetUnder(s: State, config: Config, id: Id)
    ensures Forget(Under(s, config), id) == Under(Forget(s, id), config)
  {
  }

  lemma {:induction false} CascadeUnder(s: State, config: Config, pending: seq<Id>)
    ensures Cascade(Under(s, config), pending) == Under(Cascade(s, pending), config)
    decreases s.children.Keys, |pending|
  {
    if pending != [] {
      var id := pending[|pending| - 1];
      ForgetShrinks(s, id);
      ForgetUnder(s, config, id);
      CascadeUnder(Forget(s, id), config, pending[..|pending| - 1] + ChildrenOf(s, id));
    }
  }

  /** The operation neither reconfigures nor asks for another credential. */
  predicate Concerns(op: Op, k: Key) {
    !op.Reload? && (op.Attempt? ==> op.key == k)
  }

  lemma {:induction false} StepUnder(s: State, config: Config, op: Op, k: Key)
    requires SameFor(s.config, config, k) && Concerns(op, k)
    ensures var (t, reply) := Step(s, op);
            Step(Under(s, config), op) == (Under(t, config), reply)
  {
    match op {
      case Attempt(id, _, now) => AttemptUnder(s, config, id, k, now);
      case Recheck(id, now) => PollUnder(s, config, id, now);
      case Completion(id) => CascadeUnder(s, config, [id]);
      case _ =>
    }
  }

  // ----- Over runs -----

  lemma {:induction false} RunUnder(s: State, config: Config, ops: seq<Op>, k: Key)
    requires Valid(s) && SameFor(s.config, config, k) && forall op :: op in ops ==> Concerns(op, k)
    ensures Eviction.Replies(Under(s, config), ops) == Eviction.Replies(s, ops)
    ensures Run(Under(s, config), ops) == Under(Run(s, ops), config)
    decreases |ops|
  {
    if ops != [] {
      assert ops[0] in ops && forall op :: op in ops[1..] ==> op in ops;
      StepUnder(s, config, ops[0], k);
      StepKeepsValid(s, ops[0]);
      Queues.ConfigUntouched(s, ops[0]);
      RunUnder(Step(s, ops[0]).0, config, ops[1..], k);
    }
  }

  /** The override of a credential counts as the default would: over every run of operations on `k`
      the engine replies as if the override were the default and there were no override. */
  lemma {:induction false} OverrideIsItsDefault(s: State, ops: seq<Op>, k: Key)
    requires Valid(s) && k in s.config.overrides && forall op :: op in ops ==> Concerns(op, k)
    ensures var c := s.config;
            var other := c.(fallback := c.overrides[k], overrides := c.overrides - {k});
            Eviction.Replies(Under(s, other), ops) == Eviction.Replies(s, ops) && Run(Under(s, other), ops) == Under(Run(s, ops), other)
  {
    var c := s.config;
    RunUnder(s, c.(fallback := c.overrides[k], overrides := c.overrides - {k}), ops, k);
  }

  /** The overrides of other credentials do not matter, and neither does the default for a
      credential that has an override. */
  lemma {:induction false} OthersDoNotMatter(s: State, ops: seq<Op>, k: Key, config: Config)
    requires Valid(s) && forall op :: op in ops ==> Concerns(op, k)
    requires config.enabled == s.config.enabled
    requires config.maxTrackedRequests == s.config.maxTrackedRequests && config.maxCredentials == s.config.maxCredentials
    requires if k in s.config.overrides then k in config.overrides && config.overrides[k] == s.config.overrides[k]
             else k !in config.overrides && config.fallback == s.config.fallback
    ensures Eviction.Replies(Under(s, config), ops) == Eviction.Replies(s, ops)
    ensures Run(Under(s, config), ops) == Under(Run(s, ops), config)
  {
    RunUnder(s, config, ops, k);
  }

  // ----- Switched off, switched on -----

  /** The plugin, or the policy that applies to `k`, is switched off. */
  predicate SwitchedOff(config: Config, k: Key) {
    || !config.enabled
    || (k in config.overrides && !config.overrides[k].enabled)
    || (k !in config.overrides && !config.fallback.enabled)
  }

  /** Then an attempt is admitted at once, holds nothing, and makes no bucket. */
  lemma {:induction false} SwitchedOffAdmits(s: State, id: Id, k: Key, now: int)
    requires SwitchedOff(s.config, k) && !s.stopping && id in s.requests && !s.requests[id].Queued?
    ensures var (t, d) := Start(s, id, k, now);
            d == Admit && t.requests == s.requests[id := Idle] && t.buckets.Keys == s.buckets.Keys
  {
    DetachKeepsKeys(s, id);
  }

  lemma {:induction false} AdmittedIsServed(s: State, id: Id, k: Key, now: int)
    requires Books(s) && s.config.Valid() && Proceeds(s, id) && s.config.PolicyFor(k).enabled
    requires Start(s, id, k, now).1 == Admit
    ensures Start(s, id, k, now).0.requests == s.requests[id := Active(k)]
  {
    StartEffect(s, id, k, now, k);
  }

  lemma {:induction false} ActiveHasBucket(s: State, id: Id, k: Key)
    requires Books(s) && id in s.requests && s.requests[id] == Active(k)
    ensures k in s.buckets
  {
  }

  /** Otherwise it is admitted only by taking a slot on `k`. */
  lemma {:induction false} SwitchedOnCharges(s: State, id: Id, k: Key, now: int)
    requires Books(s) && s.config.Valid()
    requires !SwitchedOff(s.config, k) && !s.stopping && id in s.requests && !s.requests[id].Queued?
    requires Start(s, id, k, now).1 == Admit
    ensures var t := Start(s, id, k, now).0;
            t.requests == s.requests[id := Active(k)] && k in t.buckets
  {
    AdmittedIsServed(s, id, k, now);
    StartKeepsBooks(s, id, k, now);
    ActiveHasBucket(Start(s, id, k, now).0, id, k);
  }

  /** A waiter of a credential whose policy has been switched off is let go by its next poll. */
  lemma {:induction false} SwitchedOffReleases(s: State, id: Id, now: int)
    requires Books(s) && Waiting(s, id) && !s.stopping && now < s.requests[id].deadline
    requires SwitchedOff(s.config, s.requests[id].key)
    ensures var (t, d) := Poll(s, id, now);
            d == Admit && t.requests == s.requests[id := Idle]
  {
    var k := s.requests[id].key;
    PollEffect(s, id, now, k);
    AtIsBalanced(s, k, now);
  }

  /** A reload takes effect on `k` as a whole: from then on every run of operations on `k` is the
      one that the default and the overrides of the new configuration ask for. */
  lemma {:induction false} ReloadAppliesThePolicy(s: State, config: Config, now: int, k: Key)
    requires Valid(s) && Reconfigurable(s, config) && k in s.buckets
    ensures var policy := Reconfigure(s, config, now).buckets[k].policy;
            var own := if k in config.overrides then config.overrides[k] else config.fallback;
            && policy.enabled == !SwitchedOff(config, k)
            && policy == own.(enabled := policy.enabled)
  {
  }
}
