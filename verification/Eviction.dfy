/** Eviction is unobservable: an engine that never evicts gives the same answers. */
module Eviction {
  import opened Config
  import opened TokenBucket
  import opened Admission
  import opened Ledger
  import opened Completion
  import opened Reachability
  import opened Effects

  /** The attempt of an engine that keeps every bucket and has room for all of them. When
      `refused`, it is told to give the answer of an engine that ran out of room. */
  function KeepingStart(s: State, id: Id, k: Key, now: int, refused: bool): (State, Decision) {
    if s.stopping then (s, Reject(Stopping))
    else if id !in s.requests then (s, Reject(RequestEnded))
    else if s.requests[id].Queued? then (s, Reject(DuplicateWait))
    else
      var t := Detach(s, id);
      if !t.config.PolicyFor(k).enabled then (t, Admit)
      else if refused then (t, Reject(Capacity))
      else if k in t.buckets then Offer(t, id, k, now)
      else Offer(SetBucket(t, k, NewBucket(t.config.PolicyFor(k), now)), id, k, now)
  }

  function KeepingStep(s: State, op: Op, refused: bool): (State, Reply) {
    if op.Attempt? then
      var (t, d) := KeepingStart(s, op.id, op.key, op.now, refused);
      (t, Deciding(d))
    else Step(s, op)
  }

  /** The evicting engine turns this operation down for lack of bucket space. */
  predicate Refuses(s: State, op: Op) {
    op.Attempt? && Crowded(s, op.id, op.key, op.now)
  }

  /** Equal but for buckets that are full and idle in one and missing in the other. */
  ghost predicate Alike(e: State, n: State, now: int) {
    && e.config == n.config
    && e.requests == n.requests
    && e.parents == n.parents
    && e.children == n.children
    && e.stopping == n.stopping
    && SameView(e, n, now)
  }

  ghost predicate SameView(e: State, n: State, now: int) {
    forall k :: At(e, k, now) == At(n, k, now)
  }

  lemma {:induction false} UntouchedBuckets(s: State, t: State, k: Key, now: int)
    requires t.buckets == s.buckets && t.config == s.config
    ensures At(t, k, now) == At(s, k, now)
  {
  }

  lemma {:induction false} AlikeLater(e: State, n: State, t1: int, t2: int)
    requires Alike(e, n, t1) && ClockOk(e, t1) && ClockOk(n, t1) && t1 <= t2
    ensures Alike(e, n, t2)
  {
    forall k ensures At(e, k, t2) == At(n, k, t2) {
      AtLater(e, k, t1, t2);
      AtLater(n, k, t1, t2);
    }
  }

  lemma {:induction false} KeepingEffect(s: State, id: Id, k: Key, now: int, refused: bool, k': Key)
    requires Books(s) && s.config.Valid()
    ensures var (t, d) := KeepingStart(s, id, k, now, refused);
            && d == AttemptAnswer(s, id, k, now, refused)
            && t.requests == AttemptPhases(s, id, k, now, refused)
            && At(t, k', now) == AttemptBucket(s, id, k, now, refused, k')
  {
    if Proceeds(s, id) {
      DetachEffect(s, id, k', now);
      if s.config.PolicyFor(k).enabled && !refused {
        KeptOffer(s, id, k, now, k');
      }
    }
  }

  lemma {:induction false} KeptOffer(s: State, id: Id, k: Key, now: int, k': Key)
    requires Books(s) && s.config.Valid()
    requires Proceeds(s, id) && s.config.PolicyFor(k).enabled
    ensures var b := Eased(s, id, k, now);
            var (t, d) := KeepingStart(s, id, k, now, false);
            && d == Served(b, id, now).1
            && t.requests == s.requests[id := ServedPhase(b, k, now)]
            && At(t, k', now) == if k' == k then Served(b, id, now).0 else Eased(s, id, k', now)
  {
    var t, blank := Detach(s, id), NewBucket(s.config.PolicyFor(k), now);
    DetachKeepsBooks(s, id);
    DetachEffect(s, id, k', now);
    DetachEffect(s, id, k, now);
    PhaseOverwrites(s.requests, id, Idle, ServedPhase(Eased(s, id, k, now), k, now));
    if k in t.buckets {
      OfferView(t, id, k, now, k');
    } else {
      AtSet(t, k, blank, k', now);
      AtSet(t, k, blank, k, now);
      NewBucketBalances(t, k, now);
      SetBucketKeepsBooks(t, k, blank);
      OfferView(SetBucket(t, k, blank), id, k, now, k');
    }
  }

  lemma {:induction false} KeepingStartKeepsSound(s: State, id: Id, k: Key, now: int, refused: bool)
    requires Sound(s, now)
    ensures Sound(KeepingStart(s, id, k, now, refused).0, now)
    ensures SameLinks(s, KeepingStart(s, id, k, now, refused).0)
  {
    if Proceeds(s, id) {
      var t, blank := Detach(s, id), NewBucket(s.config.PolicyFor(k), now);
      DetachKeepsBooks(s, id);
      DetachKeepsLinks(s, id);
      DetachKeepsClock(s, id, now);
      if s.config.PolicyFor(k).enabled && !refused {
        if k in t.buckets {
          OfferKeepsAll(t, id, k, now);
        } else {
          NewBucketBalances(t, k, now);
          SetBucketKeepsBooks(t, k, blank);
          OfferKeepsAll(SetBucket(t, k, blank), id, k, now);
        }
      }
    }
  }

  lemma {:induction false} OfferKeepsAll(s: State, id: Id, k: Key, now: int)
    requires Sound(s, now) && k in s.buckets
    requires id in s.requests && s.requests[id].Idle?
    ensures Sound(Offer(s, id, k, now).0, now)
    ensures SameLinks(s, Offer(s, id, k, now).0)
  {
    OfferKeepsBooks(s, id, k, now);
    OfferKeepsLinks(s, id, k, now);
    OfferKeepsClock(s, id, k, now);
  }

  // ----- One step -----

  lemma {:induction false} AttemptsAlikeAt(e: State, n: State, id: Id, k: Key, now: int, k': Key)
    requires Sound(e, now) && Sound(n, now) && Alike(e, n, now)
    ensures var (e', d) := Start(e, id, k, now);
            var (n', d') := KeepingStart(n, id, k, now, Crowded(e, id, k, now));
            d == d' && e'.requests == n'.requests && At(e', k', now) == At(n', k', now)
  {
    StartEffect(e, id, k, now, k');
    KeepingEffect(n, id, k, now, Crowded(e, id, k, now), k');
  }

  lemma {:induction false} AttemptsAlike(e: State, n: State, id: Id, k: Key, now: int)
    requires Sound(e, now) && Sound(n, now) && Alike(e, n, now)
    ensures var (e', d) := Start(e, id, k, now);
            var (n', d') := KeepingStart(n, id, k, now, Crowded(e, id, k, now));
            d == d' && Alike(e', n', now)
  {
    var crowded := Crowded(e, id, k, now);
    StartKeepsLinks(e, id, k, now);
    KeepingStartKeepsSound(n, id, k, now, crowded);
    AttemptsAlikeAt(e, n, id, k, now, k);
    forall k' ensures At(Start(e, id, k, now).0, k', now) == At(KeepingStart(n, id, k, now, crowded).0, k', now) {
      AttemptsAlikeAt(e, n, id, k, now, k');
    }
  }

  lemma {:induction false} PollsAlike(e: State, n: State, id: Id, now: int)
    requires Sound(e, now) && Sound(n, now) && Alike(e, n, now)
    ensures Poll(e, id, now).1 == Poll(n, id, now).1
    ensures Alike(Poll(e, id, now).0, Poll(n, id, now).0, now)
  {
    var e', n' := Poll(e, id, now).0, Poll(n, id, now).0;
    PollKeepsLinks(e, id, now);
    PollKeepsLinks(n, id, now);
    forall k ensures At(e', k, now) == At(n', k, now) && e'.requests == n'.requests && Poll(e, id, now).1 == Poll(n, id, now).1 {
      PollEffect(e, id, now, k);
      PollEffect(n, id, now, k);
    }
    assert At(e', "", now) == At(n', "", now);
  }

  lemma {:induction false} CompletionsAlike(e: State, n: State, id: Id, now: int)
    requires Sound(e, now) && Sound(n, now) && Alike(e, n, now)
    ensures Alike(Complete(e, id), Complete(n, id), now)
  {
    CompleteIsExact(e, id);
    CompleteIsExact(n, id);
    assert Family(e, id) == Family(n, id);
    forall k ensures At(Complete(e, id), k, now) == At(Complete(n, id), k, now) {
      CompleteEffect(e, id, k, now);
      CompleteEffect(n, id, k, now);
    }
  }

  /** Raising a burst shows whether a bucket was evicted: the kept one stays at the old burst. */
  predicate Raises(policy: Policy, next: Policy) {
    next.burst > policy.burst && next.requestsPerMinute != 0
  }

  lemma {:induction false} ReloadedAlikeIff(e: State, n: State, config: Config, now: int, k: Key)
    requires Sound(e, now) && Sound(n, now) && Alike(e, n, now)
    requires Reconfigurable(e, config)
    ensures At(Reconfigure(e, config, now), k, now) == At(Reconfigure(n, config, now), k, now) <==>
            ((k in e.buckets) != (k in n.buckets) ==> !Raises(e.config.PolicyFor(k), config.PolicyFor(k)))
  {
    ReloadedAt(e, config, now, k);
    ReloadedAt(n, config, now, k);
    AtIsBalanced(e, k, now);
    AtIsBalanced(n, k, now);
  }

  /** An accepted reload keeps the two engines alike exactly when it raises no burst that one
      of them alone remembers. */
  lemma {:induction false} ReloadsAlikeIff(e: State, n: State, config: Config, now: int)
    requires Sound(e, now) && Sound(n, now) && Alike(e, n, now)
    requires Reconfigurable(e, config)
    ensures Alike(Reconfigure(e, config, now), Reconfigure(n, config, now), now) <==>
            forall k :: (k in e.buckets) != (k in n.buckets) ==> !Raises(e.config.PolicyFor(k), config.PolicyFor(k))
  {
    var e', n' := Reconfigure(e, config, now), Reconfigure(n, config, now);
    forall k
      ensures At(e', k, now) == At(n', k, now) <==>
              ((k in e.buckets) != (k in n.buckets) ==> !Raises(e.config.PolicyFor(k), config.PolicyFor(k)))
    {
      ReloadedAlikeIff(e, n, config, now, k);
    }
  }

  /** The reload, if it is accepted, raises no burst. */
  ghost predicate Gentle(s: State, op: Op) {
    op.Reload? && Reconfigurable(s, op.config) ==>
      forall k :: !Raises(s.config.PolicyFor(k), op.config.PolicyFor(k))
  }

  lemma {:induction false} LinkStepsAlike(e: State, n: State, op: Op, now: int)
    requires Alike(e, n, now)
    requires op.Registration? || op.Nested? || op.Quiesce?
    ensures Step(e, op).1 == Step(n, op).1
    ensures Alike(Step(e, op).0, Step(n, op).0, now)
  {
    var e', n' := Step(e, op).0, Step(n, op).0;
    forall k ensures At(e', k, now) == At(n', k, now) {
      UntouchedBuckets(e, e', k, now);
      UntouchedBuckets(n, n', k, now);
    }
  }

  lemma {:induction false} KeepingStepKeepsSound(s: State, op: Op, clock: int, refused: bool)
    requires Sound(s, clock) && clock <= Clock(op, clock)
    ensures Sound(KeepingStep(s, op, refused).0, Clock(op, clock))
  {
    if op.Attempt? {
      LaterClock(s, clock, op.now);
      KeepingStartKeepsSound(s, op.id, op.key, op.now, refused);
    } else {
      StepKeepsSound(s, op, clock);
    }
  }

  lemma {:induction false} StepsAlike(e: State, n: State, op: Op, clock: int)
    requires Sound(e, clock) && Sound(n, clock) && Alike(e, n, clock)
    requires clock <= Clock(op, clock) && Gentle(e, op)
    ensures var kept := KeepingStep(n, op, Refuses(e, op));
            Step(e, op).1 == kept.1 && Alike(Step(e, op).0, kept.0, Clock(op, clock))
  {
    var now := Clock(op, clock);
    AlikeLater(e, n, clock, now);
    LaterClock(e, clock, now);
    LaterClock(n, clock, now);
    match op {
      case Attempt(id, k, _) => AttemptsAlike(e, n, id, k, now);
      case Recheck(id, _) => PollsAlike(e, n, id, now);
      case Completion(id) => CompletionsAlike(e, n, id, now);
      case Reload(config, _) =>
        if Reconfigurable(e, config) { ReloadsAlikeIff(e, n, config, now); }
      case _ => LinkStepsAlike(e, n, op, now);
    }
  }

  // ----- Over runs -----

  function Replies(s: State, ops: seq<Op>): seq<Reply>
    decreases |ops|
  {
    if ops == [] then [] else [Step(s, ops[0]).1] + Replies(Step(s, ops[0]).0, ops[1..])
  }

  /** The keeping engine `n` run beside the evicting engine `e`. */
  function KeepingReplies(e: State, n: State, ops: seq<Op>): seq<Reply>
    decreases |ops|
  {
    if ops == [] then []
    else
      var (n', reply) := KeepingStep(n, ops[0], Refuses(e, ops[0]));
      [reply] + KeepingReplies(Step(e, ops[0]).0, n', ops[1..])
  }

  function KeepingRun(e: State, n: State, ops: seq<Op>): State
    decreases |ops|
  {
    if ops == [] then n
    else KeepingRun(Step(e, ops[0]).0, KeepingStep(n, ops[0], Refuses(e, ops[0])).0, ops[1..])
  }

  ghost predicate AllGentle(s: State, ops: seq<Op>)
    decreases |ops|
  {
    ops == [] || (Gentle(s, ops[0]) && AllGentle(Step(s, ops[0]).0, ops[1..]))
  }

  function EndClock(ops: seq<Op>, clock: int): int
    decreases |ops|
  {
    if ops == [] then clock else EndClock(ops[1..], Clock(ops[0], clock))
  }

  /** Over every run that raises no burst, the two engines answer alike and end alike: the same
      decisions, phases, queues, active slots and tokens. */
  lemma {:induction false} EvictionIsUnobservable(e: State, n: State, ops: seq<Op>, clock: int)
    requires Sound(e, clock) && Sound(n, clock) && Alike(e, n, clock)
    requires Chronological(ops, clock) && AllGentle(e, ops)
    ensures Replies(e, ops) == KeepingReplies(e, n, ops)
    ensures Alike(Run(e, ops), KeepingRun(e, n, ops), EndClock(ops, clock))
    decreases |ops|
  {
    if ops != [] {
      var op := ops[0];
      StepsAlike(e, n, op, clock);
      StepKeepsSound(e, op, clock);
      KeepingStepKeepsSound(n, op, clock, Refuses(e, op));
      EvictionIsUnobservable(Step(e, op).0, KeepingStep(n, op, Refuses(e, op)).0, ops[1..], Clock(op, clock));
    }
  }

  lemma {:induction false} EvictionIsUnobservableFromTheStart(config: Config, ops: seq<Op>, clock: int)
    requires config.Valid() && Chronological(ops, clock) && AllGentle(Initial(config), ops)
    ensures Replies(Initial(config), ops) == KeepingReplies(Initial(config), Initial(config), ops)
  {
    InitialIsValid(config);
    EvictionIsUnobservable(Initial(config), Initial(config), ops, clock);
  }

  // ----- Why no burst may be raised -----

  /** A state in which the bucket of `k` is full and idle while that of `j` is in use, and a
      reload that raises the burst of `k` from one to two. */
  ghost predicate AboutToRaise(n: State, raised: Config, j: Key, k: Key, now: int) {
    && Sound(n, now) && Reconfigurable(n, raised)
    && j != k && n.buckets.Keys == {j, k}
    && n.buckets[j].active != 0
    && n.buckets[k] == NewBucket(n.config.PolicyFor(k), now)
    && n.config.PolicyFor(k).requestsPerMinute != 0 && n.config.PolicyFor(k).burst == 1
    && raised.maxCredentials >= 2
    && BurstOfTwo(raised.PolicyFor(k))
  }

  predicate BurstOfTwo(policy: Policy) {
    policy.enabled && policy.requestsPerMinute != 0 && policy.burst == 2 && policy.maxConcurrency == 0 && policy.maxQueue > 0
  }

  lemma {:induction false} RoomForOne(s: State, id: Id, j: Key, k: Key, now: int)
    requires s.buckets.Keys <= {j, k} && s.config.maxCredentials >= 2
    ensures !Crowded(s, id, k, now)
  {
    if k !in s.buckets {
      var left := Evict(Detach(s, id).buckets, now);
      assert left.Keys <= {j};
      assert |left| == |left.Keys|;
      assert left.Keys == {} || left.Keys == {j};
    }
  }

  lemma {:induction false} FullBucketServesOne(s: State, j: Key, k: Key, c: Id, now: int)
    requires Books(s) && s.config.Valid() && !s.stopping
    requires s.buckets.Keys <= {j, k} && s.config.maxCredentials >= 2
    requires BurstOfTwo(s.config.PolicyFor(k))
    requires At(s, k, now).queue == [] && At(s, k, now).tokens == 2 * UNIT
    requires c in s.requests && s.requests[c] == Idle
    ensures var t := Start(s, c, k, now).0;
            && Books(t) && t.config == s.config && !t.stopping && t.buckets.Keys <= {j, k}
            && t.requests == s.requests[c := Active(k)]
            && At(t, k, now).queue == [] && At(t, k, now).tokens == UNIT
  {
    RoomForOne(s, c, j, k, now);
    AtIsBalanced(s, k, now);
    StartEffect(s, c, k, now, k);
    StartKeepsBooks(s, c, k, now);
    StartKeepsLinks(s, c, k, now);
    StartKeys(s, c, k, now);
  }

  lemma {:induction false} FullBucketServesTwo(s: State, j: Key, k: Key, c: Id, d: Id, now: int)
    requires Books(s) && s.config.Valid() && !s.stopping
    requires s.buckets.Keys <= {j, k} && s.config.maxCredentials >= 2
    requires BurstOfTwo(s.config.PolicyFor(k))
    requires At(s, k, now).queue == [] && At(s, k, now).tokens == 2 * UNIT
    requires c != d && c in s.requests && d in s.requests && s.requests[c] == s.requests[d] == Idle
    ensures Start(Start(s, c, k, now).0, d, k, now).1 == Admit
  {
    var t := Start(s, c, k, now).0;
    FullBucketServesOne(s, j, k, c, now);
    RoomForOne(t, d, j, k, now);
    AtIsBalanced(t, k, now);
    StartEffect(t, d, k, now, k);
  }

  lemma {:induction false} HalfFullBucketServesOne(s: State, k: Key, c: Id, d: Id, now: int)
    requires Sound(s, now) && !s.stopping
    requires BurstOfTwo(s.config.PolicyFor(k))
    requires At(s, k, now).queue == [] && At(s, k, now).tokens == UNIT
    requires c != d && c in s.requests && d in s.requests && s.requests[c] == s.requests[d] == Idle
    ensures KeepingStart(KeepingStart(s, c, k, now, false).0, d, k, now, false).1.WaitUntil?
  {
    var t := KeepingStart(s, c, k, now, false).0;
    AtIsBalanced(s, k, now);
    KeepingEffect(s, c, k, now, false, k);
    KeepingStartKeepsSound(s, c, k, now, false);
    EmptyBucketServesNone(t, k, d, now);
  }

  lemma {:induction false} EmptyBucketServesNone(t: State, k: Key, d: Id, now: int)
    requires Sound(t, now) && !t.stopping
    requires BurstOfTwo(t.config.PolicyFor(k))
    requires At(t, k, now).queue == [] && At(t, k, now).tokens == 0
    requires d in t.requests && t.requests[d] == Idle
    ensures KeepingStart(t, d, k, now, false).1.WaitUntil?
  {
    AtIsBalanced(t, k, now);
    KeepingEffect(t, d, k, now, false, k);
  }

  lemma {:induction false} EvictedIsAlike(s: State, now: int)
    requires Sound(s, now)
    ensures var e := s.(buckets := Evict(s.buckets, now)); Sound(e, now) && Alike(e, s, now)
  {
    EvictKeepsBooks(s, now);
    forall k ensures At(s.(buckets := Evict(s.buckets, now)), k, now) == At(s, k, now) {
      EvictEffect(s, k, now);
    }
  }

  lemma {:induction false} EvictingSide(e: State, raised: Config, j: Key, k: Key, c: Id, d: Id, now: int)
    requires Sound(e, now) && Reconfigurable(e, raised)
    requires e.buckets.Keys == {j} && j != k && raised.maxCredentials >= 2
    requires BurstOfTwo(raised.PolicyFor(k))
    requires c != d && c in e.requests && d in e.requests && e.requests[c] == e.requests[d] == Idle
    ensures var e2 := Start(Reconfigure(e, raised, now), c, k, now).0;
            Start(e2, d, k, now).1 == Admit
  {
    ReloadedAt(e, raised, now, k);
    ReconfigureKeepsBooks(e, raised, now);
    FullBucketServesTwo(Reconfigure(e, raised, now), j, k, c, d, now);
  }

  lemma {:induction false} KeepingSide(n: State, raised: Config, k: Key, c: Id, d: Id, now: int)
    requires Sound(n, now) && Reconfigurable(n, raised)
    requires k in n.buckets && At(n, k, now).queue == [] && At(n, k, now).tokens == UNIT
    requires BurstOfTwo(raised.PolicyFor(k))
    requires c != d && c in n.requests && d in n.requests && n.requests[c] == n.requests[d] == Idle
    ensures var n2 := KeepingStart(Reconfigure(n, raised, now), c, k, now, false).0;
            KeepingStart(n2, d, k, now, false).1.WaitUntil?
  {
    ReloadedAt(n, raised, now, k);
    ReconfigureKeepsSound(n, raised, now);
    HalfFullBucketServesOne(Reconfigure(n, raised, now), k, c, d, now);
  }

  /** Two engines alike before the reload: of two requests made right after it the evicting one
      admits both, while the keeping one makes the second wait. */
  lemma {:induction false} RaisingABurstShows(n: State, raised: Config, j: Key, k: Key, c: Id, d: Id, now: int)
    requires AboutToRaise(n, raised, j, k, now)
    requires c != d && c in n.requests && d in n.requests && n.requests[c] == n.requests[d] == Idle
    ensures var e := n.(buckets := Evict(n.buckets, now));
            var e2 := Start(Reconfigure(e, raised, now), c, k, now).0;
            var n2 := KeepingStart(Reconfigure(n, raised, now), c, k, now, false).0;
            && Alike(e, n, now)
            && Start(e2, d, k, now).1 == Admit
            && KeepingStart(n2, d, k, now, false).1.WaitUntil?
  {
    var e := n.(buckets := Evict(n.buckets, now));
    SettledIsRefilled(n.buckets[k], now);
    assert e.buckets.Keys == {j};
    EvictedIsAlike(n, now);
    EvictingSide(e, raised, j, k, c, d, now);
    KeepingSide(n, raised, k, c, d, now);
  }
}
