/** What becomes of a sleeping thread whose request identifier is used for another request. */
module Reuse {
  import opened Config
  import opened Sequences
  import opened TokenBucket
  import opened Admission
  import Ledger
  import Completion
  import Reachability
  import opened Effects
  import Wake
  import opened Runtime
  import opened Accounting

  // ----- The exact condition -----

  /** Waking up admits without any change exactly when the request is live and not queued. */
  lemma {:induction false} FallsThroughIff(y: System, t: Tid)
    requires Inv(y) && Enabled(y, Awake(t))
    ensures var id := Of(y, t).id;
            Admits(y, Awake(t)) && After(y, Awake(t)).engine == y.engine
            <==> !y.engine.stopping && id in y.engine.requests && !y.engine.requests[id].Queued?
  {
    var id := Of(y, t).id;
    if Waiting(y.engine, id) {
      PollEffect(y.engine, id, y.clock, y.engine.requests[id].key);
      AtIsBalanced(y.engine, y.engine.requests[id].key, y.clock);
    }
  }

  /** The request is where its thread can be answered for it: queued on the thread's credential or,
      if that one's policy is disabled, not bound to any credential whose policy is enabled. */
  predicate Answerable(s: State, id: Id, key: Key) {
    && id in s.requests
    && var phase := s.requests[id];
       if s.config.PolicyFor(key).enabled then phase.Queued? && phase.key == key
       else phase.Idle? || (phase.Queued? && !s.config.PolicyFor(phase.key).enabled)
  }

  /** Whatever happened to its identifier: the admission of a woken thread is accounted for if and
      only if its request is answerable when it wakes up. */
  lemma {:induction false} AwakeIsAccountedIff(y: System, t: Tid)
    requires Inv(y) && Admits(y, Awake(t))
    ensures var h := Of(y, t);
            Accounted(y.engine, After(y, Awake(t)).engine, h.id, h.key, y.clock) <==> Answerable(y.engine, h.id, h.key)
  {
    var s, h := y.engine, Of(y, t);
    if Waiting(s, h.id) {
      WaiterIsAccounted(s, h.id, y.clock);
      WaiterEndsIn(s, h.id, y.clock);
    } else {
      FallingThroughIsFreed(s, h.id, y.clock);
    }
  }

  lemma {:induction false} WaiterEndsIn(s: State, id: Id, now: int)
    requires Sound(s, now) && Waiting(s, id) && Poll(s, id, now).1 == Admit
    ensures var key := s.requests[id].key;
            Poll(s, id, now).0.requests == s.requests[id := if s.config.PolicyFor(key).enabled then Active(key) else Idle]
  {
    PollEffect(s, id, now, s.requests[id].key);
    AtIsBalanced(s, s.requests[id].key, now);
  }

  lemma {:induction false} FallingThroughIsFreed(s: State, id: Id, now: int)
    requires Sound(s, now) && id in s.requests && !s.requests[id].Queued?
    ensures Freed(s, s, id, now) <==> s.requests[id].Idle?
  {
    assert s.requests[id := Idle] == s.requests <==> s.requests[id].Idle?;
    forall k ensures At(s, k, now).(queue := Without(At(s, k, now).queue, {id})) == At(s, k, now) {
      NotInLine(s, id, k, now);
    }
  }

  // ----- Two ways to break it -----

  /** The identifier of a waiting request ends and is registered again before its thread wakes up. */
  function Again(u: Tid, id: Id): seq<Event> {
    [Finish(u, id), Notify(u), Register(u, id)]
  }

  /** A sleeping thread `t` and a free one `u`, before that. */
  ghost predicate BeforeReuse(y: System, t: Tid, u: Tid) {
    && Inv(y) && Enabled(y, Awake(t)) && Enabled(y, Finish(u, Of(y, t).id)) && !y.engine.stopping
    && Waiting(y.engine, Of(y, t).id) && |y.engine.requests| <= y.engine.config.maxTrackedRequests
  }

  lemma {:induction false} EndAndReturn(y: System, t: Tid, u: Tid)
    requires BeforeReuse(y, t, u)
    ensures Trace(y, Again(u, Of(y, t).id))
    ensures var id, z := Of(y, t).id, Reached(y, Again(u, Of(y, t).id));
            && Inv(z) && z.clock == y.clock && !z.locked
            && z.engine == Begin(Complete(y.engine, id), id).0
            && Of(z, t).Sleeping? && Of(z, t).id == id && Of(z, t).key == Of(y, t).key && Of(z, u).Free?
  {
    var id := Of(y, t).id;
    var y1 := After(y, Finish(u, id));
    assert Of(y1, u).Owing? && Of(y1, t) == Of(y, t) && !y1.locked;
    var y2 := After(y1, Notify(u));
    assert Of(y2, t) == Alerted(Of(y, t)) && Of(y2, u).Free? && y2.engine == y1.engine && !y2.locked;
    assert Again(u, id) == [] + [Finish(u, id)] + [Notify(u)] + [Register(u, id)];
    ThenEvent(y, [], Finish(u, id));
    ThenEvent(y, [] + [Finish(u, id)], Notify(u));
    ThenEvent(y, [] + [Finish(u, id)] + [Notify(u)], Register(u, id));
    TraceKeepsInv(y, Again(u, id));
  }

  lemma {:induction false} ReturnsIdle(s: State, id: Id)
    requires Ledger.Valid(s) && id in s.requests && !s.stopping && |s.requests| <= s.config.maxTrackedRequests
    ensures var t := Begin(Complete(s, id), id).0;
            id in t.requests && t.requests[id] == Idle && !t.stopping && t.config == s.config && t.buckets == Complete(s, id).buckets
  {
    FamilyFreesRoom(s, id);
  }

  /** Then the thread is admitted for nothing. */
  lemma {:induction false} ReuseFallsThrough(y: System, t: Tid, u: Tid)
    requires BeforeReuse(y, t, u)
    ensures var id := Of(y, t).id;
            && Trace(y, Again(u, id))
            && var z := Reached(y, Again(u, id));
               Admits(z, Awake(t)) && id in z.engine.requests && z.engine.requests[id] == Idle && After(z, Awake(t)).engine == z.engine
  {
    EndAndReturn(y, t, u);
    ReturnsIdle(y.engine, Of(y, t).id);
    FallsThroughIff(Reached(y, Again(u, Of(y, t).id)), t);
  }

  lemma {:induction false} FamilyFreesRoom(s: State, id: Id)
    requires Ledger.Valid(s) && id in s.requests
    ensures var t := Complete(s, id); id !in t.requests && |t.requests| < |s.requests| && t.config == s.config && t.stopping == s.stopping
  {
    Completion.CompleteIsExact(s, id);
    var t := Complete(s, id);
    assert Completion.Descends(s.parents, id, id, 0);
    assert id in Completion.Family(s, id);
    assert s.requests.Keys == t.requests.Keys + (s.requests.Keys - t.requests.Keys);
    assert id in s.requests.Keys - t.requests.Keys;
    assert |t.requests| == |t.requests.Keys| && |s.requests| == |s.requests.Keys|;
  }

  /** A credential that lacks only a token, which will come before the queue timeout. */
  predicate LacksAToken(s: State, k: Key, now: int) {
    && k in s.buckets
    && var b := At(s, k, now);
       && b.policy.enabled && b.policy.requestsPerMinute != 0 && b.policy.maxConcurrency == 0 && b.policy.maxQueue != 0
       && b.queue == [] && b.tokens < UNIT
       && WaitFor(UNIT - b.tokens, b.policy.requestsPerMinute) < b.policy.queueTimeoutMs * NANOS_PER_MILLI
  }

  function TokenComes(s: State, k: Key, now: int): int
    requires s.config.PolicyFor(k).requestsPerMinute != 0
  {
    now + WaitFor(UNIT - At(s, k, now).tokens, s.config.PolicyFor(k).requestsPerMinute)
  }

  lemma {:induction false} StillLacks(s: State, id: Id, k: Key, now: int)
    requires Ledger.Valid(s) && id in s.requests && !s.stopping && |s.requests| <= s.config.maxTrackedRequests
    requires LacksAToken(s, k, now)
    ensures var t := Begin(Complete(s, id), id).0;
            LacksAToken(t, k, now) && t.config == s.config && At(t, k, now).tokens == At(s, k, now).tokens
  {
    ReturnsIdle(s, id);
    Completion.CompleteIsExact(s, id);
    CompleteEffect(s, id, k, now);
  }

  lemma {:induction false} ServedWaitsForToken(b: BucketState, id: Id, now: int)
    requires b.policy.requestsPerMinute != 0 && b.policy.maxQueue != 0 && b.queue == [] && b.tokens < UNIT
    requires WaitFor(UNIT - b.tokens, b.policy.requestsPerMinute) < b.policy.queueTimeoutMs * NANOS_PER_MILLI
    ensures Served(b, id, now).1 == WaitUntil(now + WaitFor(UNIT - b.tokens, b.policy.requestsPerMinute))
    ensures WaitFor(UNIT - b.tokens, b.policy.requestsPerMinute) >= 1
  {
    WaitForIsFirst(UNIT - b.tokens, b.policy.requestsPerMinute, 0);
  }

  /** An attempt there waits for the token. */
  lemma {:induction false} AttemptAwaitsTheToken(s: State, id: Id, k: Key, now: int)
    requires Sound(s, now) && LacksAToken(s, k, now) && !s.stopping && id in s.requests && s.requests[id] == Idle
    ensures s.config.PolicyFor(k).requestsPerMinute != 0
    ensures var (t, d) := Start(s, id, k, now);
            && d == WaitUntil(TokenComes(s, k, now)) && now < d.instant
            && t.config == s.config
            && id in t.requests && t.requests[id].Queued? && t.requests[id].key == k && d.instant < t.requests[id].deadline
  {
    AtIsBalanced(s, k, now);
    assert !Crowded(s, id, k, now);
    ServedWaitsForToken(At(s, k, now), id, now);
    StartEffect(s, id, k, now, k);
    Reachability.StartKeepsLinks(s, id, k, now);
  }

  /** Once it comes, a poll for the same request takes it, whoever polls. */
  lemma {:induction false} PollTakesTheToken(s: State, id: Id, k: Key, now: int)
    requires Sound(s, now) && LacksAToken(s, k, now) && !s.stopping && id in s.requests && s.requests[id] == Idle
    ensures s.config.PolicyFor(k).requestsPerMinute != 0
    ensures var t, later := Start(s, id, k, now).0, TokenComes(s, k, now);
            Waiting(t, id) && t.requests[id].key == k && t.config == s.config && Poll(t, id, later).1 == Admit
  {
    AttemptAwaitsTheToken(s, id, k, now);
    var t, later := Start(s, id, k, now).0, TokenComes(s, k, now);
    Wake.AttemptWaitsAgain(s, id, k, now);
    StepKeepsSound(s, Attempt(id, k, now), now);
    Wake.WakeIsExact(t, id, now, later);
    AtIsBalanced(t, k, now);
  }

  /** After the reuse, an acquire of the new request on another credential, and the wait for its
      token. */
  function Elsewhere(u: Tid, id: Id, other: Key, later: int): seq<Event> {
    [Enter(u, id, other), Resolve(u), Tick(later)]
  }

  lemma {:induction false} WaitElsewhere(z: System, t: Tid, u: Tid, id: Id, other: Key)
    requires Inv(z) && !z.locked && !z.engine.stopping && Of(z, u).Free?
    requires Of(z, t).Sleeping? && Of(z, t).id == id && id in z.engine.requests && z.engine.requests[id] == Idle
    requires LacksAToken(z.engine, other, z.clock)
    ensures z.engine.config.PolicyFor(other).requestsPerMinute != 0
    ensures var later := TokenComes(z.engine, other, z.clock);
            && Trace(z, Elsewhere(u, id, other, later))
            && var w := Reached(z, Elsewhere(u, id, other, later));
               && Inv(w) && w.clock == later && !w.locked && Of(w, t) == Alerted(Of(z, t))
               && w.engine == Start(z.engine, id, other, z.clock).0
  {
    AttemptAwaitsTheToken(z.engine, id, other, z.clock);
    var later := TokenComes(z.engine, other, z.clock);
    var z1 := After(z, Enter(u, id, other));
    assert Of(z1, u) == Holding(id, other, WaitUntil(later), true) && Of(z1, t) == Of(z, t);
    var z2 := After(z1, Resolve(u));
    assert Of(z2, t) == Alerted(Of(z, t)) && z2.clock == z.clock;
    assert Elsewhere(u, id, other, later) == [] + [Enter(u, id, other)] + [Resolve(u)] + [Tick(later)];
    ThenEvent(z, [], Enter(u, id, other));
    ThenEvent(z, [] + [Enter(u, id, other)], Resolve(u));
    ThenEvent(z, [] + [Enter(u, id, other)] + [Resolve(u)], Tick(later));
    TraceKeepsInv(z, Elsewhere(u, id, other, later));
  }

  /** Or it is admitted at the expense of a credential it never asked for. */
  lemma {:induction false} ReuseChargesAnother(y: System, t: Tid, u: Tid, other: Key)
    requires BeforeReuse(y, t, u) && LacksAToken(y.engine, other, y.clock) && other != Of(y, t).key
    ensures Trace(y, Again(u, Of(y, t).id))
    ensures var id, z := Of(y, t).id, Reached(y, Again(u, Of(y, t).id));
            && z.engine.config.PolicyFor(other).requestsPerMinute != 0
            && var events := Elsewhere(u, id, other, TokenComes(z.engine, other, z.clock));
               && Trace(z, events)
               && var w := Reached(z, events);
                  && Admits(w, Awake(t)) && Of(w, t).id == id && Of(w, t).key == Of(y, t).key
                  && Paid(w.engine, After(w, Awake(t)).engine, id, other, w.clock)
                  && !Accounted(w.engine, After(w, Awake(t)).engine, id, Of(y, t).key, w.clock)
  {
    EndAndReturn(y, t, u);
    var id, z := Of(y, t).id, Reached(y, Again(u, Of(y, t).id));
    ReturnsIdle(y.engine, id);
    StillLacks(y.engine, id, other, y.clock);
    WaitElsewhere(z, t, u, id, other);
    PollTakesTheToken(z.engine, id, other, z.clock);
    var w := Reached(z, Elsewhere(u, id, other, TokenComes(z.engine, other, z.clock)));
    ChargedElsewhere(w, t, other);
  }

  lemma {:induction false} ChargedElsewhere(w: System, t: Tid, other: Key)
    requires Inv(w) && Enabled(w, Awake(t)) && other != Of(w, t).key
    requires Waiting(w.engine, Of(w, t).id) && w.engine.requests[Of(w, t).id].key == other
    requires w.engine.config.PolicyFor(other).enabled && Poll(w.engine, Of(w, t).id, w.clock).1 == Admit
    ensures Admits(w, Awake(t)) && Paid(w.engine, After(w, Awake(t)).engine, Of(w, t).id, other, w.clock)
    ensures !Accounted(w.engine, After(w, Awake(t)).engine, Of(w, t).id, Of(w, t).key, w.clock)
  {
    WaiterIsAccounted(w.engine, Of(w, t).id, w.clock);
    AwakeIsAccountedIff(w, t);
  }
}
