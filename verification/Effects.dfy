/** What one operation does to one credential, seen through a view in which a missing bucket
    is a full idle one. Every theorem about tokens, queues and slots starts from here. */
module Effects {
  import opened Config
  import opened Sequences
  import opened TokenBucket
  import opened Admission
  import opened Ledger
  import opened Completion
  import opened Reachability

  /** The bucket of `k` refilled to `now`; one that does not exist is full and idle. */
  function At(s: State, k: Key, now: int): BucketState {
    if k in s.buckets then Refill(s.buckets[k], now) else NewBucket(s.config.PolicyFor(k), now)
  }

  predicate ClockOk(s: State, now: int) {
    forall k :: k in s.buckets ==> s.buckets[k].updated <= now
  }

  /** The standing assumptions: the ledger, a validated configuration, a clock not behind. */
  ghost predicate Sound(s: State, now: int) {
    Valid(s) && s.config.Valid() && ClockOk(s, now)
  }

  /** Looking now or looking through an earlier look is the same. */
  lemma {:induction false} AtLater(s: State, k: Key, t1: int, t2: int)
    requires ClockOk(s, t1) && t1 <= t2
    ensures At(s, k, t2) == Refill(At(s, k, t1), t2)
  {
    if k in s.buckets {
      RefillComposes(s.buckets[k], t1, t2);
    } else {
      assert (t2 - t1) * s.config.PolicyFor(k).requestsPerMinute >= 0;
    }
  }

  lemma {:induction false} AtIsBalanced(s: State, k: Key, now: int)
    requires Books(s)
    ensures Balanced(s.config, s.requests, k, At(s, k, now))
  {
    if k in s.buckets {
      RefillBalances(s.config, s.requests, k, s.buckets[k], now);
    } else {
      NewBucketBalances(s, k, now);
    }
  }

  // ----- Detaching -----

  predicate On(s: State, id: Id, k: Key) {
    id in s.requests && !s.requests[id].Idle? && s.requests[id].key == k
  }

  /** The view of `k` once `id` is taken off it. */
  function Eased(s: State, id: Id, k: Key, now: int): BucketState {
    if On(s, id, k) then Release(At(s, k, now), id, s.requests[id]) else At(s, k, now)
  }

  lemma {:induction false} DetachEffect(s: State, id: Id, k: Key, now: int)
    requires Books(s)
    ensures At(Detach(s, id), k, now) == Eased(s, id, k, now)
  {
  }

  lemma {:induction false} DetachKeepsClock(s: State, id: Id, now: int)
    requires ClockOk(s, now)
    ensures ClockOk(Detach(s, id), now)
  {
  }

  // ----- Offering a slot -----

  /** What an attempt by `id` makes of a refilled bucket, and the answer it gets. */
  function Served(b: BucketState, id: Id, now: int): (BucketState, Decision) {
    if b.queue == [] && Available(b) then (Charge(b), Admit)
    else if |b.queue| >= b.policy.maxQueue then (b, Reject(QueueFull))
    else
      var deadline := now + b.policy.queueTimeoutMs * NANOS_PER_MILLI;
      (b.(queue := b.queue + [id]),
       WaitUntil(if b.queue == [] then WakeAt(b, now, deadline) else deadline))
  }

  function ServedPhase(b: BucketState, k: Key, now: int): Phase {
    if b.queue == [] && Available(b) then Active(k)
    else if |b.queue| >= b.policy.maxQueue then Idle
    else Queued(k, now + b.policy.queueTimeoutMs * NANOS_PER_MILLI)
  }

  lemma {:induction false} SetTwice(s: State, k: Key, b: BucketState, c: BucketState)
    ensures SetBucket(SetBucket(s, k, b), k, c) == SetBucket(s, k, c)
  {
    assert s.buckets[k := b][k := c] == s.buckets[k := c];
  }

  /** The poll of a request that has just joined the queue of a refilled bucket answers WaitUntil. */
  lemma {:induction false} FreshPollWaits(s: State, id: Id, k: Key, now: int, deadline: int, b: BucketState)
    requires !s.stopping && now < deadline
    requires s.buckets == s.buckets[k := b.(queue := b.queue + [id])]
    requires s.requests == s.requests[id := Queued(k, deadline)]
    requires b.policy.enabled && id !in b.queue && b.updated == now && b.tokens <= Full(b.policy)
    requires b.policy.requestsPerMinute == 0 ==> b.tokens == Full(b.policy)
    requires b.queue != [] || !Available(b)
    ensures Poll(s, id, now) == (s, WaitUntil(if b.queue == [] then WakeAt(b, now, deadline) else deadline))
  {
    var longer := b.(queue := b.queue + [id]);
    assert s.buckets[k] == longer;
    assert 0 * b.policy.requestsPerMinute == 0;
    assert Refill(longer, now) == longer;
    assert AtHead(longer, id) <==> b.queue == [];
  }

  lemma {:induction false} OfferEffect(s: State, id: Id, k: Key, now: int)
    requires Books(s) && s.config.Valid() && !s.stopping
    requires k in s.buckets && s.config.PolicyFor(k).enabled
    requires id in s.requests && s.requests[id].Idle?
    ensures var b := Refill(s.buckets[k], now);
            Offer(s, id, k, now) ==
            (SetBucket(s, k, Served(b, id, now).0).(requests := s.requests[id := ServedPhase(b, k, now)]),
             Served(b, id, now).1)
  {
    var b := Refill(s.buckets[k], now);
    SetTwice(s, k, b, Served(b, id, now).0);
    if b.queue == [] && Available(b) {
    } else if |b.queue| < b.policy.maxQueue {
      JoiningPollWaits(s, id, k, now);
    } else {
      assert s.requests[id := Idle] == s.requests;
    }
  }

  lemma {:induction false} JoiningPollWaits(s: State, id: Id, k: Key, now: int)
    requires Books(s) && s.config.Valid() && !s.stopping
    requires k in s.buckets && s.config.PolicyFor(k).enabled
    requires id in s.requests && s.requests[id].Idle?
    requires var b := Refill(s.buckets[k], now); b.queue != [] || !Available(b)
    ensures var b := Refill(s.buckets[k], now);
            var deadline := now + b.policy.queueTimeoutMs * NANOS_PER_MILLI;
            Poll(Joining(s, id, k, now), id, now) ==
            (Joining(s, id, k, now), WaitUntil(if b.queue == [] then WakeAt(b, now, deadline) else deadline))
  {
    var b := Refill(s.buckets[k], now);
    assert Balanced(s.config, s.requests, k, s.buckets[k]);
    assert !Waits(s.requests, id, k);
    RefillBounds(s.buckets[k], now);
    FreshPollWaits(Joining(s, id, k, now), id, k, now, now + b.policy.queueTimeoutMs * NANOS_PER_MILLI, b);
  }

  // ----- Eviction -----

  lemma {:induction false} EvictEffect(s: State, k: Key, now: int)
    requires Books(s)
    ensures At(s.(buckets := Evict(s.buckets, now)), k, now) == At(s, k, now)
  {
    if k in s.buckets {
      RefillIdempotent(s.buckets[k], now);
      RefillBalances(s.config, s.requests, k, s.buckets[k], now);
    }
  }

  /** A bucket that a refill at `now` leaves alone. */
  predicate Settled(b: BucketState, now: int) {
    && b.updated == now
    && b.tokens <= Full(b.policy)
    && (b.policy.requestsPerMinute == 0 ==> b.tokens == Full(b.policy))
  }

  lemma {:induction false} SettledIsRefilled(b: BucketState, now: int)
    ensures Settled(b, now) <==> Refill(b, now) == b
    ensures Settled(Refill(b, now), now)
  {
    assert 0 * b.policy.requestsPerMinute == 0;
  }

  lemma {:induction false} AtIsSettled(s: State, k: Key, now: int)
    ensures Settled(At(s, k, now), now)
  {
    if k in s.buckets {
      SettledIsRefilled(s.buckets[k], now);
    }
  }

  lemma {:induction false} AtSet(s: State, k: Key, b: BucketState, k': Key, now: int)
    requires Settled(b, now)
    ensures At(SetBucket(s, k, b), k', now) == if k' == k then b else At(s, k', now)
  {
    SettledIsRefilled(b, now);
  }

  // ----- Attempts -----

  /** The attempt gets past the checks on the request itself. */
  predicate Proceeds(s: State, id: Id) {
    !s.stopping && id in s.requests && !s.requests[id].Queued?
  }

  /** The attempt finds no bucket for its credential and no room to make one. */
  predicate Crowded(s: State, id: Id, k: Key, now: int) {
    Proceeds(s, id) && s.config.PolicyFor(k).enabled && NoRoom(Detach(s, id), k, now)
  }

  predicate IsServed(s: State, id: Id, k: Key, now: int) {
    Proceeds(s, id) && s.config.PolicyFor(k).enabled && !Crowded(s, id, k, now)
  }

  /** The answer to an attempt, from the view alone. */
  function AttemptAnswer(s: State, id: Id, k: Key, now: int, crowded: bool): Decision {
    if s.stopping then Reject(Stopping)
    else if id !in s.requests then Reject(RequestEnded)
    else if s.requests[id].Queued? then Reject(DuplicateWait)
    else if !s.config.PolicyFor(k).enabled then Admit
    else if crowded then Reject(Capacity)
    else Served(Eased(s, id, k, now), id, now).1
  }

  function AttemptPhases(s: State, id: Id, k: Key, now: int, crowded: bool): map<Id, Phase> {
    if !Proceeds(s, id) then s.requests
    else if s.config.PolicyFor(k).enabled && !crowded then
      s.requests[id := ServedPhase(Eased(s, id, k, now), k, now)]
    else s.requests[id := Idle]
  }

  function AttemptBucket(s: State, id: Id, k: Key, now: int, crowded: bool, k': Key): BucketState {
    if !Proceeds(s, id) then At(s, k', now)
    else if s.config.PolicyFor(k).enabled && !crowded && k' == k then Served(Eased(s, id, k, now), id, now).0
    else Eased(s, id, k', now)
  }

  lemma {:induction false} OfferView(s: State, id: Id, k: Key, now: int, k': Key)
    requires Books(s) && s.config.Valid() && !s.stopping
    requires k in s.buckets && s.config.PolicyFor(k).enabled
    requires id in s.requests && s.requests[id].Idle?
    ensures var b := At(s, k, now);
            var (t, d) := Offer(s, id, k, now);
            && d == Served(b, id, now).1
            && t.requests == s.requests[id := ServedPhase(b, k, now)]
            && At(t, k', now) == if k' == k then Served(b, id, now).0 else At(s, k', now)
  {
    OfferEffect(s, id, k, now);
    AtIsSettled(s, k, now);
    AtSet(s, k, Served(At(s, k, now), id, now).0, k', now);
  }

  lemma {:induction false} SeatView(s: State, id: Id, k: Key, now: int, k': Key)
    requires Books(s) && s.config.Valid() && !s.stopping
    requires s.config.PolicyFor(k).enabled
    requires id in s.requests && s.requests[id].Idle?
    ensures var b := At(s, k, now);
            var (t, d) := Seat(s, id, k, now);
            if NoRoom(s, k, now) then
              d == Reject(Capacity) && t.requests == s.requests && At(t, k', now) == At(s, k', now)
            else
              && d == Served(b, id, now).1
              && t.requests == s.requests[id := ServedPhase(b, k, now)]
              && At(t, k', now) == if k' == k then Served(b, id, now).0 else At(s, k', now)
  {
    if k in s.buckets {
      OfferView(s, id, k, now, k');
    } else {
      var t := s.(buckets := Evict(s.buckets, now));
      var b := NewBucket(s.config.PolicyFor(k), now);
      EvictKeepsBooks(s, now);
      EvictEffect(s, k', now);
      if !NoRoom(s, k, now) {
        AtSet(t, k, b, k', now);
        AtSet(t, k, b, k, now);
        NewBucketBalances(t, k, now);
        SetBucketKeepsBooks(t, k, b);
        OfferView(SetBucket(t, k, b), id, k, now, k');
      }
    }
  }

  /** The effect of an attempt on an enabled credential, in terms of the detached state. */
  lemma {:induction false} SeatedEffect(s: State, id: Id, k: Key, now: int, k': Key)
    requires Books(s) && s.config.Valid()
    requires Proceeds(s, id) && s.config.PolicyFor(k).enabled
    ensures var b := Eased(s, id, k, now);
            var (t, d) := Start(s, id, k, now);
            if Crowded(s, id, k, now) then
              d == Reject(Capacity) && t.requests == s.requests[id := Idle] && At(t, k', now) == Eased(s, id, k', now)
            else
              && d == Served(b, id, now).1
              && t.requests == s.requests[id := ServedPhase(b, k, now)]
              && At(t, k', now) == if k' == k then Served(b, id, now).0 else Eased(s, id, k', now)
  {
    DetachKeepsBooks(s, id);
    DetachEffect(s, id, k', now);
    DetachEffect(s, id, k, now);
    var t := Detach(s, id);
    SeatView(t, id, k, now, k');
    PhaseOverwrites(s.requests, id, Idle, ServedPhase(Eased(s, id, k, now), k, now));
  }

  lemma {:induction false} PhaseOverwrites(requests: map<Id, Phase>, id: Id, first: Phase, second: Phase)
    ensures requests[id := first][id := second] == requests[id := second]
  {
  }

  lemma {:induction false} StartEffect(s: State, id: Id, k: Key, now: int, k': Key)
    requires Books(s) && s.config.Valid()
    ensures var crowded := Crowded(s, id, k, now);
            var (t, d) := Start(s, id, k, now);
            && d == AttemptAnswer(s, id, k, now, crowded)
            && t.requests == AttemptPhases(s, id, k, now, crowded)
            && At(t, k', now) == AttemptBucket(s, id, k, now, crowded, k')
  {
    if Proceeds(s, id) {
      if s.config.PolicyFor(k).enabled {
        SeatedEffect(s, id, k, now, k');
      } else {
        DetachEffect(s, id, k', now);
      }
    }
  }

  // ----- Polls -----

  /** What a poll at `now` makes of the refilled bucket that `id` waits on. */
  function Polled(b: BucketState, id: Id, k: Key, deadline: int, now: int): (BucketState, Phase, Decision) {
    if now >= deadline then (b.(queue := Without(b.queue, {id})), Idle, Reject(QueueTimeout))
    else if !b.policy.enabled then (b.(queue := Without(b.queue, {id})), Idle, Admit)
    else if AtHead(b, id) && Available(b) then (Charge(b.(queue := b.queue[1..])), Active(k), Admit)
    else (b, Queued(k, deadline), WaitUntil(if AtHead(b, id) then WakeAt(b, now, deadline) else deadline))
  }

  predicate Waiting(s: State, id: Id) {
    id in s.requests && s.requests[id].Queued?
  }

  function PollAnswer(s: State, id: Id, now: int): Decision {
    if s.stopping then Reject(Stopping)
    else if id !in s.requests then Reject(RequestEnded)
    else if !s.requests[id].Queued? then Admit
    else
      var k := s.requests[id].key;
      Polled(At(s, k, now), id, k, s.requests[id].deadline, now).2
  }

  function PollPhases(s: State, id: Id, now: int): map<Id, Phase> {
    if id !in s.requests then s.requests
    else if s.stopping then s.requests[id := Idle]
    else if !s.requests[id].Queued? then s.requests
    else
      var k := s.requests[id].key;
      s.requests[id := Polled(At(s, k, now), id, k, s.requests[id].deadline, now).1]
  }

  function PollBucket(s: State, id: Id, now: int, k: Key): BucketState {
    if s.stopping then Eased(s, id, k, now)
    else if Waiting(s, id) && s.requests[id].key == k then
      Polled(At(s, k, now), id, k, s.requests[id].deadline, now).0
    else At(s, k, now)
  }

  lemma {:induction false} PollEffect(s: State, id: Id, now: int, k: Key)
    requires Books(s)
    ensures var (t, d) := Poll(s, id, now);
            && d == PollAnswer(s, id, now)
            && t.requests == PollPhases(s, id, now)
            && At(t, k, now) == PollBucket(s, id, now, k)
  {
    DetachEffect(s, id, k, now);
    if !s.stopping && Waiting(s, id) {
      WaitingPollEffect(s, id, now, s.requests[id].key, s.requests[id].deadline, k);
    }
  }

  /** At the deadline or under a disabled policy the waiter is taken off. */
  lemma {:induction false} LeavingPollEffect(s: State, id: Id, now: int, key: Key, k: Key)
    requires Books(s) && id in s.requests && s.requests[id].Queued? && s.requests[id].key == key
    ensures var t := Detach(SetBucket(s, key, At(s, key, now)), id);
            At(t, k, now) == if k == key then At(s, key, now).(queue := Without(At(s, key, now).queue, {id})) else At(s, k, now)
  {
    var t := SetBucket(s, key, At(s, key, now));
    AtIsSettled(s, key, now);
    AtSet(s, key, At(s, key, now), k, now);
    RefillKeepsBooks(s, key, now);
    DetachEffect(t, id, k, now);
  }

  lemma {:induction false} ServedPollEffect(s: State, id: Id, now: int, key: Key, deadline: int, k: Key)
    requires Books(s) && !s.stopping && now < deadline
    requires id in s.requests && s.requests[id] == Queued(key, deadline)
    ensures var (t, d) := Poll(s, id, now);
            var p := Polled(At(s, key, now), id, key, deadline, now);
            && d == p.2
            && t.requests == s.requests[id := p.1]
            && At(t, k, now) == if k == key then p.0 else At(s, k, now)
  {
    var b := At(s, key, now);
    AtIsSettled(s, key, now);
    AtSet(s, key, b, k, now);
    LeavingPollEffect(s, id, now, key, k);
    assert s.requests[id := s.requests[id]] == s.requests;
    AtSet(SetBucket(s, key, b), key, Polled(b, id, key, deadline, now).0, k, now);
  }

  lemma {:induction false} WaitingPollEffect(s: State, id: Id, now: int, key: Key, deadline: int, k: Key)
    requires Books(s) && !s.stopping
    requires id in s.requests && s.requests[id] == Queued(key, deadline)
    ensures var (t, d) := Poll(s, id, now);
            var p := Polled(At(s, key, now), id, key, deadline, now);
            && d == p.2
            && t.requests == s.requests[id := p.1]
            && At(t, k, now) == if k == key then p.0 else At(s, k, now)
  {
    if now < deadline {
      ServedPollEffect(s, id, now, key, deadline, k);
    } else {
      DetachEffect(s, id, k, now);
    }
  }

  // ----- Completion and reconfiguration -----

  lemma {:induction false} CompleteEffect(s: State, id: Id, k: Key, now: int)
    requires Valid(s)
    ensures At(Complete(s, id), k, now) == PruneBucket(s.requests, k, At(s, k, now), Family(s, id))
  {
    CompleteIsExact(s, id);
    if k in s.buckets {
      PrunedThenRefilled(s.requests, k, s.buckets[k], Family(s, id), now);
    } else {
      NobodyToPrune(s, k, Family(s, id), now);
    }
  }

  lemma {:induction false} PrunedThenRefilled(requests: map<Id, Phase>, k: Key, b: BucketState, gone: set<Id>, now: int)
    ensures Refill(PruneBucket(requests, k, b, gone), now) == PruneBucket(requests, k, Refill(b, now), gone)
  {
  }

  lemma {:induction false} NobodyToPrune(s: State, k: Key, gone: set<Id>, now: int)
    requires Books(s) && k !in s.buckets
    ensures PruneBucket(s.requests, k, At(s, k, now), gone) == At(s, k, now)
  {
    AtIsBalanced(s, k, now);
    assert Holders(s.requests, k) == {};
    assert Holders(s.requests, k) * gone == {};
  }

  /** The view of a credential after a reload. */
  lemma {:induction false} ReloadedAt(s: State, config: Config, now: int, k: Key)
    requires Books(s) && Reconfigurable(s, config)
    ensures var policy := config.PolicyFor(k);
            var b := At(s, k, now);
            At(Reconfigure(s, config, now), k, now) ==
            if k in s.buckets then
              b.(policy := policy,
                 tokens := if policy.requestsPerMinute == 0 then Full(policy) else Min(b.tokens, Full(policy)))
            else NewBucket(policy, now)
  {
    assert 0 * config.PolicyFor(k).requestsPerMinute == 0;
  }

  /** Reconfiguration is transactional, and it keeps debt even for a bucket that was evicted: unless
      its burst is raised while it does not exist, a credential goes on with the lesser of what it
      had earned under the old policy and what the new burst allows. */
  lemma {:induction false} ReloadKeepsDebt(s: State, config: Config, now: int, k: Key)
    requires Books(s)
    ensures var t := Reconfigure(s, config, now);
            if !Reconfigurable(s, config) then t == s
            else
              && t == s.(config := config, buckets := t.buckets) && t.buckets.Keys == s.buckets.Keys
              && var b, next := At(s, k, now), config.PolicyFor(k);
                 next.requestsPerMinute != 0 && (k in s.buckets || next.burst <= b.policy.burst) ==>
                   At(t, k, now) == b.(policy := next, tokens := Min(b.tokens, Full(next)))
  {
    if Reconfigurable(s, config) {
      ReloadedAt(s, config, now, k);
    }
  }

  // ----- The clock -----

  lemma {:induction false} PollKeepsClock(s: State, id: Id, now: int)
    requires ClockOk(s, now)
    ensures ClockOk(Poll(s, id, now).0, now)
  {
    DetachKeepsClock(s, id, now);
    if Waiting(s, id) && s.requests[id].key in s.buckets {
      var k := s.requests[id].key;
      DetachKeepsClock(SetBucket(s, k, Refill(s.buckets[k], now)), id, now);
    }
  }

  lemma {:induction false} OfferKeepsClock(s: State, id: Id, k: Key, now: int)
    requires ClockOk(s, now) && k in s.buckets
    ensures ClockOk(Offer(s, id, k, now).0, now)
  {
    var b := Refill(s.buckets[k], now);
    if (b.queue != [] || !Available(b)) && |b.queue| < b.policy.maxQueue {
      PollKeepsClock(Joining(s, id, k, now), id, now);
    }
  }

  lemma {:induction false} StartKeepsClock(s: State, id: Id, k: Key, now: int)
    requires ClockOk(s, now)
    ensures ClockOk(Start(s, id, k, now).0, now)
  {
    if Proceeds(s, id) {
      var t := Detach(s, id);
      DetachKeepsClock(s, id, now);
      if k in t.buckets {
        OfferKeepsClock(t, id, k, now);
      } else {
        var u := t.(buckets := Evict(t.buckets, now));
        OfferKeepsClock(SetBucket(u, k, NewBucket(u.config.PolicyFor(k), now)), id, k, now);
      }
    }
  }

  lemma {:induction false} LaterClock(s: State, t1: int, t2: int)
    requires ClockOk(s, t1) && t1 <= t2
    ensures ClockOk(s, t2)
  {
  }

  lemma {:induction false} ReconfigureKeepsSound(s: State, config: Config, now: int)
    requires Sound(s, now)
    ensures Sound(Reconfigure(s, config, now), now)
  {
    ReconfigureKeepsBooks(s, config, now);
  }

  lemma {:induction false} AttemptKeepsSound(s: State, id: Id, k: Key, now: int)
    requires Sound(s, now)
    ensures Sound(Start(s, id, k, now).0, now)
  {
    StartKeepsBooks(s, id, k, now);
    StartKeepsClock(s, id, k, now);
    StartKeepsLinks(s, id, k, now);
  }

  lemma {:induction false} PollKeepsSound(s: State, id: Id, now: int)
    requires Sound(s, now)
    ensures Sound(Poll(s, id, now).0, now)
  {
    PollKeepsBooks(s, id, now);
    PollKeepsClock(s, id, now);
    PollKeepsLinks(s, id, now);
  }

  lemma {:induction false} CompleteKeepsSound(s: State, id: Id, now: int)
    requires Sound(s, now)
    ensures Sound(Complete(s, id), now)
  {
    CompleteIsExact(s, id);
  }

  lemma {:induction false} BeginKeepsSound(s: State, id: Id, now: int)
    requires Sound(s, now)
    ensures Sound(Begin(s, id).0, now)
  {
    BeginKeepsValid(s, id);
  }

  lemma {:induction false} BeginChildKeepsSound(s: State, id: Id, parent: Id, now: int)
    requires Sound(s, now)
    ensures Sound(BeginChild(s, id, parent).0, now)
  {
    BeginChildKeepsValid(s, id, parent);
  }

  lemma {:induction false} StepKeepsSound(s: State, op: Op, clock: int)
    requires Sound(s, clock) && clock <= Clock(op, clock)
    ensures Sound(Step(s, op).0, Clock(op, clock))
  {
    LaterClock(s, clock, Clock(op, clock));
    match op {
      case Registration(id) => BeginKeepsSound(s, id, clock);
      case Nested(id, parent) => BeginChildKeepsSound(s, id, parent, clock);
      case Attempt(id, k, now) => AttemptKeepsSound(s, id, k, now);
      case Recheck(id, now) => PollKeepsSound(s, id, now);
      case Completion(id) => CompleteKeepsSound(s, id, clock);
      case Reload(config, now) => ReconfigureKeepsSound(s, config, now);
      case Quiesce =>
    }
  }

  // ----- Which buckets exist -----

  lemma {:induction false} PollKeepsKeys(s: State, id: Id, now: int)
    ensures Poll(s, id, now).0.buckets.Keys == s.buckets.Keys
  {
  }

  lemma {:induction false} JoiningKeepsKeys(s: State, id: Id, k: Key, now: int)
    requires k in s.buckets
    ensures Poll(Joining(s, id, k, now), id, now).0.buckets.Keys == s.buckets.Keys
  {
    var b := Refill(s.buckets[k], now);
    SameKeys(s, k, b);
    SameKeys(SetBucket(s, k, b), k, b.(queue := b.queue + [id]));
    PollKeepsKeys(Joining(s, id, k, now), id, now);
  }

  lemma {:induction false} OfferKeepsKeys(s: State, id: Id, k: Key, now: int)
    requires k in s.buckets
    ensures Offer(s, id, k, now).0.buckets.Keys == s.buckets.Keys
  {
    var b := Refill(s.buckets[k], now);
    SameKeys(s, k, b);
    if b.queue == [] && Available(b) {
      SameKeys(SetBucket(s, k, b), k, Charge(b));
    } else if |b.queue| < b.policy.maxQueue {
      JoiningKeepsKeys(s, id, k, now);
    }
  }

  lemma {:induction false} SameKeys(s: State, k: Key, b: BucketState)
    ensures SetBucket(s, k, b).buckets.Keys == s.buckets.Keys + {k}
    ensures k in s.buckets ==> SetBucket(s, k, b).buckets.Keys == s.buckets.Keys
  {
  }

  lemma {:induction false} SeatKeys(s: State, id: Id, k: Key, now: int)
    ensures var keys := Seat(s, id, k, now).0.buckets.Keys;
            && keys <= s.buckets.Keys + {k}
            && (k in keys && k !in s.buckets ==> |keys| <= s.config.maxCredentials)
            && (!NoRoom(s, k, now) ==> k in keys)
  {
    if k in s.buckets {
      OfferKeepsKeys(s, id, k, now);
    } else {
      var t, b := s.(buckets := Evict(s.buckets, now)), NewBucket(s.config.PolicyFor(k), now);
      SameKeys(t, k, b);
      OfferKeepsKeys(SetBucket(t, k, b), id, k, now);
      assert |t.buckets.Keys| == |t.buckets|;
    }
  }

  /** An attempt adds at most the bucket it asks for, and only below the limit. */
  lemma {:induction false} StartKeys(s: State, id: Id, k: Key, now: int)
    ensures var keys := Start(s, id, k, now).0.buckets.Keys;
            && keys <= s.buckets.Keys + {k}
            && (k in keys && k !in s.buckets ==> |keys| <= s.config.maxCredentials)
            && (IsServed(s, id, k, now) ==> k in keys)
  {
    if Proceeds(s, id) && s.config.PolicyFor(k).enabled {
      DetachKeepsKeys(s, id);
      SeatKeys(Detach(s, id), id, k, now);
    }
  }

  lemma {:induction false} DetachKeepsKeys(s: State, id: Id)
    ensures Detach(s, id).buckets.Keys == s.buckets.Keys
  {
  }

  lemma {:induction false} SeatKeysExact(s: State, id: Id, k: Key, now: int)
    requires !NoRoom(s, k, now)
    ensures Seat(s, id, k, now).0.buckets.Keys ==
            if k in s.buckets then s.buckets.Keys else Evict(s.buckets, now).Keys + {k}
  {
    if k in s.buckets {
      OfferKeepsKeys(s, id, k, now);
    } else {
      var t, b := s.(buckets := Evict(s.buckets, now)), NewBucket(s.config.PolicyFor(k), now);
      SameKeys(t, k, b);
      OfferKeepsKeys(SetBucket(t, k, b), id, k, now);
    }
  }

  /** A served attempt keeps all buckets, or evicts and makes the one it asks for. */
  lemma {:induction false} StartKeysExact(s: State, id: Id, k: Key, now: int)
    requires IsServed(s, id, k, now)
    ensures Start(s, id, k, now).0.buckets.Keys ==
            if k in s.buckets then s.buckets.Keys else Evict(Detach(s, id).buckets, now).Keys + {k}
  {
    DetachKeepsKeys(s, id);
    SeatKeysExact(Detach(s, id), id, k, now);
  }
}
