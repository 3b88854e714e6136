/** When a waiting request should ask again: the instants that WaitUntil names. */
module Wake {
  import opened Config
  import opened TokenBucket
  import opened Admission
  import opened Ledger
  import Completion
  import opened Reachability
  import opened Effects

  predicate Waits(d: Decision) { d.WaitUntil? }

  /** Waiting `elapsed` longer brings the whole-token instant closer by exactly that much. */
  lemma {:induction false} WaitForShrinks(missing: int, rate: nat, elapsed: nat)
    requires rate != 0 && elapsed * rate < missing
    ensures WaitFor(missing - elapsed * rate, rate) == WaitFor(missing, rate) - elapsed
  {
    var x := missing + rate - 1;
    assert (x - elapsed * rate) / rate == x / rate - elapsed by {
      var q, r := x / rate, x % rate;
      assert x == q * rate + r;
      assert x - elapsed * rate == (q - elapsed) * rate + r;
      DivideExact(q - elapsed, rate, r);
    }
  }

  lemma {:induction false} DivideExact(q: int, rate: nat, r: nat)
    requires r < rate
    ensures (q * rate + r) / rate == q
  {
    var p := (q * rate + r) / rate;
    assert p * rate <= q * rate + r < p * rate + rate;
    NextMultiple(p, q, rate);
    NextMultiple(q, p, rate);
  }

  lemma {:induction false} NextMultiple(a: int, b: int, rate: nat)
    ensures a < b ==> a * rate + rate <= b * rate
  {
    if a < b {
      Earns(b - a - 1, rate);
      Distribute(b - a - 1, a + 1, rate);
      Distribute(a, 1, rate);
    }
  }

  /** Every wake instant lies after the poll and not after the deadline. */
  lemma {:induction false} WakeIsInTime(s: State, id: Id, now: int)
    requires Books(s) && Waits(Poll(s, id, now).1)
    ensures Waiting(s, id)
    ensures now < Poll(s, id, now).1.instant <= s.requests[id].deadline
  {
    PollEffect(s, id, now, if Waiting(s, id) then s.requests[id].key else "");
    var b := At(s, s.requests[id].key, now);
    if b.policy.requestsPerMinute != 0 && b.tokens < UNIT {
      WaitForIsFirst(UNIT - b.tokens, b.policy.requestsPerMinute, 0);
    }
  }

  /** The bucket of a waiting head, seen later: short of a token until the wake instant. */
  lemma {:induction false} StillShort(b: BucketState, now: int, deadline: int, later: int)
    requires Settled(b, now) && 0 <= b.tokens < UNIT && b.policy.requestsPerMinute != 0 && b.policy.burst >= 1
    requires now <= later < WakeAt(b, now, deadline)
    ensures Refill(b, later).tokens < UNIT
    ensures WakeAt(Refill(b, later), later, deadline) == WakeAt(b, now, deadline)
  {
    var rate, elapsed := b.policy.requestsPerMinute, later - now;
    WaitForIsFirst(UNIT - b.tokens, rate, elapsed);
    WaitForShrinks(UNIT - b.tokens, rate, elapsed);
    assert Refill(b, later).tokens == b.tokens + elapsed * rate;
  }

  lemma {:induction false} StillEnough(b: BucketState, now: int, later: int)
    requires Settled(b, now) && now <= later
    requires b.tokens >= UNIT || b.policy.requestsPerMinute == 0
    ensures Refill(b, later).tokens >= b.tokens
  {
    assert (later - now) * b.policy.requestsPerMinute >= 0;
  }

  /** Until the instant it was given, a waiter gets the same answer again: polling earlier is
      useless, whatever the clock reads. */
  lemma {:induction false} WakeIsStable(s: State, id: Id, now: int, later: int)
    requires Sound(s, now) && Waits(Poll(s, id, now).1)
    requires now <= later < Poll(s, id, now).1.instant
    ensures Poll(s, id, later).1 == Poll(s, id, now).1
  {
    WakeIsInTime(s, id, now);
    var k, deadline := s.requests[id].key, s.requests[id].deadline;
    PollEffect(s, id, now, k);
    PollEffect(s, id, later, k);
    AtLater(s, k, now, later);
    AtIsBalanced(s, k, now);
    AtIsSettled(s, k, now);
    var b := At(s, k, now);
    if AtHead(b, id) {
      if b.policy.requestsPerMinute != 0 && b.tokens < UNIT {
        StillShort(b, now, deadline, later);
      } else {
        StillEnough(b, now, later);
      }
    }
  }

  /** The head of a queue that lacks only tokens is told the first instant at which a poll
      admits it: from then to the deadline a poll admits exactly when a slot is free. */
  lemma {:induction false} WakeIsExact(s: State, id: Id, now: int, later: int)
    requires Sound(s, now) && Waits(Poll(s, id, now).1)
    requires var w, deadline := Poll(s, id, now).1.instant, s.requests[id].deadline;
             w <= later < deadline
    ensures var b := At(s, s.requests[id].key, now);
            Poll(s, id, later).1 == Admit <==> b.policy.maxConcurrency == 0 || b.active < b.policy.maxConcurrency
  {
    WakeIsInTime(s, id, now);
    var k := s.requests[id].key;
    PollEffect(s, id, now, k);
    PollEffect(s, id, later, k);
    AtLater(s, k, now, later);
    AtIsBalanced(s, k, now);
    AtIsSettled(s, k, now);
    var b := At(s, k, now);
    WaitForIsFirst(UNIT - b.tokens, b.policy.requestsPerMinute, later - now);
    assert Refill(b, later).tokens >= UNIT;
  }

  /** A poll at or after the deadline ends the wait, whatever happened to the configuration. */
  lemma {:induction false} DeadlineEndsTheWait(s: State, id: Id, now: int)
    requires Books(s) && Waiting(s, id) && now >= s.requests[id].deadline
    ensures Poll(s, id, now).1 == (if s.stopping then Reject(Stopping) else Reject(QueueTimeout))
    ensures Poll(s, id, now).0.requests == s.requests[id := Idle]
    ensures forall k :: id !in At(Poll(s, id, now).0, k, now).queue
  {
    PollKeepsBooks(s, id, now);
    forall k ensures id !in At(Poll(s, id, now).0, k, now).queue {
      PollEffect(s, id, now, k);
      AtIsBalanced(Poll(s, id, now).0, k, now);
    }
  }

  /** An attempt leaves its request queued exactly when it answers WaitUntil. */
  lemma {:induction false} AttemptWaitsInTime(s: State, id: Id, k: Key, now: int)
    requires Books(s) && s.config.Valid()
    ensures var (t, d) := Start(s, id, k, now);
            && (Waits(d) <==> Proceeds(s, id) && Waiting(t, id))
            && (Waits(d) ==> t.requests[id].key == k && now < d.instant <= t.requests[id].deadline
                             && t.requests[id].deadline == now + s.config.PolicyFor(k).queueTimeoutMs * NANOS_PER_MILLI)
  {
    StartEffect(s, id, k, now, k);
    if Proceeds(s, id) {
      AtIsBalanced(s, k, now);
      ServedInTime(Eased(s, id, k, now), id, now);
    }
  }

  lemma {:induction false} ServedInTime(b: BucketState, id: Id, now: int)
    requires b.policy.queueTimeoutMs >= 1
    ensures var d := Served(b, id, now).1;
            Waits(d) ==> now < d.instant <= now + b.policy.queueTimeoutMs * NANOS_PER_MILLI
  {
    if b.policy.requestsPerMinute != 0 && b.tokens < UNIT {
      WaitForIsFirst(UNIT - b.tokens, b.policy.requestsPerMinute, 0);
    }
  }

  /** Nothing postpones a deadline: a request that is queued before and after a step waits for the
      same credential and until the same instant. */
  lemma {:induction false} DeadlineStays(s: State, op: Op, id: Id)
    requires Valid(s) && s.config.Valid()
    requires Waiting(s, id) && Waiting(Step(s, op).0, id)
    ensures Step(s, op).0.requests[id] == s.requests[id]
  {
    match op {
      case Attempt(x, k, now) => AttemptKeepsWaiter(s, x, k, now, id);
      case Recheck(x, now) => PollEffect(s, x, now, s.requests[id].key);
      case Completion(x) => Completion.CompleteIsExact(s, x);
      case _ =>
    }
  }

  lemma {:induction false} AttemptKeepsWaiter(s: State, x: Id, k: Key, now: int, id: Id)
    requires Books(s) && s.config.Valid() && Waiting(s, id)
    ensures Start(s, x, k, now).0.requests == s.requests || (x != id && Start(s, x, k, now).0.requests[id := s.requests[id]] == Start(s, x, k, now).0.requests)
  {
    StartEffect(s, x, k, now, k);
  }

  /** A request that has just been queued would be answered alike if it asked again. */
  lemma {:induction false} AttemptWaitsAgain(s: State, id: Id, k: Key, now: int)
    requires Books(s) && s.config.Valid()
    requires Waits(Start(s, id, k, now).1)
    ensures Poll(Start(s, id, k, now).0, id, now).1 == Start(s, id, k, now).1
  {
    StartKeepsBooks(s, id, k, now);
    WaiterJoins(s, id, k, now);
    PollOfNewcomer(Start(s, id, k, now).0, id, k, now, Eased(s, id, k, now));
  }

  /** What an attempt that waits has seen, and what it leaves. */
  lemma {:induction false} WaiterJoins(s: State, id: Id, k: Key, now: int)
    requires Books(s) && s.config.Valid()
    requires Waits(Start(s, id, k, now).1)
    ensures var (t, d) := Start(s, id, k, now);
            var b := Eased(s, id, k, now);
            && !t.stopping && id !in b.queue && b.policy.enabled && (b.queue != [] || !Available(b))
            && At(t, k, now) == b.(queue := b.queue + [id])
            && id in t.requests && t.requests[id].Queued? && t.requests[id].key == k && now < t.requests[id].deadline
            && d == WaitUntil(if b.queue == [] then WakeAt(b, now, t.requests[id].deadline) else t.requests[id].deadline)
  {
    StartEffect(s, id, k, now, k);
    StartKeepsLinks(s, id, k, now);
    AttemptWaitsInTime(s, id, k, now);
    EasedLacks(s, id, k, now);
  }

  lemma {:induction false} PollOfNewcomer(t: State, id: Id, k: Key, now: int, b: BucketState)
    requires Books(t) && !t.stopping
    requires id !in b.queue && b.policy.enabled && (b.queue != [] || !Available(b))
    requires At(t, k, now) == b.(queue := b.queue + [id])
    requires id in t.requests && t.requests[id].Queued? && t.requests[id].key == k && now < t.requests[id].deadline
    ensures var deadline := t.requests[id].deadline;
            Poll(t, id, now).1 == WaitUntil(if b.queue == [] then WakeAt(b, now, deadline) else deadline)
  {
    PollEffect(t, id, now, k);
    QueueHead(b.queue, id);
  }

  lemma {:induction false} EasedLacks(s: State, id: Id, k: Key, now: int)
    requires Books(s) && Proceeds(s, id)
    ensures id !in Eased(s, id, k, now).queue && Eased(s, id, k, now).policy == s.config.PolicyFor(k)
  {
    AtIsBalanced(s, k, now);
    assert !Ledger.Waits(s.requests, id, k);
  }

  lemma {:induction false} QueueHead(q: seq<Id>, id: Id)
    requires id !in q
    ensures (q + [id])[0] == id <==> q == []
  {
  }
}
