/** The invariant that ties the five maps of the engine together, and its preservation. */
module Ledger {
  import opened Config
  import opened Sequences
  import opened TokenBucket
  import opened Admission

  ghost function Holders(requests: map<Id, Phase>, k: Key): set<Id> {
    set r | r in requests && requests[r] == Active(k)
  }

  predicate Waits(requests: map<Id, Phase>, r: Id, k: Key) {
    r in requests && requests[r].Queued? && requests[r].key == k
  }

  /** A bucket agrees with the phases of the requests and with the configuration. */
  ghost predicate Balanced(config: Config, requests: map<Id, Phase>, k: Key, b: BucketState) {
    && b.active == |Holders(requests, k)|
    && NoDuplicates(b.queue)
    && (forall r :: r in b.queue <==> Waits(requests, r, k))
    && b.policy == config.PolicyFor(k)
    && 0 <= b.tokens <= Full(b.policy)
  }

  ghost predicate Books(s: State) {
    && (forall k :: k in s.buckets ==> Balanced(s.config, s.requests, k, s.buckets[k]))
    && (forall r :: r in s.requests && !s.requests[r].Idle? ==> s.requests[r].key in s.buckets)
  }

  /** Parent links and child lists describe the same forest of live requests. */
  ghost predicate Forest(live: set<Id>, parents: map<Id, Id>, children: map<Id, seq<Id>>) {
    && (forall c :: c in parents ==> c in live && parents[c] in children && c in children[parents[c]])
    && (forall p :: p in children ==> p in live && NoDuplicates(children[p]))
    && (forall p, c :: p in children && c in children[p] ==> c in parents && parents[c] == p)
    && Grounded(parents)
  }

  /** Every nonempty set of children has a member whose parent lies outside it: no cycles. */
  ghost predicate Grounded(parents: map<Id, Id>) {
    forall d: set<Id> :: d != {} && d <= parents.Keys ==> exists c :: c in d && parents[c] !in d
  }

  ghost predicate Valid(s: State) {
    Books(s) && Forest(s.requests.Keys, s.parents, s.children)
  }

  // ----- Counting holders -----

  lemma {:induction false} HoldersAfter(requests: map<Id, Phase>, id: Id, phase: Phase, k: Key)
    ensures Holders(requests[id := phase], k) ==
            (if phase == Active(k) then Holders(requests, k) + {id} else Holders(requests, k) - {id})
  {
  }

  lemma {:induction false} HolderPresent(requests: map<Id, Phase>, id: Id, k: Key)
    requires id in requests && requests[id] == Active(k)
    ensures |Holders(requests, k)| >= 1
    ensures |Holders(requests, k) - {id}| == |Holders(requests, k)| - 1
  {
    assert id in Holders(requests, k);
  }

  /** A slot given back was held: `active` never underflows, and the bucket is there. */
  lemma {:induction false} SlotIsHeld(s: State, id: Id)
    requires Books(s) && id in s.requests && !s.requests[id].Idle?
    ensures s.requests[id].key in s.buckets
    ensures s.requests[id].Active? ==> s.buckets[s.requests[id].key].active >= 1
    ensures s.requests[id].Queued? ==> id in s.buckets[s.requests[id].key].queue
  {
    var k := s.requests[id].key;
    assert Balanced(s.config, s.requests, k, s.buckets[k]);
    if s.requests[id].Active? {
      HolderPresent(s.requests, id, k);
    } else {
      assert Waits(s.requests, id, k);
    }
  }

  // ----- Preservation -----

  lemma {:induction false} InitialIsValid(config: Config)
    ensures Valid(Initial(config))
  {
  }

  /** Giving back a phase on `k` balances the bucket of `k` again. */
  lemma {:induction false} ReleaseBalances(config: Config, requests: map<Id, Phase>, id: Id, k: Key, b: BucketState)
    requires Balanced(config, requests, k, b)
    requires id in requests && !requests[id].Idle? && requests[id].key == k
    ensures Balanced(config, requests[id := Idle], k, Release(b, id, requests[id]))
  {
    HoldersAfter(requests, id, Idle, k);
    WithoutKeepsDistinct(b.queue, {id});
    if requests[id].Active? {
      HolderPresent(requests, id, k);
    } else {
      assert Holders(requests, k) - {id} == Holders(requests, k);
    }
  }

  /** A bucket is unaffected by what a request does elsewhere. */
  lemma {:induction false} OthersStayBalanced(config: Config, requests: map<Id, Phase>, id: Id, phase: Phase, k: Key, b: BucketState)
    requires Balanced(config, requests, k, b)
    requires id in requests ==> requests[id].Idle? || requests[id].key != k
    requires phase.Idle? || phase.key != k
    ensures Balanced(config, requests[id := phase], k, b)
  {
    HoldersAfter(requests, id, phase, k);
    assert Holders(requests, k) - {id} == Holders(requests, k);
  }

  lemma {:induction false} DetachKeepsBooks(s: State, id: Id)
    requires Books(s)
    ensures Books(Detach(s, id))
  {
    if id in s.requests {
      var t := Detach(s, id);
      forall k | k in s.buckets
        ensures Balanced(t.config, t.requests, k, t.buckets[k])
      {
        if s.requests[id].Idle? || s.requests[id].key != k {
          OthersStayBalanced(s.config, s.requests, id, Idle, k, s.buckets[k]);
        } else {
          ReleaseBalances(s.config, s.requests, id, k, s.buckets[k]);
        }
      }
    }
  }

  /** Rewriting one bucket and the phase of one request on it keeps the books if it balances that bucket. */
  lemma {:induction false} MoveKeepsBooks(s: State, id: Id, phase: Phase, k: Key, b: BucketState)
    requires Books(s)
    requires id in s.requests ==> s.requests[id].Idle? || s.requests[id].key == k
    requires phase.Idle? || phase.key == k
    requires Balanced(s.config, s.requests[id := phase], k, b)
    ensures Books(SetBucket(s, k, b).(requests := s.requests[id := phase]))
  {
    forall k' | k' in s.buckets && k' != k
      ensures Balanced(s.config, s.requests[id := phase], k', s.buckets[k'])
    {
      OthersStayBalanced(s.config, s.requests, id, phase, k', s.buckets[k']);
    }
  }

  lemma {:induction false} RefillBalances(config: Config, requests: map<Id, Phase>, k: Key, b: BucketState, now: int)
    requires Balanced(config, requests, k, b)
    ensures Balanced(config, requests, k, Refill(b, now))
  {
    RefillBounds(b, now);
  }

  lemma {:induction false} SetBucketKeepsBooks(s: State, k: Key, b: BucketState)
    requires Books(s) && Balanced(s.config, s.requests, k, b)
    ensures Books(SetBucket(s, k, b))
  {
  }

  /** Admitting a request that is Idle, or first in line, to an available bucket. */
  lemma {:induction false} ChargeBalances(config: Config, requests: map<Id, Phase>, id: Id, k: Key, b: BucketState)
    requires Balanced(config, requests, k, b) && Available(b)
    requires id in requests
    requires requests[id].Idle? || (Waits(requests, id, k) && AtHead(b, id))
    ensures var line := if requests[id].Idle? then b.queue else b.queue[1..];
            Balanced(config, requests[id := Active(k)], k, Charge(b.(queue := line)))
  {
    HoldersAfter(requests, id, Active(k), k);
    assert id !in Holders(requests, k);
    if !requests[id].Idle? {
      WithoutHead(b.queue);
      WithoutKeepsDistinct(b.queue, {id});
    }
  }

  lemma {:induction false} EnqueueBalances(config: Config, requests: map<Id, Phase>, id: Id, k: Key, deadline: int, b: BucketState)
    requires Balanced(config, requests, k, b)
    requires id in requests && requests[id].Idle?
    ensures Balanced(config, requests[id := Queued(k, deadline)], k, b.(queue := b.queue + [id]))
  {
    HoldersAfter(requests, id, Queued(k, deadline), k);
    assert Holders(requests, k) - {id} == Holders(requests, k);
    assert !Waits(requests, id, k);
  }

  lemma {:induction false} ChargeKeepsBooks(s: State, id: Id, k: Key)
    requires Books(s) && k in s.buckets && id in s.requests && s.requests[id].Idle?
    requires Available(s.buckets[k])
    ensures Books(SetBucket(s, k, Charge(s.buckets[k])).(requests := s.requests[id := Active(k)]))
  {
    ChargeBalances(s.config, s.requests, id, k, s.buckets[k]);
    MoveKeepsBooks(s, id, Active(k), k, Charge(s.buckets[k]));
  }

  lemma {:induction false} EnqueueKeepsBooks(s: State, id: Id, k: Key, deadline: int)
    requires Books(s) && k in s.buckets && id in s.requests && s.requests[id].Idle?
    ensures Books(Enqueue(s, id, k, deadline))
  {
    var b := s.buckets[k];
    EnqueueBalances(s.config, s.requests, id, k, deadline, b);
    MoveKeepsBooks(s, id, Queued(k, deadline), k, b.(queue := b.queue + [id]));
  }

  lemma {:induction false} PollKeepsBooks(s: State, id: Id, now: int)
    requires Books(s)
    ensures Books(Poll(s, id, now).0)
    ensures Poll(s, id, now).1 != Panicked
  {
    DetachKeepsBooks(s, id);
    if id in s.requests && s.requests[id].Queued? {
      var k := s.requests[id].key;
      var b := Refill(s.buckets[k], now);
      var t := SetBucket(s, k, b);
      RefillBalances(s.config, s.requests, k, s.buckets[k], now);
      SetBucketKeepsBooks(s, k, b);
      DetachKeepsBooks(t, id);
      if AtHead(b, id) && Available(b) {
        ChargeBalances(s.config, s.requests, id, k, b);
        MoveKeepsBooks(t, id, Active(k), k, Charge(b.(queue := b.queue[1..])));
      }
    }
  }

  lemma {:induction false} RefillKeepsBooks(s: State, k: Key, now: int)
    requires Books(s) && k in s.buckets
    ensures var b := Refill(s.buckets[k], now);
            Balanced(s.config, s.requests, k, b) && Books(SetBucket(s, k, b))
  {
    RefillBalances(s.config, s.requests, k, s.buckets[k], now);
    SetBucketKeepsBooks(s, k, Refill(s.buckets[k], now));
  }

  lemma {:induction false} JoiningKeepsBooks(s: State, id: Id, k: Key, now: int)
    requires Books(s) && k in s.buckets
    requires id in s.requests && s.requests[id].Idle?
    ensures Books(Poll(Joining(s, id, k, now), id, now).0)
    ensures Poll(Joining(s, id, k, now), id, now).1 != Panicked
  {
    var b := Refill(s.buckets[k], now);
    RefillKeepsBooks(s, k, now);
    EnqueueKeepsBooks(SetBucket(s, k, b), id, k, now + b.policy.queueTimeoutMs * NANOS_PER_MILLI);
    PollKeepsBooks(Joining(s, id, k, now), id, now);
  }

  lemma {:induction false} OfferKeepsBooks(s: State, id: Id, k: Key, now: int)
    requires Books(s) && k in s.buckets
    requires id in s.requests && s.requests[id].Idle?
    ensures Books(Offer(s, id, k, now).0)
    ensures Offer(s, id, k, now).1 != Panicked
  {
    var b := Refill(s.buckets[k], now);
    RefillKeepsBooks(s, k, now);
    if b.queue == [] && Available(b) {
      ChargeKeepsBooks(SetBucket(s, k, b), id, k);
    } else if |b.queue| < b.policy.maxQueue {
      JoiningKeepsBooks(s, id, k, now);
    }
  }

  /** Nobody refers to a bucket that is evicted. */
  lemma {:induction false} EvictKeepsBooks(s: State, now: int)
    requires Books(s)
    ensures Books(s.(buckets := Evict(s.buckets, now)))
  {
    var t := s.(buckets := Evict(s.buckets, now));
    forall k | k in t.buckets ensures Balanced(t.config, t.requests, k, t.buckets[k]) {
      RefillBalances(s.config, s.requests, k, s.buckets[k], now);
    }
    forall r | r in t.requests && !t.requests[r].Idle? ensures t.requests[r].key in t.buckets {
      var k := t.requests[r].key;
      assert Balanced(s.config, s.requests, k, s.buckets[k]);
      if t.requests[r].Active? {
        HolderPresent(s.requests, r, k);
      } else {
        assert Waits(s.requests, r, k);
      }
    }
  }

  lemma {:induction false} NewBucketBalances(s: State, k: Key, now: int)
    requires Books(s) && k !in s.buckets
    ensures Balanced(s.config, s.requests, k, NewBucket(s.config.PolicyFor(k), now))
  {
    assert Holders(s.requests, k) == {};
  }

  lemma {:induction false} SeatKeepsBooks(s: State, id: Id, k: Key, now: int)
    requires Books(s)
    requires id in s.requests && s.requests[id].Idle?
    ensures Books(Seat(s, id, k, now).0)
    ensures Seat(s, id, k, now).1 != Panicked
  {
    if k in s.buckets {
      OfferKeepsBooks(s, id, k, now);
    } else {
      var t := s.(buckets := Evict(s.buckets, now));
      var b := NewBucket(s.config.PolicyFor(k), now);
      EvictKeepsBooks(s, now);
      NewBucketBalances(t, k, now);
      SetBucketKeepsBooks(t, k, b);
      OfferKeepsBooks(SetBucket(t, k, b), id, k, now);
    }
  }

  lemma {:induction false} StartKeepsBooks(s: State, id: Id, k: Key, now: int)
    requires Books(s)
    ensures Books(Start(s, id, k, now).0)
    ensures Start(s, id, k, now).1 != Panicked
  {
    if !s.stopping && id in s.requests && !s.requests[id].Queued? {
      DetachKeepsBooks(s, id);
      SeatKeepsBooks(Detach(s, id), id, k, now);
    }
  }

  lemma {:induction false} BeginKeepsBooks(s: State, id: Id)
    requires Books(s)
    ensures Books(Begin(s, id).0)
  {
    if id !in s.requests {
      forall k | k in s.buckets ensures Balanced(s.config, s.requests[id := Idle], k, s.buckets[k]) {
        OthersStayBalanced(s.config, s.requests, id, Idle, k, s.buckets[k]);
      }
    }
  }

  lemma {:induction false} RepolicyBalances(config: Config, config': Config, requests: map<Id, Phase>, k: Key, b: BucketState, now: int)
    requires Balanced(config, requests, k, b)
    ensures Balanced(config', requests, k, Repolicy(b, config'.PolicyFor(k), now))
  {
    RefillBounds(b, now);
  }

  lemma {:induction false} ReconfigureKeepsBooks(s: State, config: Config, now: int)
    requires Books(s)
    ensures Books(Reconfigure(s, config, now))
  {
    if Reconfigurable(s, config) {
      forall k | k in s.buckets
        ensures Balanced(config, s.requests, k, Repolicy(s.buckets[k], config.PolicyFor(k), now))
      {
        RepolicyBalances(s.config, config, s.requests, k, s.buckets[k], now);
      }
    }
  }

  lemma {:induction false} DroppingIdleStaysBalanced(config: Config, requests: map<Id, Phase>, id: Id, k: Key, b: BucketState)
    requires Balanced(config, requests, k, b)
    requires id in requests ==> requests[id].Idle?
    ensures Balanced(config, requests - {id}, k, b)
  {
    assert Holders(requests - {id}, k) == Holders(requests, k);
  }

  lemma {:induction false} ForgetKeepsBooks(s: State, id: Id)
    requires Books(s)
    ensures Books(Forget(s, id))
  {
    var t := s.(children := Unlink(s.parents, s.children, id), parents := s.parents - {id});
    DetachKeepsBooks(t, id);
    var u := Detach(t, id);
    forall k | k in u.buckets ensures Balanced(u.config, u.requests - {id}, k, u.buckets[k]) {
      DroppingIdleStaysBalanced(u.config, u.requests, id, k, u.buckets[k]);
    }
  }
}
