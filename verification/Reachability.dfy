/** Every reachable state is valid, whatever the run of operations. */
module Reachability {
  import opened Config
  import opened Sequences
  import opened TokenBucket
  import opened Admission
  import opened Ledger
  import opened Completion

  /** `t` differs from `s` in phases and buckets only. */
  predicate SameLinks(s: State, t: State) {
    && t.requests.Keys == s.requests.Keys
    && t.parents == s.parents
    && t.children == s.children
    && t.config == s.config
    && t.stopping == s.stopping
  }

  lemma {:induction false} DetachKeepsLinks(s: State, id: Id)
    ensures SameLinks(s, Detach(s, id))
  {
  }

  lemma {:induction false} PollKeepsLinks(s: State, id: Id, now: int)
    ensures SameLinks(s, Poll(s, id, now).0)
  {
    DetachKeepsLinks(s, id);
    if id in s.requests && s.requests[id].Queued? && s.requests[id].key in s.buckets {
      var k := s.requests[id].key;
      DetachKeepsLinks(SetBucket(s, k, Refill(s.buckets[k], now)), id);
    }
  }

  lemma {:induction false} MoveKeepsLinks(s: State, id: Id, phase: Phase, k: Key, b: BucketState)
    requires id in s.requests
    ensures SameLinks(s, SetBucket(s, k, b).(requests := s.requests[id := phase]))
  {
  }

  lemma {:induction false} JoiningKeepsLinks(s: State, id: Id, k: Key, now: int)
    requires k in s.buckets && id in s.requests
    ensures SameLinks(s, Poll(Joining(s, id, k, now), id, now).0)
  {
    var b := Refill(s.buckets[k], now);
    MoveKeepsLinks(SetBucket(s, k, b), id, Queued(k, now + b.policy.queueTimeoutMs * NANOS_PER_MILLI), k, b.(queue := b.queue + [id]));
    PollKeepsLinks(Joining(s, id, k, now), id, now);
  }

  lemma {:induction false} OfferKeepsLinks(s: State, id: Id, k: Key, now: int)
    requires k in s.buckets && id in s.requests
    ensures SameLinks(s, Offer(s, id, k, now).0)
  {
    var b := Refill(s.buckets[k], now);
    if b.queue == [] && Available(b) {
      MoveKeepsLinks(SetBucket(s, k, b), id, Active(k), k, Charge(b));
    } else if |b.queue| < b.policy.maxQueue {
      JoiningKeepsLinks(s, id, k, now);
    }
  }

  lemma {:induction false} StartKeepsLinks(s: State, id: Id, k: Key, now: int)
    ensures SameLinks(s, Start(s, id, k, now).0)
  {
    if !s.stopping && id in s.requests && !s.requests[id].Queued? {
      var t := Detach(s, id);
      DetachKeepsLinks(s, id);
      if k in t.buckets {
        OfferKeepsLinks(t, id, k, now);
      } else {
        var u := t.(buckets := Evict(t.buckets, now));
        OfferKeepsLinks(SetBucket(u, k, NewBucket(u.config.PolicyFor(k), now)), id, k, now);
      }
    }
  }

  lemma {:induction false} LeafKeepsGrounded(parents: map<Id, Id>, id: Id, parent: Id)
    requires Grounded(parents)
    requires id != parent && id !in parents && forall c :: c in parents ==> parents[c] != id
    ensures Grounded(parents[id := parent])
  {
    var more := parents[id := parent];
    forall d: set<Id> | d != {} && d <= more.Keys ensures exists c :: c in d && more[c] !in d {
      if x :| x in d && x != id {
        var d' := d - {id};
        assert x in d' && d' <= parents.Keys;
        var c :| c in d' && parents[c] !in d';
        assert more[c] !in d;
      } else {
        assert d == {id};
        assert more[id] !in d;
      }
    }
  }

  lemma {:induction false} LeafKeepsForest(live: set<Id>, parents: map<Id, Id>, children: map<Id, seq<Id>>, id: Id, parent: Id)
    requires Forest(live, parents, children)
    requires id !in live && parent in live
    ensures var siblings := if parent in children then children[parent] else [];
            Forest(live + {id}, parents[id := parent], children[parent := siblings + [id]])
  {
    var siblings := if parent in children then children[parent] else [];
    LeafKeepsGrounded(parents, id, parent);
    DistinctConcat(siblings, [id]);
  }

  lemma {:induction false} BeginChildKeepsValid(s: State, id: Id, parent: Id)
    requires Valid(s)
    ensures Valid(BeginChild(s, id, parent).0)
  {
    BeginKeepsBooks(s, id);
    if BeginChild(s, id, parent).1.Accepted? {
      LeafKeepsForest(s.requests.Keys, s.parents, s.children, id, parent);
      assert s.requests[id := Idle].Keys == s.requests.Keys + {id};
    }
  }

  lemma {:induction false} BeginKeepsValid(s: State, id: Id)
    requires Valid(s)
    ensures Valid(Begin(s, id).0)
  {
    BeginKeepsBooks(s, id);
    MoreLiveKeepsForest(s.requests.Keys, Begin(s, id).0.requests.Keys, s.parents, s.children);
  }

  /** Registering again is harmless: an accepted request stays registered and is accepted again. */
  lemma {:induction false} RegisteringAgain(s: State, id: Id)
    requires Begin(s, id).1.Accepted?
    ensures var t := Begin(s, id).0;
            id in t.requests && Begin(t, id) == (t, Accepted) && (id in s.requests ==> t == s)
  {
  }

  lemma {:induction false} MoreLiveKeepsForest(live: set<Id>, more: set<Id>, parents: map<Id, Id>, children: map<Id, seq<Id>>)
    requires Forest(live, parents, children) && live <= more
    ensures Forest(more, parents, children)
  {
  }

  lemma {:induction false} StepKeepsValid(s: State, op: Op)
    requires Valid(s)
    ensures Valid(Step(s, op).0)
    ensures Step(s, op).1 != Deciding(Panicked)
  {
    match op {
      case Registration(id) => BeginKeepsValid(s, id);
      case Nested(id, parent) => BeginChildKeepsValid(s, id, parent);
      case Attempt(id, k, now) => StartKeepsBooks(s, id, k, now); StartKeepsLinks(s, id, k, now);
      case Recheck(id, now) => PollKeepsBooks(s, id, now); PollKeepsLinks(s, id, now);
      case Completion(id) => CompleteIsExact(s, id);
      case Reload(config, now) => ReconfigureKeepsBooks(s, config, now);
      case Quiesce =>
    }
  }

  /** The ledger invariant holds after every run. */
  lemma {:induction false} RunKeepsValid(s: State, ops: seq<Op>)
    requires Valid(s)
    ensures Valid(Run(s, ops))
    decreases |ops|
  {
    if ops != [] {
      StepKeepsValid(s, ops[0]);
      RunKeepsValid(Step(s, ops[0]).0, ops[1..]);
    }
  }

  /** No reachable state answers with a failed `expect`, whatever is asked of it. */
  lemma {:induction false} NeverPanics(config: Config, ops: seq<Op>, op: Op)
    ensures Step(Run(Initial(config), ops), op).1 != Deciding(Panicked)
  {
    InitialIsValid(config);
    RunKeepsValid(Initial(config), ops);
    StepKeepsValid(Run(Initial(config), ops), op);
  }

  // ----- What counts() reports -----

  /** The requests Active on a credential among `keys`. */
  ghost function ActiveOn(s: State, keys: set<Key>): set<Id> {
    set r | r in s.requests && s.requests[r].Active? && s.requests[r].key in keys
  }

  ghost function QueuedOn(s: State, keys: set<Key>): set<Id> {
    set r | r in s.requests && s.requests[r].Queued? && s.requests[r].key in keys
  }

  lemma {:induction false} DistinctCount(q: seq<Id>, members: set<Id>)
    requires NoDuplicates(q) && forall r :: r in q <==> r in members
    ensures |q| == |members|
  {
    if q == [] {
      assert members == {};
    } else {
      assert q == [q[0]] + q[1..];
      DistinctConcat([q[0]], q[1..]);
      DistinctCount(q[1..], members - {q[0]});
    }
  }

  lemma {:induction false} CountHolders(s: State, keys: set<Key>, k: Key)
    requires k !in keys
    ensures |ActiveOn(s, keys + {k})| == |ActiveOn(s, keys)| + |Holders(s.requests, k)|
  {
    var h := Holders(s.requests, k);
    assert ActiveOn(s, keys + {k}) == ActiveOn(s, keys) + h;
    assert ActiveOn(s, keys) * h == {};
  }

  lemma {:induction false} CountWaiters(s: State, keys: set<Key>, k: Key)
    requires k !in keys
    ensures |QueuedOn(s, keys + {k})| == |QueuedOn(s, keys)| + |QueuedOn(s, {k})|
  {
    var w := QueuedOn(s, {k});
    assert QueuedOn(s, keys + {k}) == QueuedOn(s, keys) + w;
    assert QueuedOn(s, keys) * w == {};
  }

  /** Counting one more bucket adds its active slots and its queue to the totals. */
  lemma {:induction false} CountBucket(s: State, keys: set<Key>, k: Key)
    requires Books(s) && k in s.buckets && k !in keys
    ensures |ActiveOn(s, keys + {k})| == |ActiveOn(s, keys)| + s.buckets[k].active
    ensures |QueuedOn(s, keys + {k})| == |QueuedOn(s, keys)| + |s.buckets[k].queue|
  {
    assert Balanced(s.config, s.requests, k, s.buckets[k]);
    CountHolders(s, keys, k);
    CountWaiters(s, keys, k);
    DistinctCount(s.buckets[k].queue, QueuedOn(s, {k}));
  }

  lemma {:induction false} CountOneMore(s: State, remaining: set<Key>, k: Key)
    requires Books(s) && k in remaining && remaining <= s.buckets.Keys
    ensures var before, after := s.buckets.Keys - remaining, s.buckets.Keys - (remaining - {k});
            && |ActiveOn(s, after)| == |ActiveOn(s, before)| + s.buckets[k].active
            && |QueuedOn(s, after)| == |QueuedOn(s, before)| + |s.buckets[k].queue|
  {
    CountBucket(s, s.buckets.Keys - remaining, k);
    assert s.buckets.Keys - (remaining - {k}) == (s.buckets.Keys - remaining) + {k};
  }

  lemma {:induction false} AllKeysCounted(s: State)
    requires Books(s)
    ensures ActiveOn(s, s.buckets.Keys) == set r | r in s.requests && s.requests[r].Active?
    ensures QueuedOn(s, s.buckets.Keys) == set r | r in s.requests && s.requests[r].Queued?
  {
  }
}
