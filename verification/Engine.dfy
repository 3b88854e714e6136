/** The engine and its buckets as the mutable objects they are. Every method is proved to do to
    the abstract state exactly what the function of the same name in `Admission` says. */
module Engine {
  import opened Config
  import opened Sequences
  import opened TokenBucket
  import Admission
  import Ledger
  import Completion
  import Reachability
  import Effects

  type Id = Admission.Id
  type Key = Admission.Key

  class Bucket {
    var policy: Policy
    var tokens: int
    var updated: int
    var active: nat
    var queue: seq<Id>

    constructor (policy: Policy, now: int)
      ensures View() == NewBucket(policy, now)
    {
      this.policy := policy;
      tokens := policy.burst * UNIT;
      updated := now;
      active := 0;
      queue := [];
    }

    function View(): BucketState
      reads this
    {
      BucketState(policy, tokens, updated, active, queue)
    }

    method RefillTo(now: int)
      modifies this
      ensures View() == Refill(old(View()), now)
    {
      var elapsed := if now <= updated then 0 else now - updated;
      updated := now;
      if policy.requestsPerMinute == 0 {
        tokens := policy.burst * UNIT;
      } else {
        tokens := Min(tokens + elapsed * policy.requestsPerMinute, policy.burst * UNIT);
      }
    }

    predicate IsAvailable()
      reads this
      ensures IsAvailable() == Available(View())
    {
      && (policy.maxConcurrency == 0 || active < policy.maxConcurrency)
      && (policy.requestsPerMinute == 0 || tokens >= UNIT)
    }

    /** Eviction keeps a bucket that is busy, waited for, or in debt. */
    predicate IsKept()
      reads this
      ensures IsKept() == !Evictable(View())
    {
      active != 0 || queue != [] || tokens < policy.burst * UNIT
    }

    method ChargeOne()
      modifies this
      ensures View() == Charge(old(View()))
    {
      if policy.requestsPerMinute != 0 {
        tokens := tokens - UNIT;
      }
      active := active + 1;
    }

    function WakeAt(now: int, deadline: int): (wake: int)
      reads this
      ensures wake == TokenBucket.WakeAt(View(), now, deadline)
    {
      if policy.requestsPerMinute != 0 && tokens < UNIT then
        Min(now + WaitFor(UNIT - tokens, policy.requestsPerMinute), deadline)
      else
        deadline
    }

    predicate IsHead(id: Id)
      reads this
    {
      queue != [] && queue[0] == id
    }
  }

  /** Part of the way through an eviction: `remaining` have not been looked at. */
  ghost predicate Evicting(before: map<Key, BucketState>, shelf: map<Key, BucketState>, remaining: set<Key>, now: int) {
    && remaining <= shelf.Keys <= before.Keys
    && (forall k :: k in remaining ==> shelf[k] == before[k])
    && (forall k :: k in before && k !in remaining ==> (k in shelf <==> !Evictable(Refill(before[k], now))))
    && (forall k :: k in shelf && k !in remaining ==> shelf[k] == Refill(before[k], now))
  }

  lemma {:induction false} EvictingOne(before: map<Key, BucketState>, shelf: map<Key, BucketState>,
                                       remaining: set<Key>, now: int, k: Key)
    requires Evicting(before, shelf, remaining, now) && k in remaining
    ensures var b := Refill(shelf[k], now);
            Evicting(before, if Evictable(b) then shelf - {k} else shelf[k := b], remaining - {k}, now)
  {
  }

  lemma {:induction false} EvictingEnds(before: map<Key, BucketState>, shelf: map<Key, BucketState>, now: int)
    requires Evicting(before, shelf, {}, now)
    ensures shelf == Admission.Evict(before, now)
  {
    Completion.SameMap(shelf, Admission.Evict(before, now));
  }

  /** Part of the way through a reconfiguration: `remaining` still have their old policies. */
  ghost predicate Repolicying(before: map<Key, BucketState>, shelf: map<Key, BucketState>,
                              remaining: set<Key>, next: Config, now: int)
  {
    && remaining <= shelf.Keys == before.Keys
    && (forall k :: k in remaining ==> shelf[k] == before[k])
    && (forall k :: k in before && k !in remaining ==> shelf[k] == Admission.Repolicy(before[k], next.PolicyFor(k), now))
  }

  lemma {:induction false} RepolicyingOne(before: map<Key, BucketState>, shelf: map<Key, BucketState>,
                                          remaining: set<Key>, next: Config, now: int, k: Key)
    requires Repolicying(before, shelf, remaining, next, now) && k in remaining
    ensures Repolicying(before, shelf[k := Admission.Repolicy(shelf[k], next.PolicyFor(k), now)], remaining - {k}, next, now)
  {
  }

  class Engine {
    var config: Config
    var requests: map<Id, Admission.Phase>
    var parents: map<Id, Id>
    var children: map<Id, seq<Id>>
    var buckets: map<Key, Bucket>
    var stopping: bool

    ghost function Repr(): set<object>
      reads this`buckets
    {
      set k | k in buckets :: buckets[k]
    }

    /** Each credential has a bucket of its own. */
    ghost predicate Owned()
      reads this`buckets
    {
      forall j, k :: j in buckets && k in buckets && j != k ==> buckets[j] != buckets[k]
    }

    ghost function Shelf(): map<Key, BucketState>
      reads this`buckets, Repr()
    {
      map k | k in buckets :: buckets[k].View()
    }

    ghost function View(): Admission.State
      reads this, Repr()
    {
      Admission.State(config, requests, parents, children, Shelf(), stopping)
    }

    lemma ShelfSize()
      ensures |Shelf()| == |buckets|
    {
      assert Shelf().Keys == buckets.Keys;
      assert |Shelf().Keys| == |Shelf()| && |buckets.Keys| == |buckets|;
    }

    twostate lemma ShelfUntouched()
      requires buckets == old(buckets)
      requires forall k :: k in buckets ==> buckets[k].View() == old(buckets[k].View())
      ensures Shelf() == old(Shelf())
    {
    }

    /** When one bucket alone changes, so does one entry of the abstract shelf alone. */
    twostate lemma OneBucketChanged(key: Key)
      requires old(Owned()) && buckets == old(buckets) && key in buckets
      requires forall k :: k in buckets && k != key ==> buckets[k].View() == old(buckets[k].View())
      ensures Shelf() == old(Shelf())[key := buckets[key].View()]
    {
    }

    ghost predicate Consistent()
      reads this, Repr()
    {
      Owned() && Ledger.Books(View())
    }

    ghost predicate Valid()
      reads this, Repr()
    {
      Owned() && Ledger.Valid(View())
    }

    constructor (config: Config)
      ensures Valid() && View() == Admission.Initial(config)
    {
      this.config := config;
      requests := map[];
      parents := map[];
      children := map[];
      buckets := map[];
      stopping := false;
      new;
      Ledger.InitialIsValid(config);
      assert View() == Admission.Initial(config);
    }

    method Begin(id: Id) returns (r: Admission.Registered)
      requires Valid()
      modifies this`requests
      ensures Valid()
      ensures (View(), r) == Admission.Begin(old(View()), id)
    {
      Reachability.BeginKeepsValid(View(), id);
      if stopping {
        return Admission.Refused(Admission.Stopping);
      }
      if id in requests {
        return Admission.Accepted;
      }
      if |requests| >= config.maxTrackedRequests {
        return Admission.Refused(Admission.Capacity);
      }
      requests := requests[id := Admission.Idle];
      ShelfUntouched();
      return Admission.Accepted;
    }

    method BeginChild(id: Id, parent: Id) returns (r: Admission.Registered)
      requires Valid()
      modifies this`requests, this`parents, this`children
      ensures Valid()
      ensures (View(), r) == Admission.BeginChild(old(View()), id, parent)
    {
      Reachability.BeginChildKeepsValid(View(), id, parent);
      if id == parent || parent !in requests || id in requests {
        return Admission.Refused(Admission.RequestEnded);
      }
      r := Begin(id);
      if r.Accepted? {
        Link(id, parent);
      }
    }

    method Link(id: Id, parent: Id)
      modifies this`parents, this`children
      ensures parents == old(parents)[id := parent]
      ensures children == old(children)[parent := (if parent in old(children) then old(children)[parent] else []) + [id]]
      ensures Shelf() == old(Shelf())
    {
      parents := parents[id := parent];
      children := children[parent := (if parent in children then children[parent] else []) + [id]];
      ShelfUntouched();
    }

    /** The slot that `id` would give back is held, so that `active` cannot underflow. */
    ghost predicate CanDetach(id: Id)
      reads this, Repr()
    {
      && Owned()
      && (id in requests && requests[id].Active? && requests[id].key in buckets ==> buckets[requests[id].key].active >= 1)
    }

    lemma BooksAllowDetach(id: Id)
      requires Consistent()
      ensures CanDetach(id)
    {
      if id in requests && !requests[id].Idle? {
        Ledger.SlotIsHeld(View(), id);
      }
    }

    method Detach(id: Id)
      requires CanDetach(id)
      modifies this`requests, Repr()
      ensures View() == Admission.Detach(old(View()), id)
    {
      if id !in requests {
        return;
      }
      var phase := requests[id];
      requests := requests[id := Admission.Idle];
      GiveBack(id, phase);
    }

    method GiveBack(id: Id, phase: Admission.Phase)
      requires Owned()
      requires phase.Active? && phase.key in buckets ==> buckets[phase.key].active >= 1
      modifies Repr()
      ensures Shelf() == Admission.Returned(old(Shelf()), id, phase)
    {
      match phase {
        case Idle => ShelfUntouched();
        case Active(key) =>
          if key in buckets {
            ReleaseSlot(key);
          } else {
            ShelfUntouched();
          }
        case Queued(key, _) =>
          if key in buckets {
            LeaveQueue(key, id);
          } else {
            ShelfUntouched();
          }
      }
    }

    method ReleaseSlot(key: Key)
      requires Owned() && key in buckets && buckets[key].active >= 1
      modifies buckets[key]
      ensures Shelf() == old(Shelf())[key := old(buckets[key].View()).(active := old(buckets[key].active) - 1)]
    {
      var bucket := buckets[key];
      bucket.active := bucket.active - 1;
      OneBucketChanged(key);
    }

    method LeaveQueue(key: Key, id: Id)
      requires Owned() && key in buckets
      modifies buckets[key]
      ensures Shelf() == old(Shelf())[key := old(buckets[key].View()).(queue := Without(old(buckets[key].queue), {id}))]
    {
      var bucket := buckets[key];
      bucket.queue := Without(bucket.queue, {id});
      OneBucketChanged(key);
    }

    method Poll(id: Id, now: int) returns (d: Admission.Decision)
      requires Consistent()
      modifies this`requests, Repr()
      ensures Consistent()
      ensures (View(), d) == Admission.Poll(old(View()), id, now)
      ensures d != Admission.Panicked
    {
      ghost var before := View();
      BooksAllowDetach(id);
      Ledger.PollKeepsBooks(before, id, now);
      if stopping {
        Detach(id);
        return Admission.Reject(Admission.Stopping);
      }
      if id !in requests {
        return Admission.Reject(Admission.RequestEnded);
      }
      if !requests[id].Queued? {
        return Admission.Admit;
      }
      var key, deadline := requests[id].key, requests[id].deadline;
      if now >= deadline {
        Detach(id);
        return Admission.Reject(Admission.QueueTimeout);
      }
      Ledger.SlotIsHeld(before, id);
      d := PollBucket(id, key, deadline, now);
    }

    /** The rest of a poll: the request waits on `key` and its deadline lies ahead. */
    method PollBucket(id: Id, key: Key, deadline: int, now: int) returns (d: Admission.Decision)
      requires Owned() && key in buckets && !stopping
      requires id in requests && requests[id] == Admission.Queued(key, deadline) && now < deadline
      modifies this`requests, Repr()
      ensures (View(), d) == Admission.Poll(old(View()), id, now)
    {
      var bucket := buckets[key];
      RefillBucket(key, now);
      if !bucket.policy.enabled {
        Detach(id);
        return Admission.Admit;
      }
      if bucket.IsHead(id) && bucket.IsAvailable() {
        ghost var t := View();
        ghost var shorter := t.buckets[key].(queue := t.buckets[key].queue[1..]);
        LeaveFront(key);
        Occupy(id, key);
        Effects.SetTwice(t, key, shorter, Charge(shorter));
        return Admission.Admit;
      }
      var wake := if bucket.IsHead(id) then bucket.WakeAt(now, deadline) else deadline;
      return Admission.WaitUntil(wake);
    }

    /** Refill every bucket and drop the idle ones that are full. */
    method EvictIdle(now: int)
      requires Owned()
      modifies this`buckets, Repr()
      ensures Owned() && Repr() <= old(Repr())
      ensures View() == old(View()).(buckets := Admission.Evict(old(View()).buckets, now))
    {
      ghost var before := Shelf();
      var remaining := buckets.Keys;
      while remaining != {}
        invariant Owned() && Repr() <= old(Repr())
        invariant Evicting(before, Shelf(), remaining, now)
        decreases remaining
      {
        var k :| k in remaining;
        EvictingOne(before, Shelf(), remaining, now, k);
        RetainOrDrop(k, now);
        remaining := remaining - {k};
      }
      EvictingEnds(before, Shelf(), now);
    }

    method RetainOrDrop(k: Key, now: int)
      requires Owned() && k in buckets
      modifies this`buckets, buckets[k]
      ensures Owned() && Repr() <= old(Repr())
      ensures var b := Refill(old(Shelf())[k], now);
              Shelf() == if Evictable(b) then old(Shelf()) - {k} else old(Shelf())[k := b]
    {
      var bucket := buckets[k];
      RefillBucket(k, now);
      if !bucket.IsKept() {
        Drop(k);
      }
    }

    method Drop(k: Key)
      requires Owned() && k in buckets
      modifies this`buckets
      ensures Owned() && Repr() <= old(Repr()) && Shelf() == old(Shelf()) - {k}
    {
      buckets := buckets - {k};
    }

    method StartAttempt(id: Id, credential: Key, now: int) returns (d: Admission.Decision)
      requires Consistent()
      modifies this`requests, this`buckets, Repr()
      ensures Consistent() && fresh(Repr() - old(Repr()))
      ensures (View(), d) == Admission.Start(old(View()), id, credential, now)
      ensures d != Admission.Panicked
    {
      ghost var before := View();
      Ledger.StartKeepsBooks(before, id, credential, now);
      if stopping {
        return Admission.Reject(Admission.Stopping);
      }
      if id !in requests {
        return Admission.Reject(Admission.RequestEnded);
      }
      if requests[id].Queued? {
        return Admission.Reject(Admission.DuplicateWait);
      }
      BooksAllowDetach(id);
      Ledger.DetachKeepsBooks(before, id);
      Detach(id);
      var policy := config.PolicyFor(credential);
      if !policy.enabled {
        return Admission.Admit;
      }
      d := SeatRequest(id, credential, policy, now);
    }

    /** The rest of an attempt: find or make the bucket, evicting if needed, and offer a slot. */
    method SeatRequest(id: Id, key: Key, policy: Policy, now: int) returns (d: Admission.Decision)
      requires Consistent() && policy == config.PolicyFor(key)
      requires id in requests && requests[id].Idle?
      modifies this`requests, this`buckets, Repr()
      ensures Owned() && fresh(Repr() - old(Repr()))
      ensures (View(), d) == Admission.Seat(old(View()), id, key, now)
    {
      if key !in buckets {
        ghost var before := View();
        Ledger.EvictKeepsBooks(before, now);
        EvictIdle(now);
        ShelfSize();
        if |buckets| >= config.maxCredentials {
          return Admission.Reject(Admission.Capacity);
        }
        Ledger.NewBucketBalances(View(), key, now);
        Ledger.SetBucketKeepsBooks(View(), key, NewBucket(policy, now));
        AddBucket(key, policy, now);
      }
      d := OfferSlot(id, key, now);
    }

    method AddBucket(key: Key, policy: Policy, now: int)
      requires Owned() && key !in buckets
      modifies this`buckets
      ensures Owned() && key in buckets && fresh(buckets[key]) && Repr() <= old(Repr()) + {buckets[key]}
      ensures View() == Admission.SetBucket(old(View()), key, NewBucket(policy, now))
    {
      var bucket := new Bucket(policy, now);
      buckets := buckets[key := bucket];
      assert Shelf() == old(Shelf())[key := NewBucket(policy, now)];
    }

    method OfferSlot(id: Id, key: Key, now: int) returns (d: Admission.Decision)
      requires Consistent() && key in buckets
      requires id in requests && requests[id].Idle?
      modifies this`requests, Repr()
      ensures Owned()
      ensures (View(), d) == Admission.Offer(old(View()), id, key, now)
    {
      var bucket := buckets[key];
      ghost var s, b := View(), Refill(View().buckets[key], now);
      Ledger.RefillKeepsBooks(s, key, now);
      RefillBucket(key, now);
      if bucket.queue == [] && bucket.IsAvailable() {
        Occupy(id, key);
        return Admission.Admit;
      }
      if |bucket.queue| >= bucket.policy.maxQueue {
        return Admission.Reject(Admission.QueueFull);
      }
      var deadline := now + bucket.policy.queueTimeoutMs * NANOS_PER_MILLI;
      d := JoinAndPoll(id, key, deadline, now);
      assert Admission.Joining(s, id, key, now) == Admission.Enqueue(Admission.SetBucket(s, key, b), id, key, deadline);
    }

    method JoinAndPoll(id: Id, key: Key, deadline: int, now: int) returns (d: Admission.Decision)
      requires Consistent() && key in buckets
      requires id in requests && requests[id].Idle?
      modifies this`requests, Repr()
      ensures Owned()
      ensures (View(), d) == Admission.Poll(Admission.Enqueue(old(View()), id, key, deadline), id, now)
    {
      Ledger.EnqueueKeepsBooks(View(), id, key, deadline);
      JoinQueue(id, key, deadline);
      d := Poll(id, now);
    }

    method RefillBucket(key: Key, now: int)
      requires Owned() && key in buckets
      modifies buckets[key]
      ensures View() == Admission.SetBucket(old(View()), key, Refill(old(View()).buckets[key], now))
    {
      buckets[key].RefillTo(now);
      OneBucketChanged(key);
    }

    method LeaveFront(key: Key)
      requires Owned() && key in buckets && buckets[key].queue != []
      modifies buckets[key]
      ensures var b := old(View()).buckets[key];
              View() == Admission.SetBucket(old(View()), key, b.(queue := b.queue[1..]))
    {
      buckets[key].queue := buckets[key].queue[1..];
      OneBucketChanged(key);
    }

    method Occupy(id: Id, key: Key)
      requires Owned() && key in buckets
      modifies this`requests, buckets[key]
      ensures View() == Admission.SetBucket(old(View()), key, Charge(old(View()).buckets[key]))
                          .(requests := old(requests)[id := Admission.Active(key)])
    {
      buckets[key].ChargeOne();
      requests := requests[id := Admission.Active(key)];
      OneBucketChanged(key);
    }

    method JoinQueue(id: Id, key: Key, deadline: int)
      requires Owned() && key in buckets
      modifies this`requests, buckets[key]
      ensures View() == Admission.Enqueue(old(View()), id, key, deadline)
    {
      var bucket := buckets[key];
      bucket.queue := bucket.queue + [id];
      requests := requests[id := Admission.Queued(key, deadline)];
      OneBucketChanged(key);
    }

    method Unlink(id: Id) returns (kids: seq<Id>)
      modifies this`parents, this`children
      ensures kids == if id in old(children) then old(children)[id] else []
      ensures parents == old(parents) - {id}
      ensures children == Admission.Unlink(old(parents), old(children), id)
      ensures Shelf() == old(Shelf())
    {
      kids := [];
      if id in children {
        kids := children[id];
      }
      children := children - {id};
      if id in parents {
        var parent := parents[id];
        if parent in children {
          children := children[parent := Without(children[parent], {id})];
        }
      }
      parents := parents - {id};
      ShelfUntouched();
    }

    /** One iteration of the cancellation loop, after `id` has been popped. */
    method Forget(id: Id) returns (kids: seq<Id>)
      requires CanDetach(id)
      modifies this`requests, this`parents, this`children, Repr()
      ensures kids == Admission.ChildrenOf(old(View()), id)
      ensures View() == Admission.Forget(old(View()), id)
    {
      kids := Unlink(id);
      Detach(id);
      label detached:
      requests := requests - {id};
      ShelfUntouched@detached();
    }

    /** Removes `id` and exactly its live descendants. The loop measure does not depend on the
        invariant: it decreases in every state. */
    method Complete(id: Id)
      requires Valid()
      modifies this`requests, this`parents, this`children, Repr()
      ensures Valid()
      ensures View() == Completion.Prune(old(View()), Completion.Family(old(View()), id))
    {
      Completion.CompleteIsExact(View(), id);
      var pending := [id];
      while pending != []
        invariant Consistent()
        invariant buckets == old(buckets)
        invariant Admission.Cascade(View(), pending) == Admission.Complete(old(View()), id)
        decreases children.Keys, |pending|
      {
        Admission.ForgetShrinks(View(), pending[|pending| - 1]);
        pending := PopOne(pending);
      }
    }

    method PopOne(pending: seq<Id>) returns (rest: seq<Id>)
      requires Consistent() && pending != []
      modifies this`requests, this`parents, this`children, Repr()
      ensures Consistent()
      ensures View() == Admission.Forget(old(View()), pending[|pending| - 1])
      ensures rest == pending[..|pending| - 1] + Admission.ChildrenOf(old(View()), pending[|pending| - 1])
    {
      var next := pending[|pending| - 1];
      Ledger.ForgetKeepsBooks(View(), next);
      BooksAllowDetach(next);
      var kids := Forget(next);
      rest := pending[..|pending| - 1] + kids;
    }

    method Reconfigure(next: Config, now: int) returns (accepted: bool)
      requires Valid()
      modifies this`config, Repr()
      ensures Valid()
      ensures View() == Admission.Reconfigure(old(View()), next, now)
      ensures accepted == Admission.Reconfigurable(old(View()), next)
    {
      Ledger.ReconfigureKeepsBooks(View(), next, now);
      if !next.Valid() || stopping {
        return false;
      }
      RepolicyAll(next, now);
      label repoliced:
      config := next;
      ShelfUntouched@repoliced();
      accepted := true;
    }

    method RepolicyAll(next: Config, now: int)
      requires Owned()
      modifies Repr()
      ensures Shelf() == map k | k in old(Shelf()) :: Admission.Repolicy(old(Shelf())[k], next.PolicyFor(k), now)
    {
      ghost var before := Shelf();
      var remaining := buckets.Keys;
      while remaining != {}
        invariant Repolicying(before, Shelf(), remaining, next, now)
        decreases remaining
      {
        var k :| k in remaining;
        RepolicyingOne(before, Shelf(), remaining, next, now, k);
        RepolicyBucket(k, next.PolicyFor(k), now);
        remaining := remaining - {k};
      }
    }

    method RepolicyBucket(k: Key, policy: Policy, now: int)
      requires Owned() && k in buckets
      modifies buckets[k]
      ensures Shelf() == old(Shelf())[k := Admission.Repolicy(old(Shelf())[k], policy, now)]
    {
      var bucket := buckets[k];
      bucket.RefillTo(now);
      bucket.tokens := Min(bucket.tokens, policy.burst * UNIT);
      bucket.policy := policy;
      OneBucketChanged(k);
    }

    method Stop()
      requires Valid()
      modifies this`stopping
      ensures Valid() && View() == Admission.Stop(old(View()))
    {
      stopping := true;
      ShelfUntouched();
    }

    /** Tracked requests, active slots and waiters, each counted as requests in that phase. */
    method Counts() returns (tracked: nat, active: nat, queued: nat)
      requires Valid()
      ensures tracked == |requests|
      ensures active == |set r | r in requests && requests[r].Active?|
      ensures queued == |set r | r in requests && requests[r].Queued?|
    {
      ghost var s := View();
      var remaining := buckets.Keys;
      tracked, active, queued := |requests|, 0, 0;
      while remaining != {}
        invariant remaining <= buckets.Keys
        invariant active == |Reachability.ActiveOn(s, s.buckets.Keys - remaining)|
        invariant queued == |Reachability.QueuedOn(s, s.buckets.Keys - remaining)|
        decreases remaining
      {
        var k :| k in remaining;
        Reachability.CountOneMore(s, remaining, k);
        active := active + buckets[k].active;
        queued := queued + |buckets[k].queue|;
        remaining := remaining - {k};
      }
      Reachability.AllKeysCounted(s);
      assert s.buckets.Keys - {} == s.buckets.Keys;
    }
  }
}
