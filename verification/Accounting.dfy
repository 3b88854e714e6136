/** What an acquire that returns Ok has paid for, when identifiers are not registered twice. */
module Accounting {
  import opened Config
  import opened Sequences
  import opened TokenBucket
  import opened Admission
  import Ledger
  import Completion
  import opened Reachability
  import opened Effects
  import Wake
  import opened Runtime

  /** No identifier is accepted again after its request has ended; refusals do not matter. */
  predicate NotReused(y: System, e: Event)
    requires Enabled(y, e)
  {
    (e.Register? || e.RegisterChild?) && e.id in After(y, e).engine.requests && e.id !in y.engine.requests ==> e.id !in y.seen
  }

  function WakeOf(h: Thread): int
    requires Parked(h)
  {
    if h.Sleeping? then h.wake else h.decision.instant
  }

  /** A parked thread waits for a request that has ended or is queued where the thread asked. */
  predicate Placed(y: System, h: Thread)
    requires Parked(h)
  {
    && h.id in y.seen
    && (h.id in y.engine.requests ==>
          var phase := y.engine.requests[h.id];
          phase.Queued? && phase.key == h.key && WakeOf(h) <= phase.deadline)
  }

  /** Two parked threads never share a live request. */
  predicate Distinct(y: System, g: Thread, h: Thread)
    requires Parked(g) && Parked(h)
  {
    g.id == h.id ==> h.id !in y.engine.requests
  }

  ghost predicate Acc(y: System) {
    && y.engine.requests.Keys <= y.seen
    && (forall t :: t in y.threads && Parked(y.threads[t]) ==> Placed(y, y.threads[t]))
    && (forall t, u :: t in y.threads && u in y.threads && t != u && Parked(y.threads[t]) && Parked(y.threads[u]) ==>
          Distinct(y, y.threads[t], y.threads[u]))
  }

  /** Requests known before, other than those in `moved`, are still queued where they were or
      have ended. */
  predicate KeepsQueued(y: System, z: System, moved: set<Id>) {
    forall r :: r in y.seen && r in z.engine.requests && r !in moved ==>
      r in y.engine.requests && (y.engine.requests[r].Queued? ==> z.engine.requests[r] == y.engine.requests[r])
  }

  /** Threads other than `t` are in the same call, notified perhaps. */
  predicate Unmoved(y: System, z: System, t: Tid) {
    forall u :: u in z.threads && u != t ==>
      u in y.threads && (z.threads[u] == y.threads[u] || z.threads[u] == Alerted(y.threads[u]))
  }

  /** The general step: one thread `t` moves, and only requests in `moved` leave their place. */
  lemma {:induction false} StepKeepsAcc(y: System, z: System, t: Tid, moved: set<Id>)
    requires Acc(y) && KeepsQueued(y, z, moved) && Unmoved(y, z, t)
    requires z.engine.requests.Keys <= z.seen && y.seen <= z.seen
    requires forall u :: u in z.threads && u != t && Parked(z.threads[u]) && z.threads[u].id in moved ==>
               z.threads[u].id !in z.engine.requests
    requires t in z.threads && Parked(z.threads[t]) ==> Placed(z, z.threads[t])
    requires t in z.threads && Parked(z.threads[t]) ==>
               forall u :: u in z.threads && u != t && Parked(z.threads[u]) ==> Distinct(z, z.threads[t], z.threads[u])
    ensures Acc(z)
  {
    forall u | u in z.threads && u != t && Parked(z.threads[u])
      ensures Parked(y.threads[u]) && Placed(y, y.threads[u]) && Placed(z, z.threads[u])
    {
      assert Placed(y, y.threads[u]);
    }
    forall u, v | u in z.threads && v in z.threads && u != v && Parked(z.threads[u]) && Parked(z.threads[v])
      ensures Distinct(z, z.threads[u], z.threads[v])
    {
      if u != t && v != t {
        assert Distinct(y, y.threads[u], y.threads[v]);
      }
    }
  }

  lemma {:induction false} EnterKeepsAcc(y: System, t: Tid, id: Id, key: Key)
    requires Inv(y) && Acc(y) && Enabled(y, Enter(t, id, key))
    ensures Acc(After(y, Enter(t, id, key)))
  {
    var z := After(y, Enter(t, id, key));
    StartEffect(y.engine, id, key, y.clock, key);
    StartKeepsLinks(y.engine, id, key, y.clock);
    Wake.AttemptWaitsInTime(y.engine, id, key, y.clock);
    if Parked(z.threads[t]) {
      forall u | u in z.threads && u != t && Parked(z.threads[u]) ensures Distinct(z, z.threads[t], z.threads[u]) {
        assert Placed(y, y.threads[u]);
      }
    }
    StepKeepsAcc(y, z, t, {});
  }

  lemma {:induction false} PollMovesOne(s: State, id: Id, now: int)
    requires Ledger.Books(s)
    ensures var t := Poll(s, id, now).0;
            && t.requests.Keys == s.requests.Keys
            && (forall r :: r in s.requests && r != id ==> t.requests[r] == s.requests[r])
            && (Wake.Waits(Poll(s, id, now).1) ==> t.requests == s.requests)
  {
    PollKeepsLinks(s, id, now);
    PollEffect(s, id, now, "");
    if Wake.Waits(Poll(s, id, now).1) {
      Wake.WakeIsInTime(s, id, now);
      PollEffect(s, id, now, s.requests[id].key);
      assert s.requests[id := s.requests[id]] == s.requests;
    }
  }

  lemma {:induction false} AwakeKeepsAcc(y: System, t: Tid)
    requires Inv(y) && Acc(y) && Enabled(y, Awake(t))
    ensures Acc(After(y, Awake(t)))
  {
    var z, h := After(y, Awake(t)), Of(y, t);
    assert Placed(y, h);
    PollMovesOne(y.engine, h.id, y.clock);
    forall u | u in z.threads && u != t && Parked(z.threads[u]) ensures Distinct(y, h, y.threads[u]) {
    }
    if Parked(z.threads[t]) {
      Wake.WakeIsInTime(y.engine, h.id, y.clock);
    }
    StepKeepsAcc(y, z, t, {h.id});
  }

  lemma {:induction false} ResolveKeepsAcc(y: System, t: Tid)
    requires Inv(y) && Acc(y) && Enabled(y, Resolve(t))
    ensures Acc(After(y, Resolve(t)))
  {
    var z, h := After(y, Resolve(t)), Of(y, t);
    if Parked(h) {
      assert Placed(y, h);
      forall u | u in z.threads && u != t && Parked(z.threads[u]) ensures Distinct(z, z.threads[t], z.threads[u]) {
        assert Distinct(y, h, y.threads[u]);
      }
    }
    StepKeepsAcc(y, z, t, {});
  }

  lemma {:induction false} RegisterKeepsAcc(y: System, e: Event)
    requires Acc(y) && Enabled(y, e) && NotReused(y, e)
    requires e.Register? || e.RegisterChild?
    ensures Acc(After(y, e))
  {
    var z := After(y, e);
    forall u | u in z.threads && Parked(z.threads[u]) ensures Placed(z, z.threads[u]) {
      assert Placed(y, y.threads[u]);
    }
    forall u, v | u in z.threads && v in z.threads && u != v && Parked(z.threads[u]) && Parked(z.threads[v])
      ensures Distinct(z, z.threads[u], z.threads[v])
    {
      assert Placed(y, y.threads[u]) && Distinct(y, y.threads[u], y.threads[v]);
    }
  }

  /** Ending a request, reloading and stopping move nobody who still waits. */
  lemma {:induction false} FinishKeepsAcc(y: System, t: Tid, id: Id)
    requires Inv(y) && Acc(y) && Enabled(y, Finish(t, id))
    ensures Acc(After(y, Finish(t, id)))
  {
    Completion.CompleteIsExact(y.engine, id);
    StepKeepsAcc(y, After(y, Finish(t, id)), t, {});
  }

  lemma {:induction false} OthersKeepAcc(y: System, e: Event, t: Tid)
    requires Inv(y) && Acc(y) && Enabled(y, e)
    requires e.Configure? || e.Halt? || e.Notify?
    requires e.t == t
    ensures Acc(After(y, e))
  {
    StepKeepsAcc(y, After(y, e), t, {});
  }

  lemma {:induction false} EventKeepsAcc(y: System, e: Event)
    requires Inv(y) && Acc(y) && Enabled(y, e) && NotReused(y, e)
    ensures Acc(After(y, e))
  {
    match e {
      case Tick(_) => StepKeepsAcc(y, After(y, e), 0, {});
      case Register(_, _) => RegisterKeepsAcc(y, e);
      case RegisterChild(_, _, _) => RegisterKeepsAcc(y, e);
      case Enter(t, id, key) => EnterKeepsAcc(y, t, id, key);
      case Resolve(t) => ResolveKeepsAcc(y, t);
      case Awake(t) => AwakeKeepsAcc(y, t);
      case Finish(t, id) => FinishKeepsAcc(y, t, id);
      case Configure(t, _) => OthersKeepAcc(y, e, t);
      case Halt(t) => OthersKeepAcc(y, e, t);
      case Notify(t) => OthersKeepAcc(y, e, t);
    }
  }

  ghost predicate NeverReused(y: System, events: seq<Event>)
    requires Trace(y, events)
    decreases |events|
  {
    events == [] || (NotReused(y, events[0]) && NeverReused(After(y, events[0]), events[1..]))
  }

  lemma {:induction false} TraceKeepsAcc(y: System, events: seq<Event>)
    requires Inv(y) && Acc(y) && Trace(y, events) && NeverReused(y, events)
    ensures Acc(Reached(y, events))
    decreases |events|
  {
    if events != [] {
      EventKeepsAcc(y, events[0]);
      StepKeepsInv(y, events[0]);
      TraceKeepsAcc(After(y, events[0]), events[1..]);
    }
  }

  // ----- Admissions -----

  /** The step in which the thread of `e` learns that it is admitted. */
  ghost predicate Admits(y: System, e: Event) {
    && Enabled(y, e)
    && (e.Enter? || e.Awake?)
    && Of(After(y, e), e.t).decision == Admit
  }

  /** From `s` to `t`, which differ in nothing else, `id` took a slot and a token of `key` and left
      the queue: whatever it held before had been given back. */
  ghost predicate Paid(s: State, t: State, id: Id, key: Key, now: int) {
    && id in s.requests && !s.requests[id].Active?
    && t.requests == s.requests[id := Active(key)]
    && At(t, key, now).active == At(s, key, now).active + 1
    && At(t, key, now).tokens == At(s, key, now).tokens - (if s.config.PolicyFor(key).requestsPerMinute != 0 then UNIT else 0)
    && At(t, key, now).queue == Without(At(s, key, now).queue, {id})
    && forall k :: k != key ==> At(t, k, now) == At(s, k, now)
  }

  /** From `s` to `t`, which differ in nothing else, `id` left every queue and holds nothing. */
  ghost predicate Freed(s: State, t: State, id: Id, now: int) {
    && t.requests == s.requests[id := Idle]
    && forall k :: At(t, k, now) == At(s, k, now).(queue := Without(At(s, k, now).queue, {id}))
  }

  /** What an Ok of an acquire for `key` must stand for. */
  ghost predicate Accounted(s: State, t: State, id: Id, key: Key, now: int) {
    if s.config.PolicyFor(key).enabled then Paid(s, t, id, key, now) else Freed(s, t, id, now)
  }

  lemma {:induction false} NotInLine(s: State, id: Id, k: Key, now: int)
    requires Ledger.Books(s) && !Ledger.Waits(s.requests, id, k)
    ensures id !in At(s, k, now).queue
    ensures At(s, k, now).(queue := Without(At(s, k, now).queue, {id})) == At(s, k, now)
  {
    AtIsBalanced(s, k, now);
    WithoutDisjoint(At(s, k, now).queue, {id});
  }

  lemma {:induction false} AttemptIsPaid(s: State, id: Id, key: Key, now: int)
    requires Sound(s, now) && Proceeds(s, id) && s.config.PolicyFor(key).enabled && Start(s, id, key, now).1 == Admit
    ensures Paid(Detach(s, id), Start(s, id, key, now).0, id, key, now)
  {
    var released, t := Detach(s, id), Start(s, id, key, now).0;
    StartEffect(s, id, key, now, key);
    DetachEffect(s, id, key, now);
    PhaseOverwrites(s.requests, id, Idle, Active(key));
    forall k | k != key ensures At(t, k, now) == At(released, k, now) {
      StartEffect(s, id, key, now, k);
      DetachEffect(s, id, k, now);
    }
  }

  lemma {:induction false} AttemptIsFreed(s: State, id: Id, key: Key, now: int)
    requires Sound(s, now) && Proceeds(s, id) && !s.config.PolicyFor(key).enabled
    ensures Start(s, id, key, now).0 == Detach(s, id) && Freed(Detach(s, id), Detach(s, id), id, now)
  {
    var released := Detach(s, id);
    Ledger.DetachKeepsBooks(s, id);
    PhaseOverwrites(s.requests, id, Idle, Idle);
    forall k ensures At(released, k, now) == At(released, k, now).(queue := Without(At(released, k, now).queue, {id})) {
      NotInLine(released, id, k, now);
    }
  }

  /** A queued request that is admitted is charged on the credential it is queued on, or let go. */
  lemma {:induction false} WaiterIsAccounted(s: State, id: Id, now: int)
    requires Sound(s, now) && Waiting(s, id) && Poll(s, id, now).1 == Admit
    ensures Accounted(s, Poll(s, id, now).0, id, s.requests[id].key, now)
  {
    var t, key := Poll(s, id, now).0, s.requests[id].key;
    PollEffect(s, id, now, key);
    AtIsBalanced(s, key, now);
    WaiterLeavesTheLine(At(s, key, now), id, key, s.requests[id].deadline, now);
    forall k | k != key ensures At(t, k, now) == At(s, k, now) && At(s, k, now).queue == Without(At(s, k, now).queue, {id}) {
      PollEffect(s, id, now, k);
      NotInLine(s, id, k, now);
    }
  }

  lemma {:induction false} WaiterLeavesTheLine(b: BucketState, id: Id, key: Key, deadline: int, now: int)
    requires NoDuplicates(b.queue) && Polled(b, id, key, deadline, now).2 == Admit
    ensures var (c, phase, _) := Polled(b, id, key, deadline, now);
            && c.queue == Without(b.queue, {id})
            && phase == (if b.policy.enabled then Active(key) else Idle)
            && (b.policy.enabled ==> c == Charge(b.(queue := c.queue)))
            && (!b.policy.enabled ==> c == b.(queue := c.queue))
  {
    if b.queue != [] {
      WithoutHead(b.queue);
    }
  }

  /** Ok from `Awake` changes the engine, and the request was waiting where its thread asked. */
  predicate WasWaiting(y: System, h: Thread)
    requires h.Sleeping?
  {
    h.id in y.engine.requests && y.engine.requests[h.id].Queued? && y.engine.requests[h.id].key == h.key
  }

  /** In every reachable interleaving that reuses no identifier, an admission was not made after
      stop, and it either took exactly one slot and one token of its credential, having given
      back whatever the request held, or saw the policy disabled and holds nothing. A thread that
      was woken up is admitted from the queue it waits in, never past it. */
  lemma {:induction false} AdmissionIsAccounted(config: Config, clock: int, events: seq<Event>, e: Event)
    requires config.Valid()
    requires Trace(Origin(config, clock), events) && NeverReused(Origin(config, clock), events)
    requires Admits(Reached(Origin(config, clock), events), e)
    ensures var y := Reached(Origin(config, clock), events);
            var s, t, h := y.engine, After(y, e).engine, Of(After(y, e), e.t);
            && !s.stopping
            && (e.Enter? ==> Accounted(Detach(s, h.id), t, h.id, h.key, y.clock))
            && (e.Awake? ==> Accounted(s, t, h.id, h.key, y.clock) && WasWaiting(y, Of(y, e.t)) && t != s)
  {
    OriginInv(config, clock);
    TraceKeepsInv(Origin(config, clock), events);
    TraceKeepsAcc(Origin(config, clock), events);
    var y := Reached(Origin(config, clock), events);
    if e.Enter? {
      EnterIsAccounted(y, e.t, e.id, e.key);
    } else {
      AwakeIsAccounted(y, e.t);
    }
  }

  lemma {:induction false} EnterIsAccounted(y: System, t: Tid, id: Id, key: Key)
    requires Inv(y) && Admits(y, Enter(t, id, key))
    ensures !y.engine.stopping
    ensures Accounted(Detach(y.engine, id), After(y, Enter(t, id, key)).engine, id, key, y.clock)
  {
    DetachKeepsLinks(y.engine, id);
    if y.engine.config.PolicyFor(key).enabled {
      AttemptIsPaid(y.engine, id, key, y.clock);
    } else {
      AttemptIsFreed(y.engine, id, key, y.clock);
    }
  }

  lemma {:induction false} AwakeIsAccounted(y: System, t: Tid)
    requires Inv(y) && Acc(y) && Admits(y, Awake(t))
    ensures !y.engine.stopping && WasWaiting(y, Of(y, t)) && After(y, Awake(t)).engine != y.engine
    ensures Accounted(y.engine, After(y, Awake(t)).engine, Of(y, t).id, Of(y, t).key, y.clock)
  {
    assert Placed(y, Of(y, t));
    WaiterIsAccounted(y.engine, Of(y, t).id, y.clock);
  }

  lemma {:induction false} StopIsFinal(y: System, e: Event)
    requires Inv(y) && Enabled(y, e) && y.engine.stopping
    ensures After(y, e).engine.stopping && !Admits(y, e)
  {
    match e {
      case Enter(t, id, key) => StartKeepsLinks(y.engine, id, key, y.clock);
      case Awake(t) => PollKeepsLinks(y.engine, Of(y, t).id, y.clock);
      case Finish(_, id) => Completion.CompleteIsExact(y.engine, id);
      case _ =>
    }
  }

  /** Once stopped, always stopped: whatever happens later, nothing is admitted any more. */
  lemma {:induction false} NothingAfterStop(y: System, events: seq<Event>, e: Event)
    requires Inv(y) && y.engine.stopping && Trace(y, events)
    ensures Reached(y, events).engine.stopping && !Admits(Reached(y, events), e)
    decreases |events|
  {
    if events == [] {
      if Enabled(y, e) {
        StopIsFinal(y, e);
      }
    } else {
      StopIsFinal(y, events[0]);
      StepKeepsInv(y, events[0]);
      NothingAfterStop(After(y, events[0]), events[1..], e);
    }
  }

  /** A sleeper's timeout is never later than its request's deadline, and one that wakes at or
      after the deadline, or after its request has ended, does not go back to sleep. */
  lemma {:induction false} SleepIsBounded(y: System, t: Tid)
    requires Inv(y) && Acc(y) && Enabled(y, Awake(t))
    ensures var h := Of(y, t);
            var d := Of(After(y, Awake(t)), t).decision;
            if h.id in y.engine.requests then
              var deadline := y.engine.requests[h.id].deadline;
              h.wake <= deadline && (deadline <= y.clock ==> d.Reject?)
            else d.Reject?
  {
    var h := Of(y, t);
    assert Placed(y, h);
    if h.id in y.engine.requests && y.engine.requests[h.id].deadline <= y.clock {
      Wake.DeadlineEndsTheWait(y.engine, h.id, y.clock);
    }
  }
}
