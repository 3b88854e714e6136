/** A run from a new engine that leads to the situations of module Reuse. */
module ReuseExample {
  import opened Config
  import opened TokenBucket
  import opened Admission
  import Ledger
  import Limits
  import Reachability
  import opened Effects
  import opened Runtime
  import opened Reuse

  /** One request a second for each credential, and nothing else in the way. */
  const SETTING: Config := Config(true, 10, 10, Policy(true, 60, 1, 0, 5, 300_000), map[], true)

  ghost predicate Reachable(y: System) {
    exists events :: Trace(Origin(SETTING, 0), events) && Reached(Origin(SETTING, 0), events) == y
  }

  lemma {:induction false} ThenReachable(y: System, e: Event)
    requires Reachable(y) && Enabled(y, e)
    ensures Reachable(After(y, e))
  {
    var events :| Trace(Origin(SETTING, 0), events) && Reached(Origin(SETTING, 0), events) == y;
    ThenEvent(Origin(SETTING, 0), events, e);
  }

  lemma {:induction false} ReachableIsInv(y: System)
    requires Reachable(y)
    ensures Inv(y)
  {
    var events :| Trace(Origin(SETTING, 0), events) && Reached(Origin(SETTING, 0), events) == y;
    OriginInv(SETTING, 0);
    TraceKeepsInv(Origin(SETTING, 0), events);
  }

  lemma {:induction false} ReachableIsSound(y: System)
    requires Reachable(y)
    ensures Sound(y.engine, y.clock)
  {
    ReachableIsInv(y);
  }

  // ----- The engine -----

  lemma {:induction false} NotCrowded(s: State, id: Id, k: Key)
    requires s.config == SETTING && |s.buckets| < 10
    ensures !Crowded(s, id, k, 0)
  {
    var left := Evict(Detach(s, id).buckets, 0);
    DetachKeepsKeys(s, id);
    Limits.FewerKeys(left, s.buckets);
  }

  lemma {:induction false} BusyBucketStays(s: State, id: Id, k: Key, other: Key)
    requires s.config == SETTING && !s.stopping && |s.buckets| < 10
    requires id in s.requests && s.requests[id] == Idle
    requires other in s.buckets && s.buckets[other].active != 0
    ensures k in Start(s, id, k, 0).0.buckets && other in Start(s, id, k, 0).0.buckets
  {
    NotCrowded(s, id, k);
    StartKeysExact(s, id, k, 0);
  }

  lemma {:induction false} SizeGrows(s: State, id: Id, k: Key)
    ensures |Start(s, id, k, 0).0.buckets| <= |s.buckets| + 1
  {
    var t := Start(s, id, k, 0).0;
    StartKeys(s, id, k, 0);
    Limits.SubsetSize(t.buckets.Keys, s.buckets.Keys + {k});
    assert |t.buckets| == |t.buckets.Keys| && |s.buckets| == |s.buckets.Keys|;
    assert |s.buckets.Keys + {k}| <= |s.buckets.Keys| + 1;
  }

  /** An attempt on a full bucket takes its only token. */
  lemma {:induction false} FirstIsServed(s: State, id: Id, k: Key, other: Key)
    requires Sound(s, 0) && s.config == SETTING && !s.stopping && |s.buckets| < 10
    requires id in s.requests && s.requests[id] == Idle
    requires At(s, k, 0).queue == [] && At(s, k, 0).tokens == UNIT
    ensures var (t, d) := Start(s, id, k, 0);
            && d == Admit && Sound(t, 0) && t.config == SETTING && !t.stopping
            && t.requests == s.requests[id := Active(k)] && |t.requests| == |s.requests|
            && At(t, k, 0).queue == [] && At(t, k, 0).tokens == 0 && At(t, k, 0).active > 0
            && k in t.buckets
            && (other != k ==> At(t, other, 0) == At(s, other, 0))
  {
    NotCrowded(s, id, k);
    AtIsBalanced(s, k, 0);
    StartEffect(s, id, k, 0, k);
    StartEffect(s, id, k, 0, other);
    StepKeepsSound(s, Attempt(id, k, 0), 0);
    Reachability.StartKeepsLinks(s, id, k, 0);
    SameSize(s.requests, Start(s, id, k, 0).0.requests);
    StartKeys(s, id, k, 0);
  }

  /** The next one waits a second. */
  lemma {:induction false} SecondWaits(s: State, id: Id, k: Key, other: Key)
    requires Sound(s, 0) && s.config == SETTING && !s.stopping && |s.buckets| < 10
    requires id in s.requests && s.requests[id] == Idle
    requires At(s, k, 0).queue == [] && At(s, k, 0).tokens == 0
    ensures var (t, d) := Start(s, id, k, 0);
            && d == WaitUntil(1_000_000_000) && t.config == SETTING && !t.stopping
            && t.requests == s.requests[id := Queued(k, 300_000_000_000)] && |t.requests| == |s.requests|
            && (other != k ==> At(t, other, 0) == At(s, other, 0))
  {
    NotCrowded(s, id, k);
    AtIsBalanced(s, k, 0);
    StartEffect(s, id, k, 0, k);
    StartEffect(s, id, k, 0, other);
    Reachability.StartKeepsLinks(s, id, k, 0);
    SameSize(s.requests, Start(s, id, k, 0).0.requests);
    assert WaitFor(UNIT, 60) == 1_000_000_000;
  }

  lemma {:induction false} SameSize(a: map<Id, Phase>, b: map<Id, Phase>)
    requires a.Keys == b.Keys
    ensures |a| == |b|
  {
    assert |a| == |a.Keys| && |b| == |b.Keys|;
  }

  // ----- The system -----

  /** Thread `u` acquires `k` for `id`, up to its return or its sleep. */
  lemma {:induction false} Acquire(y: System, u: Tid, id: Id, k: Key, other: Tid) returns (z: System)
    requires Reachable(y) && y.clock == 0 && !y.locked && Of(y, u).Free?
    ensures Reachable(z) && z.clock == 0 && !z.locked
    ensures var (t, d) := Start(y.engine, id, k, 0);
            && z.engine == t
            && Of(z, u) == (if d.WaitUntil? then Sleeping(id, k, d.instant, false) else Free)
            && (other != u && Of(y, other).Free? ==> Of(z, other).Free?)
  {
    var y1 := After(y, Enter(u, id, k));
    assert Of(y1, u).Holding?;
    z := After(y1, Resolve(u));
    ThenReachable(y, Enter(u, id, k));
    ThenReachable(y1, Resolve(u));
  }

  predicate IdleAmongThree(s: State, id: Id) {
    |s.requests| <= 3 && id in s.requests && s.requests[id] == Idle
  }

  /** A call to register `id`, while nobody else is active. */
  lemma {:induction false} Registers(y: System, id: Id) returns (z: System)
    requires Reachable(y) && y.clock == 0 && !y.locked && y.threads == map[]
    requires y.engine.config == SETTING && !y.engine.stopping && y.engine.buckets == map[]
    requires |y.engine.requests| < 3 && id !in y.engine.requests
    ensures Reachable(z) && z.clock == 0 && !z.locked && z.threads == map[]
    ensures z.engine.config == SETTING && !z.engine.stopping && z.engine.buckets == map[]
    ensures z.engine.requests == y.engine.requests[id := Idle] && |z.engine.requests| == |y.engine.requests| + 1
  {
    ThenReachable(y, Register(0, id));
    z := After(y, Register(0, id));
  }

  lemma {:induction false} ThreeRequests() returns (y: System)
    ensures Reachable(y) && y.clock == 0 && !y.locked && y.threads == map[]
    ensures y.engine.config == SETTING && !y.engine.stopping && y.engine.buckets == map[]
    ensures IdleAmongThree(y.engine, "a") && IdleAmongThree(y.engine, "c") && IdleAmongThree(y.engine, "id")
  {
    y := Origin(SETTING, 0);
    assert Trace(y, []) && Reached(y, []) == y;
    y := Registers(y, "a");
    y := Registers(y, "c");
    y := Registers(y, "id");
  }

  /** The token of "k1" is gone. */
  lemma {:induction false} OneServed() returns (y: System)
    ensures Reachable(y) && y.clock == 0 && !y.locked && Of(y, 0).Free? && Of(y, 1).Free?
    ensures y.engine.config == SETTING && !y.engine.stopping && |y.engine.buckets| <= 1
    ensures IdleAmongThree(y.engine, "c") && IdleAmongThree(y.engine, "id")
    ensures "k1" in y.engine.buckets && y.engine.buckets["k1"].active != 0
    ensures At(y.engine, "k1", 0).queue == [] && At(y.engine, "k1", 0).tokens == 0
    ensures At(y.engine, "k2", 0).queue == [] && At(y.engine, "k2", 0).tokens == UNIT
  {
    var y0 := ThreeRequests();
    ReachableIsSound(y0);
    FirstIsServed(y0.engine, "a", "k1", "k2");
    SizeGrows(y0.engine, "a", "k1");
    y := Acquire(y0, 0, "a", "k1", 1);
  }

  /** And that of "k2". */
  lemma {:induction false} TwoServed() returns (y: System)
    ensures Reachable(y) && y.clock == 0 && !y.locked && Of(y, 0).Free? && Of(y, 1).Free?
    ensures y.engine.config == SETTING && !y.engine.stopping && |y.engine.buckets| <= 2
    ensures IdleAmongThree(y.engine, "id")
    ensures "k2" in y.engine.buckets && y.engine.buckets["k2"].active != 0
    ensures At(y.engine, "k1", 0).queue == [] && At(y.engine, "k1", 0).tokens == 0
    ensures At(y.engine, "k2", 0).queue == [] && At(y.engine, "k2", 0).tokens == 0
  {
    var y1 := OneServed();
    ReachableIsSound(y1);
    FirstIsServed(y1.engine, "c", "k2", "k1");
    SizeGrows(y1.engine, "c", "k2");
    y := Acquire(y1, 0, "c", "k2", 1);
  }

  lemma {:induction false} OneWaits() returns (y: System)
    ensures Reachable(y) && y.clock == 0 && !y.locked && Of(y, 0).Free?
    ensures Of(y, 1).Sleeping? && Of(y, 1).id == "id" && Of(y, 1).key == "k1"
    ensures !y.engine.stopping && y.engine.config == SETTING && |y.engine.requests| <= 3
    ensures Waiting(y.engine, "id") && LacksAToken(y.engine, "k2", 0)
  {
    var y2 := TwoServed();
    ReachableIsSound(y2);
    ThirdWaits(y2.engine);
    y := Acquire(y2, 1, "id", "k1", 0);
  }

  /** A thread sleeps for "id" on "k1" while "k2" lacks a token: both ways of breaking the
      accounting lie ahead, see `ReuseFallsThrough` and `ReuseChargesAnother`. */
  lemma {:induction false} ReuseCanHappen() returns (y: System)
    ensures Reachable(y) && BeforeReuse(y, 1, 0)
    ensures Of(y, 1).id == "id" && Of(y, 1).key == "k1" && LacksAToken(y.engine, "k2", y.clock)
  {
    y := OneWaits();
    ReachableIsInv(y);
  }

  lemma {:induction false} ThirdWaits(s: State)
    requires Sound(s, 0) && s.config == SETTING && !s.stopping && |s.buckets| < 10
    requires IdleAmongThree(s, "id") && "k2" in s.buckets && s.buckets["k2"].active != 0
    requires At(s, "k1", 0).queue == [] && At(s, "k1", 0).tokens == 0
    requires At(s, "k2", 0).queue == [] && At(s, "k2", 0).tokens == 0
    ensures var (t, d) := Start(s, "id", "k1", 0);
            && d.WaitUntil? && !t.stopping && t.config == SETTING && |t.requests| <= 3
            && Waiting(t, "id") && LacksAToken(t, "k2", 0)
  {
    SecondWaits(s, "id", "k1", "k2");
    BusyBucketStays(s, "id", "k1", "k2");
    Ledger.StartKeepsBooks(s, "id", "k1", 0);
    TokenInASecond(Start(s, "id", "k1", 0).0, "k2");
  }

  lemma {:induction false} TokenInASecond(s: State, k: Key)
    requires Ledger.Books(s) && s.config == SETTING && k in s.buckets
    requires At(s, k, 0).queue == [] && At(s, k, 0).tokens == 0
    ensures LacksAToken(s, k, 0)
  {
    AtIsBalanced(s, k, 0);
    assert WaitFor(UNIT, 60) == 1_000_000_000;
  }
}
