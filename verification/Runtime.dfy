/** The blocking wrapper as interleaved steps of threads that share the engine, one lock and one
    condition variable. Wakeups may be spurious; notifications mark whoever sleeps. */
module Runtime {
  import opened Config
  import opened Admission
  import Ledger
  import opened Reachability
  import opened Effects
  import Wake

  type Tid = nat

  /** Where a thread is inside a call. */
  datatype Thread =
    | Free                                                            // outside
    | Holding(id: Id, key: Key, decision: Decision, starting: bool)   // in acquire, with the lock
    | Sleeping(id: Id, key: Key, wake: int, notified: bool)           // in acquire, waiting
    | Owing                                                           // changed the engine, must still notify

  /** `seen` is history: every request identifier whose registration was accepted so far. */
  datatype System = System(engine: State, clock: int, locked: bool, threads: map<Tid, Thread>, seen: set<Id>)

  datatype Event =
    | Tick(to: int)
    | Register(t: Tid, id: Id)
    | RegisterChild(t: Tid, id: Id, parent: Id)
    | Enter(t: Tid, id: Id, key: Key)
    | Resolve(t: Tid)
    | Awake(t: Tid)
    | Finish(t: Tid, id: Id)
    | Configure(t: Tid, config: Config)
    | Halt(t: Tid)
    | Notify(t: Tid)

  function Of(y: System, t: Tid): Thread {
    if t in y.threads then y.threads[t] else Free
  }

  /** A thread inside acquire that has been told to wait. */
  predicate Parked(h: Thread) {
    h.Sleeping? || (h.Holding? && h.decision.WaitUntil?)
  }

  /** The thread has still to call notify_all. */
  predicate Owes(h: Thread) {
    h.Owing? || (h.Holding? && (h.starting || !h.decision.WaitUntil?))
  }

  ghost predicate Owed(y: System) {
    exists t :: t in y.threads && Owes(y.threads[t])
  }

  predicate Enabled(y: System, e: Event) {
    match e
    case Tick(to) => y.clock <= to
    case Resolve(t) => Of(y, t).Holding?
    case Awake(t) => !y.locked && Of(y, t).Sleeping?
    case Notify(t) => Of(y, t).Owing?
    case _ => !y.locked && Of(y, e.t).Free?
  }

  function Put(y: System, t: Tid, h: Thread): System {
    y.(threads := y.threads[t := h])
  }

  function NotifyAll(y: System): System {
    y.(threads := map t | t in y.threads :: Alerted(y.threads[t]))
  }

  function Alerted(h: Thread): Thread {
    if h.Sleeping? then h.(notified := true) else h
  }

  /** A refused registration leaves no trace in the history either. */
  function Recorded(seen: set<Id>, id: Id, result: Registered): set<Id> {
    if result.Accepted? then seen + {id} else seen
  }

  function After(y: System, e: Event): System
    requires Enabled(y, e)
  {
    match e
    case Tick(to) => y.(clock := to)
    case Register(t, id) =>
      var (engine, result) := Begin(y.engine, id);
      y.(engine := engine, seen := Recorded(y.seen, id, result))
    case RegisterChild(t, id, parent) =>
      var (engine, result) := BeginChild(y.engine, id, parent);
      y.(engine := engine, seen := Recorded(y.seen, id, result))
    case Enter(t, id, key) =>
      var (engine, decision) := Start(y.engine, id, key, y.clock);
      Put(y, t, Holding(id, key, decision, true)).(engine := engine, locked := true)
    case Resolve(t) =>
      var h := Of(y, t);
      var z := if Owes(h) then NotifyAll(y) else y;
      Put(z, t, if h.decision.WaitUntil? then Sleeping(h.id, h.key, h.decision.instant, false) else Free)
        .(locked := false)
    case Awake(t) =>
      var h := Of(y, t);
      var (engine, decision) := Poll(y.engine, h.id, y.clock);
      Put(y, t, Holding(h.id, h.key, decision, false)).(engine := engine, locked := true)
    case Finish(t, id) => Put(y, t, Owing).(engine := Complete(y.engine, id))
    case Configure(t, config) =>
      if Reconfigurable(y.engine, config) then
        Put(y, t, Owing).(engine := Reconfigure(y.engine, config, y.clock))
      else y
    case Halt(t) => Put(y, t, Owing).(engine := Stop(y.engine))
    case Notify(t) => Put(NotifyAll(y), t, Free)
  }

  function Origin(config: Config, clock: int): System {
    System(Initial(config), clock, false, map[], {})
  }

  // ----- No lost wakeup -----

  /** From `clock` up to `wake` a poll by `id` would only say wait. */
  ghost predicate Quiet(s: State, id: Id, clock: int, wake: int) {
    forall now :: clock <= now < wake ==> Wake.Waits(Poll(s, id, now).1)
  }

  ghost predicate Attended(y: System, h: Thread) {
    match h
    case Holding(id, _, WaitUntil(w), _) => Quiet(y.engine, id, y.clock, w)
    case Sleeping(id, _, w, notified) => notified || Owed(y) || Quiet(y.engine, id, y.clock, w)
    case _ => true
  }

  ghost predicate Inv(y: System) {
    && Sound(y.engine, y.clock)
    && (forall t, u :: t in y.threads && u in y.threads && y.threads[t].Holding? && y.threads[u].Holding? ==> t == u)
    && (forall t :: t in y.threads && y.threads[t].Holding? ==> y.locked)
    && (forall t :: t in y.threads ==> Attended(y, y.threads[t]))
  }

  lemma {:induction false} OriginInv(config: Config, clock: int)
    requires config.Valid()
    ensures Inv(Origin(config, clock))
  {
    Ledger.InitialIsValid(config);
  }

  /** Two engines that give every waiter the same view give every poll the same answer. */
  lemma {:induction false} SamePolls(s: State, t: State, id: Id, now: int, later: int)
    requires Sound(s, now) && Sound(t, now) && now <= later
    requires Waiting(s, id) && id in t.requests && t.requests[id] == s.requests[id]
    requires t.stopping == s.stopping
    requires At(s, s.requests[id].key, now) == At(t, s.requests[id].key, now)
    ensures Poll(t, id, later).1 == Poll(s, id, later).1
  {
    var k := s.requests[id].key;
    AtLater(s, k, now, later);
    AtLater(t, k, now, later);
    PollEffect(s, id, later, k);
    PollEffect(t, id, later, k);
  }

  lemma {:induction false} WaiterIsQueued(s: State, id: Id, now: int)
    requires Ledger.Books(s) && Wake.Waits(Poll(s, id, now).1)
    ensures Waiting(s, id) && !s.stopping
  {
    Wake.WakeIsInTime(s, id, now);
  }

  /** A poll that only says wait leaves every other waiter as it was. */
  lemma {:induction false} WaitingPollIsQuiet(s: State, poller: Id, now: int, id: Id, wake: int)
    requires Sound(s, now) && Wake.Waits(Poll(s, poller, now).1)
    requires Quiet(s, id, now, wake)
    ensures Quiet(Poll(s, poller, now).0, id, now, wake)
  {
    var t := Poll(s, poller, now).0;
    PollKeepsSound(s, poller, now);
    forall later | now <= later < wake ensures Wake.Waits(Poll(t, id, later).1) {
      assert Wake.Waits(Poll(s, id, later).1);
      WaiterIsQueued(s, id, later);
      WaitingPollKeepsWaiter(s, poller, now, id);
      SamePolls(s, t, id, now, later);
    }
  }

  lemma {:induction false} WaitingPollKeepsWaiter(s: State, poller: Id, now: int, id: Id)
    requires Sound(s, now) && Wake.Waits(Poll(s, poller, now).1) && Waiting(s, id)
    ensures var t, k := Poll(s, poller, now).0, s.requests[id].key;
            id in t.requests && t.requests[id] == s.requests[id] && t.stopping == s.stopping && At(t, k, now) == At(s, k, now)
  {
    PollKeepsLinks(s, poller, now);
    PollEffect(s, poller, now, s.requests[id].key);
  }

  lemma {:induction false} RegistrationIsQuiet(s: State, t: State, now: int, id: Id, wake: int)
    requires Sound(s, now) && Sound(t, now) && Extends(s, t) && Quiet(s, id, now, wake)
    ensures Quiet(t, id, now, wake)
  {
    forall later | now <= later < wake ensures Wake.Waits(Poll(t, id, later).1) {
      assert Wake.Waits(Poll(s, id, later).1);
      WaiterIsQueued(s, id, later);
      SamePolls(s, t, id, now, later);
    }
  }

  /** A request just told to wait is quiet until the instant it was told. */
  lemma {:induction false} ToldIsQuiet(s: State, id: Id, now: int)
    requires Sound(s, now) && Wake.Waits(Poll(s, id, now).1)
    ensures Quiet(s, id, now, Poll(s, id, now).1.instant)
  {
    forall later | now <= later < Poll(s, id, now).1.instant ensures Wake.Waits(Poll(s, id, later).1) {
      Wake.WakeIsStable(s, id, now, later);
    }
  }

  lemma {:induction false} EnterIsQuiet(s: State, id: Id, key: Key, now: int)
    requires Sound(s, now) && Wake.Waits(Start(s, id, key, now).1)
    ensures Quiet(Start(s, id, key, now).0, id, now, Start(s, id, key, now).1.instant)
  {
    Wake.AttemptWaitsAgain(s, id, key, now);
    StepKeepsSound(s, Attempt(id, key, now), now);
    ToldIsQuiet(Start(s, id, key, now).0, id, now);
  }

  lemma {:induction false} AwakeIsQuiet(s: State, id: Id, now: int)
    requires Sound(s, now) && Wake.Waits(Poll(s, id, now).1)
    ensures Quiet(Poll(s, id, now).0, id, now, Poll(s, id, now).1.instant)
  {
    ToldIsQuiet(s, id, now);
    WaitingPollIsQuiet(s, id, now, id, Poll(s, id, now).1.instant);
  }

  // ----- Every step keeps the invariant -----

  lemma {:induction false} TickKeepsInv(y: System, to: int)
    requires Inv(y) && y.clock <= to
    ensures Inv(After(y, Tick(to)))
  {
    var z := After(y, Tick(to));
    LaterClock(y.engine, y.clock, to);
    assert Owed(y) ==> Owed(z);
    forall t | t in z.threads ensures Attended(z, z.threads[t]) {
      assert Attended(y, y.threads[t]);
    }
  }

  /** A step that takes the free lock and leaves its own thread owing attends to everybody. */
  lemma {:induction false} OwingKeepsInv(y: System, z: System, t: Tid)
    requires Inv(y) && !y.locked && Sound(z.engine, z.clock)
    requires t in z.threads && z.threads == y.threads[t := z.threads[t]] && Owes(z.threads[t])
    requires z.threads[t].Holding? ==> z.locked && Attended(z, z.threads[t])
    ensures Inv(z)
  {
    assert Owed(z);
    forall u | u in z.threads && u != t ensures Attended(z, z.threads[u]) {
      assert z.threads[u] == y.threads[u];
    }
  }

  lemma {:induction false} FinishKeepsInv(y: System, t: Tid, id: Id)
    requires Inv(y) && Enabled(y, Finish(t, id))
    ensures Inv(After(y, Finish(t, id)))
  {
    StepKeepsSound(y.engine, Completion(id), y.clock);
    OwingKeepsInv(y, After(y, Finish(t, id)), t);
  }

  lemma {:induction false} ConfigureKeepsInv(y: System, t: Tid, config: Config)
    requires Inv(y) && Enabled(y, Configure(t, config))
    ensures Inv(After(y, Configure(t, config)))
  {
    if Reconfigurable(y.engine, config) {
      ReconfigureKeepsSound(y.engine, config, y.clock);
      OwingKeepsInv(y, After(y, Configure(t, config)), t);
    }
  }

  lemma {:induction false} HaltKeepsInv(y: System, t: Tid)
    requires Inv(y) && Enabled(y, Halt(t))
    ensures Inv(After(y, Halt(t)))
  {
    StepKeepsSound(y.engine, Quiesce, y.clock);
    OwingKeepsInv(y, After(y, Halt(t)), t);
  }

  lemma {:induction false} EnterKeepsInv(y: System, t: Tid, id: Id, key: Key)
    requires Inv(y) && Enabled(y, Enter(t, id, key))
    ensures Inv(After(y, Enter(t, id, key)))
  {
    StepKeepsSound(y.engine, Attempt(id, key, y.clock), y.clock);
    if Wake.Waits(Start(y.engine, id, key, y.clock).1) {
      EnterIsQuiet(y.engine, id, key, y.clock);
    }
    OwingKeepsInv(y, After(y, Enter(t, id, key)), t);
  }

  lemma {:induction false} AwakeKeepsInv(y: System, t: Tid)
    requires Inv(y) && Enabled(y, Awake(t))
    ensures Inv(After(y, Awake(t)))
  {
    PollKeepsSound(y.engine, Of(y, t).id, y.clock);
    if Wake.Waits(Poll(y.engine, Of(y, t).id, y.clock).1) {
      AwakeIsQuiet(y.engine, Of(y, t).id, y.clock);
      AwakeDisturbsNobody(y, t);
    } else {
      OwingKeepsInv(y, After(y, Awake(t)), t);
    }
  }

  lemma {:induction false} AwakeDisturbsNobody(y: System, t: Tid)
    requires Inv(y) && Enabled(y, Awake(t)) && Wake.Waits(Poll(y.engine, Of(y, t).id, y.clock).1)
    ensures var z := After(y, Awake(t)); forall u :: u in z.threads && u != t ==> Attended(z, z.threads[u])
  {
    var z, h := After(y, Awake(t)), Of(y, t);
    if Owed(y) {
      var u :| u in y.threads && Owes(y.threads[u]);
      assert u in z.threads && Owes(z.threads[u]);
    }
    forall u | u in z.threads && u != t ensures Attended(z, z.threads[u]) {
      assert Attended(y, y.threads[u]);
      if z.threads[u].Sleeping? && Quiet(y.engine, z.threads[u].id, y.clock, z.threads[u].wake) {
        WaitingPollIsQuiet(y.engine, h.id, y.clock, z.threads[u].id, z.threads[u].wake);
      }
    }
  }

  lemma {:induction false} ResolveKeepsInv(y: System, t: Tid)
    requires Inv(y) && Enabled(y, Resolve(t))
    ensures Inv(After(y, Resolve(t)))
  {
    var z, h := After(y, Resolve(t)), Of(y, t);
    assert Attended(y, h);
    forall u | u in z.threads && u != t ensures Attended(z, z.threads[u]) {
      assert Attended(y, y.threads[u]);
      assert !y.threads[u].Holding?;
      if !Owes(h) && Owed(y) {
        var v :| v in y.threads && Owes(y.threads[v]);
        assert v in z.threads && Owes(z.threads[v]);
      }
    }
  }

  lemma {:induction false} NotifyKeepsInv(y: System, t: Tid)
    requires Inv(y) && Enabled(y, Notify(t))
    ensures Inv(After(y, Notify(t)))
  {
    var z := After(y, Notify(t));
    forall u | u in z.threads && u != t ensures Attended(z, z.threads[u]) {
      assert Attended(y, y.threads[u]);
    }
  }

  /** `t` is `s` with requests added. */
  predicate Extends(s: State, t: State) {
    && t.buckets == s.buckets && t.config == s.config && t.stopping == s.stopping
    && forall r :: r in s.requests ==> r in t.requests && t.requests[r] == s.requests[r]
  }

  lemma {:induction false} BeginExtends(s: State, id: Id)
    ensures Extends(s, Begin(s, id).0)
  {
  }

  lemma {:induction false} BeginChildExtends(s: State, id: Id, parent: Id)
    ensures Extends(s, BeginChild(s, id, parent).0)
  {
  }

  /** A step that only adds requests leaves every thread attended to. */
  lemma {:induction false} AddingKeepsInv(y: System, engine: State, seen: set<Id>)
    requires Inv(y) && !y.locked && Sound(engine, y.clock) && Extends(y.engine, engine)
    ensures Inv(y.(engine := engine, seen := seen))
  {
    var z := y.(engine := engine, seen := seen);
    assert Owed(y) ==> Owed(z);
    forall u | u in z.threads ensures Attended(z, z.threads[u]) {
      assert Attended(y, y.threads[u]);
      if z.threads[u].Sleeping? && Quiet(y.engine, z.threads[u].id, y.clock, z.threads[u].wake) {
        RegistrationIsQuiet(y.engine, z.engine, y.clock, z.threads[u].id, z.threads[u].wake);
      }
    }
  }

  lemma {:induction false} RegisterKeepsInv(y: System, t: Tid, id: Id)
    requires Inv(y) && Enabled(y, Register(t, id))
    ensures Inv(After(y, Register(t, id)))
  {
    BeginKeepsSound(y.engine, id, y.clock);
    BeginExtends(y.engine, id);
    AddingKeepsInv(y, Begin(y.engine, id).0, Recorded(y.seen, id, Begin(y.engine, id).1));
  }

  lemma {:induction false} RegisterChildKeepsInv(y: System, t: Tid, id: Id, parent: Id)
    requires Inv(y) && Enabled(y, RegisterChild(t, id, parent))
    ensures Inv(After(y, RegisterChild(t, id, parent)))
  {
    BeginChildKeepsSound(y.engine, id, parent, y.clock);
    BeginChildExtends(y.engine, id, parent);
    AddingKeepsInv(y, BeginChild(y.engine, id, parent).0, Recorded(y.seen, id, BeginChild(y.engine, id, parent).1));
  }

  lemma {:induction false} StepKeepsInv(y: System, e: Event)
    requires Inv(y) && Enabled(y, e)
    ensures Inv(After(y, e))
  {
    match e {
      case Tick(to) => TickKeepsInv(y, to);
      case Register(t, id) => RegisterKeepsInv(y, t, id);
      case RegisterChild(t, id, parent) => RegisterChildKeepsInv(y, t, id, parent);
      case Enter(t, id, key) => EnterKeepsInv(y, t, id, key);
      case Resolve(t) => ResolveKeepsInv(y, t);
      case Awake(t) => AwakeKeepsInv(y, t);
      case Finish(t, id) => FinishKeepsInv(y, t, id);
      case Configure(t, config) => ConfigureKeepsInv(y, t, config);
      case Halt(t) => HaltKeepsInv(y, t);
      case Notify(t) => NotifyKeepsInv(y, t);
    }
  }

  /** The events can happen one after the other, from `y`. */
  ghost predicate Trace(y: System, events: seq<Event>)
    decreases |events|
  {
    events == [] || (Enabled(y, events[0]) && Trace(After(y, events[0]), events[1..]))
  }

  ghost function Reached(y: System, events: seq<Event>): System
    requires Trace(y, events)
    decreases |events|
  {
    if events == [] then y else Reached(After(y, events[0]), events[1..])
  }

  /** One more event at the end of a trace. */
  lemma {:induction false} ThenEvent(y: System, events: seq<Event>, e: Event)
    requires Trace(y, events) && Enabled(Reached(y, events), e)
    ensures Trace(y, events + [e]) && Reached(y, events + [e]) == After(Reached(y, events), e)
    decreases |events|
  {
    if events == [] {
      assert [] + [e] == [e] && [e][1..] == [];
      assert Trace(After(y, e), []);
    } else {
      ThenEvent(After(y, events[0]), events[1..], e);
      assert (events + [e])[1..] == events[1..] + [e];
    }
  }

  lemma {:induction false} TraceKeepsInv(y: System, events: seq<Event>)
    requires Inv(y) && Trace(y, events)
    ensures Inv(Reached(y, events))
    decreases |events|
  {
    if events != [] {
      StepKeepsInv(y, events[0]);
      TraceKeepsInv(After(y, events[0]), events[1..]);
    }
  }

  /** In every reachable interleaving, a sleeper whose poll would no longer say wait is due by
      its own timeout, has been notified, or is about to be notified by somebody. */
  lemma {:induction false} NoLostWakeup(config: Config, clock: int, events: seq<Event>, t: Tid)
    requires config.Valid() && Trace(Origin(config, clock), events)
    requires Of(Reached(Origin(config, clock), events), t).Sleeping?
    ensures var y := Reached(Origin(config, clock), events);
            var h := Of(y, t);
            !Wake.Waits(Poll(y.engine, h.id, y.clock).1) ==> h.wake <= y.clock || h.notified || Owed(y)
  {
    OriginInv(config, clock);
    TraceKeepsInv(Origin(config, clock), events);
    var y := Reached(Origin(config, clock), events);
    assert Attended(y, y.threads[t]);
  }
}
