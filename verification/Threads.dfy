/** Threads that share an engine behind a lock do what a single caller could have done. */
module Threads {
  import opened Config
  import opened TokenBucket
  import opened Admission
  import opened Runtime
  import opened Rate

  datatype Call = Nothing | Performs(op: Op)

  /** The engine operation that a step performs, at the time on the clock. */
  function CallOf(y: System, e: Event): Call
    requires Enabled(y, e)
  {
    match e
    case Register(_, id) => Performs(Registration(id))
    case RegisterChild(_, id, parent) => Performs(Nested(id, parent))
    case Enter(_, id, key) => Performs(Attempt(id, key, y.clock))
    case Awake(t) => Performs(Recheck(Of(y, t).id, y.clock))
    case Finish(_, id) => Performs(Completion(id))
    case Configure(_, config) => Performs(Reload(config, y.clock))
    case Halt(_) => Performs(Quiesce)
    case _ => Nothing
  }

  /** A step is that operation on the engine; the thread of an acquire has its decision; a thread
      that goes to sleep does so until the instant it was told, and only a tick moves the clock. */
  lemma {:induction false} StepIsACall(y: System, e: Event)
    requires Enabled(y, e)
    ensures var z, call := After(y, e), CallOf(y, e);
            && z.engine == (if call.Nothing? then y.engine else Step(y.engine, call.op).0)
            && z.clock == (if e.Tick? then e.to else y.clock)
            && (e.Enter? ==> Of(z, e.t) == Holding(e.id, e.key, Step(y.engine, call.op).1.decision, true))
            && (e.Awake? ==> Of(z, e.t) == Holding(Of(y, e.t).id, Of(y, e.t).key, Step(y.engine, call.op).1.decision, false))
            && (e.Resolve? ==> Of(z, e.t) == match Of(y, e.t).decision
                                             case WaitUntil(instant) => Sleeping(Of(y, e.t).id, Of(y, e.t).key, instant, false)
                                             case _ => Free)
            && (e.Finish? || e.Halt? ==> Of(z, e.t) == Owing)
            && (e.Configure? ==> Of(z, e.t) == if Step(y.engine, call.op).1 == Reloaded(true) then Owing else Free)
  {
  }

  /** Nobody else is moved, and woken only by a thread that notifies: one that begins an acquire,
      leaves one, or has changed the engine otherwise. A poll that waits on wakes nobody. */
  lemma {:induction false} OnlyNotifiersWake(y: System, e: Event, u: Tid)
    requires Enabled(y, e) && u in y.threads && (e.Tick? || u != e.t)
    ensures var z := After(y, e);
            && u in z.threads
            && (if e.Notify? || (e.Resolve? && (Of(y, e.t).starting || !Of(y, e.t).decision.WaitUntil?))
                then z.threads[u] == (if y.threads[u].Sleeping? then y.threads[u].(notified := true) else y.threads[u])
                else z.threads[u] == y.threads[u])
  {
  }

  /** The operations that a trace performs, in order. */
  ghost function Calls(y: System, events: seq<Event>): seq<Op>
    requires Trace(y, events)
    decreases |events|
  {
    if events == [] then []
    else
      (if CallOf(y, events[0]).Nothing? then [] else [CallOf(y, events[0]).op]) + Calls(After(y, events[0]), events[1..])
  }

  lemma {:induction false} NextCall(y: System, events: seq<Event>)
    requires events != [] && Trace(y, events)
    ensures var rest := Calls(After(y, events[0]), events[1..]);
            if CallOf(y, events[0]).Nothing? then Calls(y, events) == rest
            else Calls(y, events) != [] && Calls(y, events)[0] == CallOf(y, events[0]).op && Calls(y, events)[1..] == rest
  {
    var rest := Calls(After(y, events[0]), events[1..]);
    if CallOf(y, events[0]).Nothing? {
      assert [] + rest == rest;
    }
  }

  lemma {:induction false} ChronologicalLater(ops: seq<Op>, clock: int, later: int)
    requires clock <= later && Chronological(ops, later)
    ensures Chronological(ops, clock)
    decreases |ops|
  {
    if ops != [] && !Timed(ops[0]) {
      ChronologicalLater(ops[1..], clock, later);
    }
  }

  /** Every interleaving of threads is a run of the engine by one caller whose clock never goes
      back: whatever holds over all runs holds for all threads. */
  lemma {:induction false} TraceIsARun(y: System, events: seq<Event>)
    requires Trace(y, events)
    ensures Reached(y, events).engine == Run(y.engine, Calls(y, events))
    ensures Chronological(Calls(y, events), y.clock)
    decreases |events|
  {
    if events != [] {
      var e := events[0];
      var z := After(y, e);
      StepIsACall(y, e);
      TraceIsARun(z, events[1..]);
      NextCall(y, events);
      ChronologicalLater(Calls(z, events[1..]), y.clock, z.clock);
    }
  }

  /** For example the rate: however many threads ask, in whatever order, a credential whose policy
      stays the same is charged between two clock readings at most its burst and what its rate earns. */
  lemma {:induction false} ThreadsKeepTheRate(config: Config, clock: int, events: seq<Event>, k: Key, policy: Policy, lo: int, hi: int)
    requires config.Valid() && Trace(Origin(config, clock), events) && lo <= hi
    requires policy.requestsPerMinute != 0
    requires PolicyFixed(Initial(config), Calls(Origin(config, clock), events), k, policy)
    ensures Charges(Initial(config), Calls(Origin(config, clock), events), k, lo, hi) * UNIT
            <= policy.burst * UNIT + (hi - lo) * policy.requestsPerMinute
  {
    OriginInv(config, clock);
    TraceIsARun(Origin(config, clock), events);
    RateBound(Initial(config), Calls(Origin(config, clock), events), clock, k, policy, lo, hi);
  }
}
