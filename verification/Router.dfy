/** The router's worker protocol as interleaved steps: executions share a counter, a stopping flag
    and a worker list behind one mutex; shutdowns take the list and join its threads. A worker and
    the nested stream it pumps are named after the call that opened them. */
module Router {
  import opened Wrappers

  type Id = nat

  /** Where an execution is; each arrow of the protocol is one step below. */
  datatype Call =
    | Configured(limit: nat)   // has cloned the configuration
    | Running(limit: nat)      // has seen the stopping flag down
    | Rejected                 // counted, but over capacity
    | Accepted                 // counted within capacity, before the host call
    | Opened                   // the nested stream is open
    | Reaping(index: nat)      // holds the list, joining finished workers
    | Refused                  // holds the list, has seen the stopping flag up
    | Closed                   // holds the list, nested stream closed again
    | Cleared                  // holds the list, about to spawn
    | Spawned                  // holds the list, worker not yet on it
    | Unspawned                // holds the list, no thread could be started
    | Releasing                // holds the list, nothing left to do
    | Leaving                  // about to drop its count
    | Returned

  datatype Worker = Pumping | NestedClosed | DownstreamClosed | Dropped | Finished

  datatype Shutdown =
    | Wanting
    | Closing(list: seq<Id>, next: nat)
    | Joining(list: seq<Id>, next: nat)
    | Complete(list: seq<Id>)

  /** `peak` is the highest capacity ever configured, `first` the first shutdown to take the list,
      `nested` and `closed` the nested streams that were opened and closed; none of the four decides
      what a step does. */
  datatype State = State(
    limit: nat,
    stopping: bool,
    active: int,
    lock: Option<Id>,
    list: seq<Id>,
    calls: map<Id, Call>,
    workers: map<Id, Worker>,
    shutdowns: map<Id, Shutdown>,
    peak: nat,
    first: Option<Id>,
    nested: set<Id>,
    closed: set<Id>)

  datatype Event =
    | Install(limit: nat)       // a new configuration
    | Arrive(id: Id)            // execute: clone the configuration
    | CheckStopping(id: Id)     // execute: look at the flag, before counting
    | Count(id: Id)             // execute: fetch-and-add, and compare with the capacity
    | GiveUp(id: Id)            // execute: a missing identifier, a host fault, or no stream identifier
    | Open(id: Id)              // execute: the host has opened the nested stream
    | Lock(id: Id)              // execute: lock the worker list
    | Reap(id: Id)              // execute: one turn of the reaping loop
    | Recheck(id: Id)           // execute: look at the flag again, under the lock
    | CloseNested(id: Id)       // execute: close the nested stream that nobody will pump
    | Spawn(id: Id, ok: bool)   // execute: start the worker, which takes the count over; or drop it
    | Push(id: Id)              // execute: put the worker on the list
    | Unlock(id: Id)            // execute: unlock the list
    | Drop(id: Id)              // execute: give the count back
    | Work(id: Id)              // a worker's next stage
    | Stop(id: Id)              // shutdown: raise the flag
    | Take(id: Id)              // shutdown: take the list, under its lock
    | CloseNext(id: Id)         // shutdown: close the streams of one worker
    | JoinNext(id: Id)          // shutdown: join one finished worker, or return

  function Init(limit: nat): State {
    State(limit, false, 0, None, [], map[], map[], map[], limit, None, {}, {})
  }

  predicate Enabled(s: State, e: Event) {
    match e
    case Install(_) => true
    case Arrive(c) => c !in s.calls
    case CheckStopping(c) => c in s.calls && s.calls[c].Configured?
    case Count(c) => c in s.calls && s.calls[c].Running?
    case GiveUp(c) => c in s.calls && s.calls[c].Accepted?
    case Open(c) => c in s.calls && s.calls[c].Accepted?
    case Lock(c) => c in s.calls && s.calls[c].Opened? && s.lock.None?
    case Reap(c) => c in s.calls && s.calls[c].Reaping? && s.calls[c].index < |s.list|
    case Recheck(c) => c in s.calls && s.calls[c].Reaping? && s.calls[c].index >= |s.list|
    case CloseNested(c) => c in s.calls && (s.calls[c].Refused? || s.calls[c].Unspawned?)
    case Spawn(c, _) => c in s.calls && s.calls[c].Cleared?
    case Push(c) => c in s.calls && s.calls[c].Spawned?
    case Unlock(c) => c in s.calls && (s.calls[c].Closed? || s.calls[c].Releasing?)
    case Drop(c) => c in s.calls && (s.calls[c].Rejected? || s.calls[c].Leaving?)
    case Work(c) => c in s.workers && !s.workers[c].Finished?
    case Stop(k) => k !in s.shutdowns
    case Take(k) => k in s.shutdowns && s.shutdowns[k].Wanting? && s.lock.None?
    case CloseNext(k) => k in s.shutdowns && s.shutdowns[k].Closing?
    case JoinNext(k) =>
      && k in s.shutdowns && s.shutdowns[k].Joining?
      && var t := s.shutdowns[k];
         t.next < |t.list| ==> t.list[t.next] in s.workers && s.workers[t.list[t.next]].Finished?
  }

  predicate IsFinished(s: State, w: Id) {
    w in s.workers && s.workers[w].Finished?
  }

  function Advance(w: Worker): Worker {
    match w
    case Pumping => NestedClosed
    case NestedClosed => DownstreamClosed
    case DownstreamClosed => Dropped
    case _ => Finished
  }

  function SwapRemove(list: seq<Id>, i: nat): seq<Id>
    requires i < |list|
  {
    list[i := list[|list| - 1]][..|list| - 1]
  }

  function Move(s: State, c: Id, to: Call): State {
    s.(calls := s.calls[c := to])
  }

  function Next(s: State, e: Event): State
    requires Enabled(s, e)
  {
    match e
    case Install(l) => s.(limit := l, peak := if l > s.peak then l else s.peak)
    case Arrive(c) => Move(s, c, Configured(s.limit))
    case CheckStopping(c) => Move(s, c, if s.stopping then Returned else Running(s.calls[c].limit))
    case Count(c) => Move(s, c, if s.active >= s.calls[c].limit then Rejected else Accepted).(active := s.active + 1)
    case GiveUp(c) => Move(s, c, Leaving)
    case Open(c) => Move(s, c, Opened).(nested := s.nested + {c})
    case Lock(c) => Move(s, c, Reaping(0)).(lock := Some(c))
    case Reap(c) =>
      var i := s.calls[c].index;
      if IsFinished(s, s.list[i]) then s.(list := SwapRemove(s.list, i)) else Move(s, c, Reaping(i + 1))
    case Recheck(c) => Move(s, c, if s.stopping then Refused else Cleared)
    case CloseNested(c) => Move(s, c, if s.calls[c].Refused? then Closed else Releasing).(closed := s.closed + {c})
    case Spawn(c, ok) =>
      if ok then Move(s, c, Spawned).(workers := s.workers[c := Pumping])
      else Move(s, c, Unspawned).(active := s.active - 1)
    case Push(c) => Move(s, c, Releasing).(list := s.list + [c])
    case Unlock(c) => Move(s, c, if s.calls[c].Closed? then Leaving else Returned).(lock := None)
    case Drop(c) => Move(s, c, Returned).(active := s.active - 1)
    case Work(w) =>
      var t := s.(workers := s.workers[w := Advance(s.workers[w])]);
      if s.workers[w].Pumping? then t.(closed := s.closed + {w})
      else if s.workers[w].DownstreamClosed? then t.(active := s.active - 1)
      else t
    case Stop(k) => s.(stopping := true, shutdowns := s.shutdowns[k := Wanting])
    case Take(k) =>
      s.(list := [], shutdowns := s.shutdowns[k := Closing(s.list, 0)],
         first := if s.first.None? then Some(k) else s.first)
    case CloseNext(k) =>
      var t := s.shutdowns[k];
      if t.next < |t.list| then
        s.(shutdowns := s.shutdowns[k := Closing(t.list, t.next + 1)], closed := s.closed + {t.list[t.next]})
      else s.(shutdowns := s.shutdowns[k := Joining(t.list, 0)])
    case JoinNext(k) =>
      var t := s.shutdowns[k];
      s.(shutdowns := s.shutdowns[k := if t.next < |t.list| then Joining(t.list, t.next + 1) else Complete(t.list)])
  }

  /** The events lead from `s` to `t`. */
  ghost predicate Trace(s: State, events: seq<Event>, t: State)
    decreases |events|
  {
    if events == [] then s == t
    else Enabled(s, events[0]) && Trace(Next(s, events[0]), events[1..], t)
  }

  /** What interleavings of any number of threads can reach, whatever is configured on the way. */
  ghost predicate Reachable(s: State) {
    exists limit, events :: Trace(Init(limit), events, s)
  }

  /** The steps of an execution outside the worker list's lock, and those that take, hold or
      release it. */
  predicate Entering(e: Event) {
    e.Arrive? || e.CheckStopping? || e.Count? || e.GiveUp? || e.Open? || e.Drop?
  }

  predicate Inside(e: Event) {
    e.Lock? || e.Reap? || e.Recheck? || e.CloseNested? || e.Spawn? || e.Push? || e.Unlock?
  }

  /** The execution that a step belongs to, or none for a step of a shutdown. */
  function Subject(e: Event): Option<Id> {
    match e
    case Install(_) => None
    case Stop(_) => None
    case Take(_) => None
    case CloseNext(_) => None
    case JoinNext(_) => None
    case _ => Some(e.id)
  }

  lemma {:induction false} OneMore(s: State, events: seq<Event>, t: State, e: Event)
    requires Trace(s, events, t) && Enabled(t, e)
    ensures Trace(s, events + [e], Next(t, e))
    decreases |events|
  {
    if events == [] {
      assert Trace(Next(t, e), [e][1..], Next(t, e));
    } else {
      OneMore(Next(s, events[0]), events[1..], t, e);
      assert (events + [e])[1..] == events[1..] + [e];
    }
  }

  lemma {:induction false} ThenReachable(s: State, e: Event) returns (t: State)
    requires Reachable(s) && Enabled(s, e)
    ensures Reachable(t) && t == Next(s, e)
  {
    var limit, events :| Trace(Init(limit), events, s);
    OneMore(Init(limit), events, s, e);
    t := Next(s, e);
  }
}
