/** What the stopping flag, the capacity test and the reaping of finished workers decide. */
module RouterStopping {
  import opened Wrappers
  import opened Router
  import opened RouterInvariant

  // ----- After the flag is up -----

  /** Executions that have seen the flag down and have no nested stream yet. */
  function PastTheFlag(s: State): set<Id> {
    set c | c in s.calls && (s.calls[c].Running? || s.calls[c].Accepted?)
  }

  /** Not arrived, or turned away before anything was counted or opened. */
  predicate Outside(s: State, c: Id) {
    && c !in s.nested && c !in s.workers
    && (c in s.calls ==> s.calls[c].Configured? || s.calls[c].Returned?)
  }

  lemma {:induction false} OutsideStays(s: State, e: Event, c: Id)
    requires Enabled(s, e) && s.stopping && Outside(s, c)
    ensures Outside(Next(s, e), c)
  {
  }

  lemma {:induction false} NoneGetsPast(s: State, e: Event)
    requires Enabled(s, e) && s.stopping
    ensures PastTheFlag(Next(s, e)) <= PastTheFlag(s)
    ensures Next(s, e).nested <= s.nested + PastTheFlag(s)
  {
    forall c | c in PastTheFlag(Next(s, e)) ensures c in PastTheFlag(s) {
    }
  }

  lemma {:induction false} NoneIsCounted(s: State, e: Event)
    requires Enabled(s, e) && Started(s)
    ensures Counted(Next(s, e)) <= Counted(s) + PastTheFlag(s)
  {
    StepCounts(s, e);
  }

  /** Nothing but what was past the flag at `s` has been added at `t`. */
  ghost predicate OnlyThosePast(s: State, t: State) {
    && PastTheFlag(t) <= PastTheFlag(s)
    && t.nested <= s.nested + PastTheFlag(s)
    && Counted(t) <= Counted(s) + PastTheFlag(s)
  }

  lemma {:induction false} StepAfterFlag(s: State, e: Event)
    requires Enabled(s, e) && Inv(s) && s.stopping
    ensures Next(s, e).stopping && Inv(Next(s, e)) && OnlyThosePast(s, Next(s, e))
  {
    StepKeepsInv(s, e);
    NoneGetsPast(s, e);
    NoneIsCounted(s, e);
  }

  lemma {:induction false} ThenOnlyThosePast(s: State, u: State, t: State)
    requires OnlyThosePast(s, u) && OnlyThosePast(u, t)
    ensures OnlyThosePast(s, t)
  {
  }

  /** Nobody is let past a raised flag: only executions already past it can still be counted and can
      still open a nested stream. */
  lemma {:induction false} TraceAfterFlag(s: State, events: seq<Event>, t: State)
    requires Inv(s) && s.stopping && Trace(s, events, t)
    ensures Inv(t) && OnlyThosePast(s, t)
    decreases |events|
  {
    if events != [] {
      StepAfterFlag(s, events[0]);
      TraceAfterFlag(Next(s, events[0]), events[1..], t);
      ThenOnlyThosePast(s, Next(s, events[0]), t);
    }
  }

  lemma {:induction false} TraceKeepsOutside(s: State, events: seq<Event>, t: State, c: Id)
    requires s.stopping && Trace(s, events, t) && Outside(s, c)
    ensures Outside(t, c)
    decreases |events|
  {
    if events != [] {
      OutsideStays(s, events[0], c);
      TraceKeepsOutside(Next(s, events[0]), events[1..], t, c);
    }
  }

  lemma {:induction false} StepNestsCalls(s: State, e: Event)
    requires Enabled(s, e) && s.nested <= s.calls.Keys
    ensures Next(s, e).nested <= Next(s, e).calls.Keys
  {
  }

  lemma {:induction false} NestedWereCalls(s: State, events: seq<Event>, t: State)
    requires Trace(s, events, t) && s.nested <= s.calls.Keys
    ensures t.nested <= t.calls.Keys
    decreases |events|
  {
    if events != [] {
      StepNestsCalls(s, events[0]);
      NestedWereCalls(Next(s, events[0]), events[1..], t);
    }
  }

  lemma {:induction false} NewcomersAreOutside(s: State, c: Id)
    requires Reachable(s) && c !in s.calls
    ensures Outside(s, c)
  {
    ReachableIsInv(s);
    var limit, events :| Trace(Init(limit), events, s);
    NestedWereCalls(Init(limit), events, s);
  }

  lemma {:induction false} StopOnlyRaises(s: State, k: Id)
    requires Reachable(s) && Enabled(s, Stop(k))
    ensures var u := Next(s, Stop(k));
            Inv(u) && s.active == |Counted(s)| && PastTheFlag(u) == PastTheFlag(s) && Counted(u) == Counted(s) && u.nested == s.nested
  {
    ReachableIsInv(s);
    StepKeepsInv(s, Stop(k));
  }

  lemma {:induction false} StoppedTrace(s: State, k: Id, events: seq<Event>, t: State)
    requires Reachable(s) && Enabled(s, Stop(k)) && Trace(Next(s, Stop(k)), events, t)
    ensures OnlyThosePast(s, t) && s.active == |Counted(s)| && t.active == |Counted(t)|
  {
    StopOnlyRaises(s, k);
    TraceAfterFlag(Next(s, Stop(k)), events, t);
  }

  /** After a shutdown has been called, whatever follows: an execution that had not arrived is never
      counted, accepted, given a nested stream or a worker, and those that had arrived but not looked
      at the flag are turned away by it as well. */
  lemma {:induction false} NothingStartsAfterStop(s: State, k: Id, events: seq<Event>, t: State)
    requires Reachable(s) && Enabled(s, Stop(k)) && Trace(Next(s, Stop(k)), events, t)
    ensures forall c :: c !in s.calls ==>
              c !in t.nested && c !in Counted(t) && c !in t.workers
              && (c in t.calls ==> t.calls[c].Configured? || t.calls[c].Returned?)
    ensures t.nested <= s.nested + PastTheFlag(s)
    ensures Counted(t) <= Counted(s) + PastTheFlag(s)
    ensures t.active <= s.active + |PastTheFlag(s)|
  {
    StoppedTrace(s, k, events, t);
    SubsetIsSmaller(Counted(t), Counted(s) + PastTheFlag(s));
    forall c | c !in s.calls ensures Outside(t, c) {
      NewcomersAreOutside(s, c);
      TraceKeepsOutside(Next(s, Stop(k)), events, t, c);
    }
  }

  lemma {:induction false} FlagIsHistory(s: State, events: seq<Event>, t: State)
    requires Trace(s, events, t)
    ensures t.stopping <==> s.stopping || exists k :: Stop(k) in events
    decreases |events|
  {
    if events != [] {
      FlagIsHistory(Next(s, events[0]), events[1..], t);
      assert events == [events[0]] + events[1..];
      assert forall k :: Stop(k) in events <==> Stop(k) == events[0] || Stop(k) in events[1..];
      if events[0].Stop? {
        assert Stop(events[0].id) in events;
      }
    }
  }

  /** The flag turns an execution away exactly if a shutdown has been called before: at its first
      look nothing has been counted, at its second the nested stream remains to be closed. */
  lemma {:induction false} TurnedAwayIff(limit: nat, events: seq<Event>, s: State, c: Id)
    requires Trace(Init(limit), events, s)
    ensures Enabled(s, CheckStopping(c)) ==>
              (Next(s, CheckStopping(c)).calls[c].Returned? <==> exists k :: Stop(k) in events)
    ensures Enabled(s, Recheck(c)) ==>
              (Next(s, Recheck(c)).calls[c].Refused? <==> exists k :: Stop(k) in events)
  {
    FlagIsHistory(Init(limit), events, s);
  }

  lemma {:induction false} StepOpens(s: State, e: Event)
    requires Enabled(s, e)
    ensures Next(s, e).nested == if e.Open? then s.nested + {e.id} else s.nested
  {
  }

  /** The nested streams are those that executions have opened. */
  lemma {:induction false} NestedIsHistory(s: State, events: seq<Event>, t: State, c: Id)
    requires Trace(s, events, t)
    ensures c in t.nested <==> c in s.nested || Open(c) in events
    decreases |events|
  {
    if events != [] {
      StepOpens(s, events[0]);
      NestedIsHistory(Next(s, events[0]), events[1..], t, c);
      assert events == [events[0]] + events[1..];
    }
  }

  // ----- Capacity -----

  /** While `c` carries a capacity, it is `limit`. */
  predicate Carries(s: State, c: Id, limit: nat) {
    c in s.calls && (s.calls[c].Configured? || s.calls[c].Running? ==> s.calls[c].limit == limit)
  }

  lemma {:induction false} StepKeepsLimit(s: State, e: Event, c: Id, limit: nat)
    requires Enabled(s, e) && Carries(s, c, limit)
    ensures Carries(Next(s, e), c, limit)
  {
  }

  lemma {:induction false} LimitStays(s: State, events: seq<Event>, t: State, c: Id, limit: nat)
    requires Trace(s, events, t) && Carries(s, c, limit)
    ensures Carries(t, c, limit)
    decreases |events|
  {
    if events != [] {
      StepKeepsLimit(s, events[0], c, limit);
      LimitStays(Next(s, events[0]), events[1..], t, c, limit);
    }
  }

  /** The capacity that the last reconfiguration has set, `limit` when there was none. */
  function LastInstalled(limit: nat, events: seq<Event>): nat
    decreases |events|
  {
    if events == [] then limit
    else LastInstalled(if events[0].Install? then events[0].limit else limit, events[1..])
  }

  lemma {:induction false} LimitIsHistory(s: State, events: seq<Event>, t: State)
    requires Trace(s, events, t)
    ensures t.limit == LastInstalled(s.limit, events)
    decreases |events|
  {
    if events != [] {
      StepSetsLimit(s, events[0]);
      LimitIsHistory(Next(s, events[0]), events[1..], t);
    }
  }

  lemma {:induction false} StepSetsLimit(s: State, e: Event)
    requires Enabled(s, e)
    ensures Next(s, e).limit == if e.Install? then e.limit else s.limit
  {
  }

  /** An execution is accepted exactly if fewer are counted than the capacity that was configured
      when it arrived, after `before`, however the capacity has been changed since. */
  lemma {:induction false} AcceptedIff(limit: nat, before: seq<Event>, s: State, c: Id, events: seq<Event>, t: State)
    requires Trace(Init(limit), before, s)
    requires Enabled(s, Arrive(c)) && Trace(Next(s, Arrive(c)), events, t) && Enabled(t, Count(c))
    ensures Next(t, Count(c)).calls[c].Accepted? <==> |Counted(t)| < LastInstalled(limit, before)
    ensures Next(t, Count(c)).calls[c].Rejected? <==> |Counted(t)| >= LastInstalled(limit, before)
  {
    InitIsInv(limit);
    TraceKeepsInv(Init(limit), before, s);
    StepKeepsInv(s, Arrive(c));
    TraceKeepsInv(Next(s, Arrive(c)), events, t);
    LimitStays(Next(s, Arrive(c)), events, t, c, s.limit);
    LimitIsHistory(Init(limit), before, s);
  }

  // ----- Reaping -----

  /** The part of the list that the holder has inspected was alive when it took the lock, `before`. */
  ghost predicate Inspected(before: State, s: State, c: Id) {
    c in s.calls && s.calls[c].Reaping? && s.calls[c].index <= |s.list|
    && forall i :: 0 <= i < s.calls[c].index ==> !IsFinished(before, s.list[i])
  }

  /** Past the lock, never to take it again. */
  predicate Through(s: State, c: Id) {
    && c in s.calls && !s.calls[c].Reaping? && !s.calls[c].Opened?
    && !s.calls[c].Accepted? && !s.calls[c].Running? && !s.calls[c].Configured?
  }

  lemma {:induction false} ThroughStays(s: State, e: Event, c: Id)
    requires Enabled(s, e) && Through(s, c)
    ensures Through(Next(s, e), c)
  {
  }

  lemma {:induction false} OnlyTheHolderReaps(s: State, e: Event, c: Id)
    requires Enabled(s, e) && OneHolder(s) && c in s.calls && s.calls[c].Reaping? && Subject(e) != Some(c)
    ensures Next(s, e).list == s.list && c in Next(s, e).calls && Next(s, e).calls[c] == s.calls[c]
  {
    assert s.lock == Some(c);
  }

  lemma {:induction false} InspectionGoesOn(before: State, s: State, e: Event, c: Id)
    requires Enabled(s, e) && OneHolder(s) && Inspected(before, s, c)
    requires forall w :: IsFinished(before, w) ==> IsFinished(s, w)
    ensures Inspected(before, Next(s, e), c) || Through(Next(s, e), c)
  {
    if Subject(e) != Some(c) {
      OnlyTheHolderReaps(s, e, c);
    } else if e.Work? {
      assert Next(s, e).list == s.list && Next(s, e).calls == s.calls;
    } else {
      assert e == Reap(c) || e == Recheck(c);
    }
  }

  lemma {:induction false} TraceInspects(before: State, s: State, events: seq<Event>, t: State, c: Id)
    requires Inv(s) && Trace(s, events, t) && (Inspected(before, s, c) || Through(s, c))
    requires forall w :: IsFinished(before, w) ==> IsFinished(s, w)
    ensures Inspected(before, t, c) || Through(t, c)
    decreases |events|
  {
    if events != [] {
      var e := events[0];
      if Through(s, c) {
        ThroughStays(s, e, c);
      } else {
        InspectionGoesOn(before, s, e, c);
      }
      StepKeepsInv(s, e);
      forall w | IsFinished(before, w) ensures IsFinished(Next(s, e), w) {
        FinishedStays(s, e, w);
      }
      TraceInspects(before, Next(s, e), events[1..], t, c);
    }
  }

  /** Reaping is complete: when an execution is through with the list, no worker that had finished
      before it took the lock is left on it. That no other is taken off is `StepKeepsTracked`. */
  lemma {:induction false} ReapingIsComplete(s: State, c: Id, events: seq<Event>, t: State)
    requires Reachable(s) && Enabled(s, Lock(c)) && Trace(Next(s, Lock(c)), events, t) && Enabled(t, Recheck(c))
    ensures forall w :: w in t.list ==> !IsFinished(s, w)
  {
    ReachableIsInv(s);
    StepKeepsInv(s, Lock(c));
    TraceInspects(s, Next(s, Lock(c)), events, t, c);
  }

  // ----- Closing before joining -----

  predicate StreamsClosed(s: State, workers: seq<Id>, n: nat) {
    n <= |workers| && forall i :: 0 <= i < n ==> workers[i] in s.closed
  }

  /** A shutdown closes the streams of the workers that it took before it waits for any of them. */
  ghost predicate ClosedSoFar(s: State, t: Shutdown) {
    && (t.Closing? ==> StreamsClosed(s, t.list, t.next))
    && (t.Joining? || t.Complete? ==> StreamsClosed(s, t.list, |t.list|))
  }

  ghost predicate AllClosedSoFar(s: State) {
    forall k :: k in s.shutdowns ==> ClosedSoFar(s, s.shutdowns[k])
  }

  lemma {:induction false} ClosedStays(s: State, e: Event)
    requires Enabled(s, e)
    ensures s.closed <= Next(s, e).closed
  {
  }

  lemma {:induction false} OthersStayClosed(s: State, e: Event, t: Shutdown)
    requires Enabled(s, e) && ClosedSoFar(s, t)
    ensures ClosedSoFar(Next(s, e), t)
  {
    ClosedStays(s, e);
  }

  lemma {:induction false} StepKeepsClosed(s: State, e: Event)
    requires Enabled(s, e) && AllClosedSoFar(s)
    ensures AllClosedSoFar(Next(s, e))
  {
    forall k | k in s.shutdowns ensures ClosedSoFar(Next(s, e), s.shutdowns[k]) {
      OthersStayClosed(s, e, s.shutdowns[k]);
    }
  }

  lemma {:induction false} TraceKeepsClosed(s: State, events: seq<Event>, t: State)
    requires Trace(s, events, t) && AllClosedSoFar(s)
    ensures AllClosedSoFar(t)
    decreases |events|
  {
    if events != [] {
      StepKeepsClosed(s, events[0]);
      TraceKeepsClosed(Next(s, events[0]), events[1..], t);
    }
  }

  lemma {:induction false} ClosedBeforeJoining(s: State, k: Id, w: Id)
    requires Reachable(s) && k in s.shutdowns && (s.shutdowns[k].Joining? || s.shutdowns[k].Complete?)
    requires w in s.shutdowns[k].list
    ensures w in s.closed
  {
    var limit, events :| Trace(Init(limit), events, s);
    TraceKeepsClosed(Init(limit), events, s);
  }

  // ----- The end of a worker -----

  /** What a worker has behind it: its nested stream closed, then its downstream, then its count
      given back, then its thread. */
  function Behind(w: Worker): nat {
    match w
    case Pumping => 0
    case NestedClosed => 1
    case DownstreamClosed => 2
    case Dropped => 3
    case Finished => 4
  }

  function StepsOf(w: Id, events: seq<Event>): nat {
    multiset(events)[Work(w)]
  }

  lemma {:induction false} StepBringsOn(s: State, e: Event, w: Id)
    requires Enabled(s, e) && Started(s)
    ensures w in s.workers ==> w in Next(s, e).workers
                               && Behind(Next(s, e).workers[w]) == Behind(s.workers[w]) + if e == Work(w) then 1 else 0
    ensures w !in s.workers && w in Next(s, e).workers ==> Next(s, e).workers[w].Pumping?
    ensures w !in s.workers ==> e != Work(w)
  {
    if e.Spawn? && e.id == w && w in s.workers {
      assert HasSpawned(s, w);
    }
  }

  /** A worker goes through its stages one by one and leaves none out. */
  lemma {:induction false} NoStageIsSkipped(s: State, events: seq<Event>, t: State, w: Id)
    requires Inv(s) && Trace(s, events, t)
    ensures w in s.workers ==> w in t.workers && Behind(t.workers[w]) == Behind(s.workers[w]) + StepsOf(w, events)
    ensures w !in s.workers && w in t.workers ==> Behind(t.workers[w]) == StepsOf(w, events)
    decreases |events|
  {
    if events != [] {
      assert events == [events[0]] + events[1..];
      StepBringsOn(s, events[0], w);
      StepKeepsInv(s, events[0]);
      NoStageIsSkipped(Next(s, events[0]), events[1..], t, w);
    }
  }
}
