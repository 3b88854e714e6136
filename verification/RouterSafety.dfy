/** What the router guarantees of shutdown, nested streams and capacity. */
module RouterSafety {
  import opened Wrappers
  import opened Router
  import opened RouterInvariant

  // ----- Shutdown -----

  /** When a shutdown returns, every worker that it took has finished. */
  lemma {:induction false} ShutdownJoinsWhatItTook(s: State, k: Id)
    requires Reachable(s)
    requires k in s.shutdowns && s.shutdowns[k].Complete?
    ensures forall w :: w in s.shutdowns[k].list ==> IsFinished(s, w)
  {
    ReachableIsInv(s);
  }

  lemma {:induction false} StepAfterTake(s: State, e: Event)
    requires Enabled(s, e) && Sealed(s) && s.first.Some?
    ensures Next(s, e).first == s.first && Next(s, e).workers.Keys == s.workers.Keys
  {
  }

  /** After the list has been taken no worker is ever started. */
  lemma {:induction false} NoneStartedAfterTake(s: State, events: seq<Event>, t: State)
    requires Inv(s) && s.first.Some? && Trace(s, events, t)
    ensures t.first == s.first && t.workers.Keys == s.workers.Keys
    ensures forall w :: IsFinished(s, w) ==> IsFinished(t, w)
    decreases |events|
  {
    if events != [] {
      var u := Next(s, events[0]);
      StepKeepsInv(s, events[0]);
      StepAfterTake(s, events[0]);
      NoneStartedAfterTake(u, events[1..], t);
      forall w | IsFinished(s, w) ensures IsFinished(t, w) {
        FinishedStays(s, events[0], w);
      }
    }
  }

  /** Once the shutdown that took the list has returned, no worker is alive, and none ever will be. */
  lemma {:induction false} ShutdownIsFinal(s: State, k: Id, after: seq<Event>, t: State)
    requires Reachable(s) && s.first == Some(k)
    requires k in s.shutdowns && s.shutdowns[k].Complete?
    requires Trace(s, after, t)
    ensures t.workers.Keys == s.workers.Keys
    ensures forall w :: w in t.workers ==> IsFinished(t, w)
  {
    ReachableIsInv(s);
    NoneStartedAfterTake(s, after, t);
    forall w | w in s.workers ensures IsFinished(s, w) {
      assert IsFinished(s, w) || IsTracked(s, w);
    }
  }

  /** While it is still joining, exactly the workers it has not reached can be alive. */
  lemma {:induction false} AliveAreBeingJoined(s: State, w: Id)
    requires Reachable(s) && s.first.Some?
    requires w in s.workers && !IsFinished(s, w)
    ensures w in BeingJoined(s)
  {
    ReachableIsInv(s);
    assert IsTracked(s, w);
  }

  /** An execution about to take the worker list. */
  lemma {:induction false} OneExecution() returns (s: State)
    ensures Reachable(s)
    ensures s.calls == map[0 := Opened] && s.list == [] && s.lock.None? && !s.stopping && s.shutdowns == map[] && s.first.None?
  {
    s := Init(1);
    assert Trace(s, [], s);
    s := ThenReachable(s, Arrive(0));
    s := ThenReachable(s, CheckStopping(0));
    s := ThenReachable(s, Count(0));
    s := ThenReachable(s, Open(0));
  }

  /** An execution that has started its worker and returned. */
  lemma {:induction false} OneWorkerRuns() returns (s: State)
    ensures Reachable(s)
    ensures 0 in s.workers && s.workers[0].Pumping? && s.list == [0] && s.lock.None? && s.shutdowns == map[] && s.first.None?
  {
    s := OneExecution();
    s := ThenReachable(s, Lock(0));
    s := ThenReachable(s, Recheck(0));
    s := ThenReachable(s, Spawn(0, true));
    s := ThenReachable(s, Push(0));
    s := ThenReachable(s, Unlock(0));
  }

  /** A first shutdown has taken it. */
  lemma {:induction false} FirstShutdownTakes() returns (s: State)
    ensures Reachable(s)
    ensures 0 in s.workers && s.workers[0].Pumping? && s.list == [] && s.lock.None? && s.shutdowns == map[0 := Closing([0], 0)]
  {
    s := OneWorkerRuns();
    s := ThenReachable(s, Stop(0));
    s := ThenReachable(s, Take(0));
  }

  /** It has to be the shutdown that took the list: a second one, called while the first is still
      closing streams, finds the list empty and returns although a worker is alive. */
  lemma {:induction false} SecondShutdownReturnsEarly() returns (s: State)
    ensures Reachable(s)
    ensures 1 in s.shutdowns && s.shutdowns[1].Complete?
    ensures 0 in s.workers && s.workers[0].Pumping?
  {
    s := FirstShutdownTakes();
    s := ThenReachable(s, Stop(1));
    s := ThenReachable(s, Take(1));
    s := ThenReachable(s, CloseNext(1));
    s := ThenReachable(s, JoinNext(1));
  }

  // ----- Streams, capacity, progress -----

  /** Every nested stream that was opened is owned by a running thread or has been closed. */
  lemma {:induction false} NestedStreamsAreOwned(s: State, c: Id)
    requires Reachable(s) && c in s.nested
    ensures c in s.closed || (c in s.calls && Owns(s.calls[c])) || (c in s.workers && s.workers[c].Pumping?)
  {
    ReachableIsInv(s);
  }

  lemma {:induction false} PeakStays(s: State, events: seq<Event>, t: State)
    requires Trace(s, events, t) && forall e :: e in events ==> !e.Install?
    ensures t.peak == s.peak
    decreases |events|
  {
    if events != [] {
      assert events[0] in events && forall e :: e in events[1..] ==> e in events;
      PeakStays(Next(s, events[0]), events[1..], t);
    }
  }

  /** Under one configuration accepted executions never exceed its capacity; what the counter shows
      beyond them are rejected calls that have not taken their increment back yet. */
  lemma {:induction false} CapacityIsKept(limit: nat, events: seq<Event>, s: State)
    requires Trace(Init(limit), events, s) && forall e :: e in events ==> !e.Install?
    ensures |Admitted(s)| <= limit
    ensures s.active == |Admitted(s)| + |Counted(s) - Admitted(s)|
    ensures forall c :: c in Counted(s) - Admitted(s) ==> c in s.calls && s.calls[c].Rejected?
  {
    InitIsInv(limit);
    TraceKeepsInv(Init(limit), events, s);
    PeakStays(Init(limit), events, s);
    assert Counted(s) == Admitted(s) + (Counted(s) - Admitted(s));
  }
}
