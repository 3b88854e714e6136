/** The router's threads never block each other for good and all come to their end. */
module RouterProgress {
  import opened Wrappers
  import opened Sums
  import opened Router
  import opened RouterInvariant

  predicate Done(s: State) {
    && (forall c :: c in s.calls ==> s.calls[c].Returned?)
    && (forall w :: w in s.workers ==> s.workers[w].Finished?)
    && (forall k :: k in s.shutdowns ==> s.shutdowns[k].Complete?)
  }

  /** A step of a thread that exists already. */
  predicate Continues(e: Event) {
    !e.Install? && !e.Arrive? && !e.Stop?
  }

  /** Who holds the list never waits for anybody, and joining waits only for workers, who need no
      lock: as long as some thread is not done, one can take a step. */
  lemma {:induction false} NoDeadlock(s: State)
    requires Reachable(s) && !Done(s)
    ensures exists e :: Continues(e) && Enabled(s, e)
  {
    ReachableIsInv(s);
    if s.lock.Some? {
      CallCanMove(s, s.lock.value);
    } else if c :| c in s.calls && !s.calls[c].Returned? {
      CallCanMove(s, c);
    } else if w :| w in s.workers && !s.workers[w].Finished? {
      assert Enabled(s, Work(w)) && Continues(Work(w));
    } else {
      var k :| k in s.shutdowns && !s.shutdowns[k].Complete?;
      ShutdownCanMove(s, k);
    }
  }

  lemma {:induction false} CallCanMove(s: State, c: Id)
    requires c in s.calls && !s.calls[c].Returned?
    requires s.lock.None? || HoldsList(s.calls[c])
    ensures exists e :: Continues(e) && Enabled(s, e)
  {
    var e := match s.calls[c]
      case Configured(_) => CheckStopping(c)
      case Running(_) => Count(c)
      case Rejected => Drop(c)
      case Accepted => GiveUp(c)
      case Opened => Lock(c)
      case Reaping(i) => if i < |s.list| then Reap(c) else Recheck(c)
      case Refused => CloseNested(c)
      case Closed => Unlock(c)
      case Cleared => Spawn(c, true)
      case Spawned => Push(c)
      case Unspawned => CloseNested(c)
      case Releasing => Unlock(c)
      case _ => Drop(c);
    assert Continues(e) && Enabled(s, e);
  }

  lemma {:induction false} ShutdownCanMove(s: State, k: Id)
    requires Listed(s) && s.lock.None? && k in s.shutdowns && !s.shutdowns[k].Complete?
    requires forall w :: w in s.workers ==> s.workers[w].Finished?
    ensures exists e :: Continues(e) && Enabled(s, e)
  {
    var t := s.shutdowns[k];
    var e := if t.Wanting? then Take(k) else if t.Closing? then CloseNext(k) else JoinNext(k);
    assert t.Joining? && t.next < |t.list| ==> t.list[t.next] in t.list;
    assert Continues(e) && Enabled(s, e);
  }

  /** When all threads are done every count is back and every nested stream is closed. */
  lemma {:induction false} NothingLeaks(s: State)
    requires Reachable(s) && Done(s)
    ensures s.active == 0 && s.nested <= s.closed
  {
    ReachableIsInv(s);
    assert Counted(s) == {};
  }

  // ----- Every thread comes to its end -----

  function CallRank(c: Call): nat {
    match c
    case Configured(_) => 13
    case Running(_) => 12
    case Accepted => 11
    case Opened => 10
    case Reaping(_) => 9
    case Cleared => 8
    case Refused => 3
    case Closed => 2
    case Spawned => 2
    case Unspawned => 2
    case Releasing => 1
    case Leaving => 1
    case Rejected => 1
    case Returned => 0
  }

  function WorkerRank(w: Worker): nat {
    match w
    case Pumping => 4
    case NestedClosed => 3
    case DownstreamClosed => 2
    case Dropped => 1
    case Finished => 0
  }

  function ShutdownRank(t: Shutdown): nat {
    match t
    case Wanting => 3
    case Closing(_, _) => 2
    case Joining(_, _) => 1
    case Complete(_) => 0
  }

  ghost function CallRanks(calls: map<Id, Call>): map<Id, nat> {
    map c | c in calls :: CallRank(calls[c])
  }

  ghost function WorkerRanks(workers: map<Id, Worker>): map<Id, nat> {
    map w | w in workers :: WorkerRank(workers[w])
  }

  ghost function ShutdownRanks(shutdowns: map<Id, Shutdown>): map<Id, nat> {
    map k | k in shutdowns :: ShutdownRank(shutdowns[k])
  }

  /** How many stages the threads still have before them. */
  ghost function Stages(s: State): nat {
    Sum(CallRanks(s.calls)) + Sum(WorkerRanks(s.workers)) + Sum(ShutdownRanks(s.shutdowns))
  }

  /** What is left of the reaping loop of a call, and of the loops of a shutdown. */
  function ToReap(c: Call, length: nat): nat {
    if c.Reaping? && c.index < length then length - c.index else 0
  }

  function ToVisit(t: Shutdown): nat {
    if (t.Closing? || t.Joining?) && t.next < |t.list| then |t.list| - t.next else 0
  }

  ghost function Reaps(calls: map<Id, Call>, length: nat): map<Id, nat> {
    map c | c in calls :: ToReap(calls[c], length)
  }

  ghost function Visits(shutdowns: map<Id, Shutdown>): map<Id, nat> {
    map k | k in shutdowns :: ToVisit(shutdowns[k])
  }

  ghost function Iterations(s: State): nat {
    Sum(Reaps(s.calls, |s.list|)) + Sum(Visits(s.shutdowns))
  }

  lemma {:induction false} CallMoves(calls: map<Id, Call>, c: Id, to: Call)
    requires c in calls
    ensures Sum(CallRanks(calls[c := to])) + CallRank(calls[c]) == Sum(CallRanks(calls)) + CallRank(to)
  {
    SumWithout(CallRanks(calls), c);
    SumWith(CallRanks(calls), c, CallRank(to));
    assert CallRanks(calls[c := to]) == CallRanks(calls)[c := CallRank(to)];
  }

  lemma {:induction false} WorkerMoves(workers: map<Id, Worker>, w: Id, to: Worker)
    ensures Sum(WorkerRanks(workers[w := to])) + (if w in workers then WorkerRank(workers[w]) else 0) ==
            Sum(WorkerRanks(workers)) + WorkerRank(to)
  {
    var ranks := WorkerRanks(workers);
    SumWith(ranks, w, WorkerRank(to));
    assert WorkerRanks(workers[w := to]) == ranks[w := WorkerRank(to)];
    if w in workers {
      SumWithout(ranks, w);
    } else {
      assert ranks - {w} == ranks;
    }
  }

  lemma {:induction false} ShutdownMoves(shutdowns: map<Id, Shutdown>, k: Id, to: Shutdown)
    requires k in shutdowns
    ensures Sum(ShutdownRanks(shutdowns[k := to])) + ShutdownRank(shutdowns[k]) == Sum(ShutdownRanks(shutdowns)) + ShutdownRank(to)
    ensures Sum(Visits(shutdowns[k := to])) + ToVisit(shutdowns[k]) == Sum(Visits(shutdowns)) + ToVisit(to)
  {
    SumWithout(ShutdownRanks(shutdowns), k);
    SumWith(ShutdownRanks(shutdowns), k, ShutdownRank(to));
    assert ShutdownRanks(shutdowns[k := to]) == ShutdownRanks(shutdowns)[k := ShutdownRank(to)];
    SumWithout(Visits(shutdowns), k);
    SumWith(Visits(shutdowns), k, ToVisit(to));
    assert Visits(shutdowns[k := to]) == Visits(shutdowns)[k := ToVisit(to)];
  }

  /** One more turn of the reaping loop: the list is shorter or the index further on. */
  lemma {:induction false} ReapMoves(calls: map<Id, Call>, length: nat, calls': map<Id, Call>, length': nat, c: Id)
    requires c in calls && calls'.Keys == calls.Keys && length' <= length
    requires ToReap(calls'[c], length') < ToReap(calls[c], length)
    requires forall x :: x in calls && x != c ==> calls'[x] == calls[x]
    ensures Sum(Reaps(calls', length')) < Sum(Reaps(calls, length))
  {
    SumWithout(Reaps(calls, length), c);
    SumWithout(Reaps(calls', length'), c);
    SumMonotone(Reaps(calls', length') - {c}, Reaps(calls, length) - {c});
  }

  ghost predicate Descends(s: State, t: State) {
    Stages(t) < Stages(s) || (Stages(t) == Stages(s) && Iterations(t) < Iterations(s))
  }

  lemma {:induction false} CallDescends(s: State, e: Event, c: Id)
    requires Enabled(s, e) && Continues(e) && Subject(e) == Some(c) && !e.Reap? && !e.Work? && !e.Spawn?
    ensures Stages(Next(s, e)) < Stages(s)
  {
    CallAdvances(s, e, c);
    CallMoves(s.calls, c, Next(s, e).calls[c]);
  }

  lemma {:induction false} CallAdvances(s: State, e: Event, c: Id)
    requires Enabled(s, e) && Continues(e) && Subject(e) == Some(c) && !e.Reap? && !e.Work? && !e.Spawn?
    ensures var t := Next(s, e);
            && c in s.calls && c in t.calls && CallRank(t.calls[c]) < CallRank(s.calls[c])
            && t.calls == s.calls[c := t.calls[c]] && t.workers == s.workers && t.shutdowns == s.shutdowns
  {
  }

  lemma {:induction false} SpawnDescends(s: State, c: Id, ok: bool)
    requires Enabled(s, Spawn(c, ok))
    ensures Stages(Next(s, Spawn(c, ok))) < Stages(s)
  {
    CallMoves(s.calls, c, if ok then Spawned else Unspawned);
    WorkerMoves(s.workers, c, Pumping);
  }

  lemma {:induction false} ShutdownDescends(s: State, e: Event)
    requires Enabled(s, e) && Continues(e) && Subject(e).None?
    ensures Descends(s, Next(s, e))
  {
    ShutdownMoves(s.shutdowns, e.id, Next(s, e).shutdowns[e.id]);
  }

  /** Every step of an existing thread brings the threads nearer to their end, so that no run
      without newcomers goes on for ever. */
  lemma {:induction false} StepsDescend(s: State, e: Event)
    requires Enabled(s, e) && Continues(e)
    ensures Descends(s, Next(s, e))
  {
    if e.Reap? {
      ReapDescends(s, e.id);
    } else if e.Work? {
      WorkerMoves(s.workers, e.id, Advance(s.workers[e.id]));
    } else if e.Spawn? {
      SpawnDescends(s, e.id, e.ok);
    } else if Subject(e).None? {
      ShutdownDescends(s, e);
    } else {
      CallDescends(s, e, e.id);
    }
  }

  lemma {:induction false} ReapDescends(s: State, c: Id)
    requires Enabled(s, Reap(c))
    ensures Stages(Next(s, Reap(c))) == Stages(s) && Iterations(Next(s, Reap(c))) < Iterations(s)
  {
    var t := Next(s, Reap(c));
    CallMoves(s.calls, c, t.calls[c]);
    assert s.calls[c := s.calls[c]] == s.calls;
    ReapMoves(s.calls, |s.list|, t.calls, |t.list|, c);
  }

  /** From every reachable state the threads that exist can all be run to their end, and without
      newcomers they cannot avoid it. In particular a shutdown returns. */
  lemma {:induction false} AllComeToTheirEnd(s: State)
    requires Reachable(s)
    ensures exists events, t :: (forall e :: e in events ==> Continues(e)) && Trace(s, events, t) && Done(t)
    decreases Stages(s), Iterations(s)
  {
    if Done(s) {
      assert Trace(s, [], s);
    } else {
      NoDeadlock(s);
      var e :| Continues(e) && Enabled(s, e);
      StepsDescend(s, e);
      var u := ThenReachable(s, e);
      AllComeToTheirEnd(u);
      var events, t :| (forall x :: x in events ==> Continues(x)) && Trace(u, events, t) && Done(t);
      assert ([e] + events)[1..] == events;
      assert Trace(s, [e] + events, t);
    }
  }
}
