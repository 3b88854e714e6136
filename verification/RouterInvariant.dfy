/** What every interleaving of executions, workers and shutdowns keeps. */
module RouterInvariant {
  import opened Wrappers
  import opened Router

  predicate HoldsList(c: Call) {
    c.Reaping? || c.Refused? || c.Closed? || c.Cleared? || c.Spawned? || c.Unspawned? || c.Releasing?
  }

  /** One thread holds the worker list, and the lock says which. */
  ghost predicate OneHolder(s: State) {
    forall c :: (c in s.calls && HoldsList(s.calls[c])) <==> s.lock == Some(c)
  }

  predicate HasSpawned(s: State, w: Id) {
    w in s.calls && (s.calls[w].Spawned? || s.calls[w].Releasing? || s.calls[w].Returned?)
  }

  /** Each worker was started by its call, which gave up its count to it. */
  ghost predicate Started(s: State) {
    && (forall w :: w in s.workers ==> HasSpawned(s, w))
    && (forall c :: c in s.calls && s.calls[c].Spawned? ==> c in s.workers)
  }

  /** Only workers are listed, or taken to be joined. */
  ghost predicate Listed(s: State) {
    && (forall w :: w in s.list ==> w in s.workers)
    && (forall k, w :: k in s.shutdowns && !s.shutdowns[k].Wanting? && w in s.shutdowns[k].list ==> w in s.workers)
  }

  function Remaining(t: Shutdown): seq<Id> {
    if t.Closing? then t.list
    else if t.Joining? && t.next <= |t.list| then t.list[t.next..]
    else []
  }

  /** The workers that the first shutdown has taken and not joined yet. */
  function BeingJoined(s: State): seq<Id> {
    if s.first.Some? && s.first.value in s.shutdowns then Remaining(s.shutdowns[s.first.value]) else []
  }

  predicate IsTracked(s: State, w: Id) {
    w in s.list || (w in s.calls && s.calls[w].Spawned?) || w in BeingJoined(s)
  }

  /** No worker runs without a thread that is going to join it. */
  ghost predicate Tracked(s: State) {
    forall w :: w in s.workers && !s.workers[w].Finished? ==> IsTracked(s, w)
  }

  /** Once a shutdown has taken the list, it stays empty and nobody is about to spawn. */
  ghost predicate Sealed(s: State) {
    s.first.Some? ==>
      && s.stopping && s.list == []
      && forall c :: c in s.calls ==> !s.calls[c].Cleared? && !s.calls[c].Spawned?
  }

  /** Only the first shutdown to take the list can have taken anything. */
  ghost predicate Taken(s: State) {
    && (forall k :: k in s.shutdowns ==> s.stopping && (s.shutdowns[k].Wanting? || s.first.Some?))
    && (forall k :: k in s.shutdowns && !s.shutdowns[k].Wanting? && s.first != Some(k) ==> s.shutdowns[k].list == [])
    && (s.first.Some? ==> s.first.value in s.shutdowns && !s.shutdowns[s.first.value].Wanting?)
  }

  /** What a shutdown has joined is finished. */
  ghost predicate JoinedBy(s: State, t: Shutdown) {
    && (t.Joining? ==> t.next <= |t.list| && forall i :: 0 <= i < t.next ==> IsFinished(s, t.list[i]))
    && (t.Complete? ==> forall w :: w in t.list ==> IsFinished(s, w))
  }

  ghost predicate Joined(s: State) {
    forall k :: k in s.shutdowns ==> JoinedBy(s, s.shutdowns[k])
  }

  /** A call that still owes the closing of its nested stream. */
  predicate Owns(c: Call) {
    c.Opened? || c.Reaping? || c.Refused? || c.Cleared? || c.Unspawned?
  }

  /** Every nested stream is owned by a running call or worker, or has been closed. */
  ghost predicate NestedOwned(s: State) {
    forall c :: c in s.nested ==>
      c in s.closed || (c in s.calls && Owns(s.calls[c])) || (c in s.workers && s.workers[c].Pumping?)
  }

  predicate CallCounts(c: Call) {
    !c.Configured? && !c.Running? && !c.Unspawned? && !c.Spawned? && !c.Releasing? && !c.Returned?
  }

  /** The thread, call or worker, that holds the count of `c`. */
  predicate Counts(s: State, c: Id) {
    (c in s.calls && CallCounts(s.calls[c])) || (c in s.workers && !s.workers[c].Dropped? && !s.workers[c].Finished?)
  }

  /** Accepted executions: all but those that were counted over capacity and are on their way out. */
  predicate Admits(s: State, c: Id) {
    Counts(s, c) && !(c in s.calls && s.calls[c].Rejected?)
  }

  function Counted(s: State): set<Id> {
    set c | c in s.calls.Keys + s.workers.Keys && Counts(s, c)
  }

  function Admitted(s: State): set<Id> {
    set c | c in s.calls.Keys + s.workers.Keys && Admits(s, c)
  }

  /** The shared counter is the number of counts held. */
  ghost predicate Counter(s: State) {
    s.active == |Counted(s)|
  }

  /** No configuration anywhere has more than the highest capacity installed. */
  ghost predicate Limits(s: State) {
    && s.limit <= s.peak
    && forall c :: c in s.calls && (s.calls[c].Configured? || s.calls[c].Running?) ==> s.calls[c].limit <= s.peak
  }

  /** That capacity bounds the accepted executions. */
  ghost predicate Capacity(s: State) {
    |Admitted(s)| <= s.peak
  }

  // ----- Every step keeps it -----

  lemma {:induction false} HolderThroughShutdown(s: State, e: Event)
    requires Enabled(s, e) && Subject(e).None? && OneHolder(s)
    ensures OneHolder(Next(s, e))
  {
  }

  lemma {:induction false} HolderThroughEntry(s: State, e: Event)
    requires Enabled(s, e) && Entering(e) && OneHolder(s)
    ensures OneHolder(Next(s, e))
  {
  }

  lemma {:induction false} HolderThroughLock(s: State, e: Event)
    requires Enabled(s, e) && Inside(e) && OneHolder(s)
    ensures OneHolder(Next(s, e))
  {
  }

  lemma {:induction false} HolderThroughWork(s: State, e: Event)
    requires Enabled(s, e) && e.Work? && OneHolder(s)
    ensures OneHolder(Next(s, e))
  {
  }

  lemma {:induction false} StepKeepsOneHolder(s: State, e: Event)
    requires Enabled(s, e) && OneHolder(s)
    ensures OneHolder(Next(s, e))
  {
    if Subject(e).None? {
      HolderThroughShutdown(s, e);
    } else if Entering(e) {
      HolderThroughEntry(s, e);
    } else if Inside(e) {
      HolderThroughLock(s, e);
    } else {
      HolderThroughWork(s, e);
    }
  }

  lemma {:induction false} StartedThroughShutdown(s: State, e: Event, w: Id)
    requires Enabled(s, e) && Subject(e).None? && Started(s)
    ensures w in s.workers ==> w in Next(s, e).workers
    ensures w in Next(s, e).workers ==> HasSpawned(Next(s, e), w)
    ensures w in Next(s, e).calls && Next(s, e).calls[w].Spawned? ==> w in Next(s, e).workers
  {
  }

  lemma {:induction false} StartedThroughEntry(s: State, e: Event, w: Id)
    requires Enabled(s, e) && Entering(e) && Started(s)
    ensures w in s.workers ==> w in Next(s, e).workers
    ensures w in Next(s, e).workers ==> HasSpawned(Next(s, e), w)
    ensures w in Next(s, e).calls && Next(s, e).calls[w].Spawned? ==> w in Next(s, e).workers
  {
  }

  lemma {:induction false} StartedThroughLock(s: State, e: Event, w: Id)
    requires Enabled(s, e) && Inside(e) && Started(s)
    ensures w in s.workers ==> w in Next(s, e).workers
    ensures w in Next(s, e).workers ==> HasSpawned(Next(s, e), w)
    ensures w in Next(s, e).calls && Next(s, e).calls[w].Spawned? ==> w in Next(s, e).workers
  {
  }

  lemma {:induction false} StartedThroughWork(s: State, e: Event, w: Id)
    requires Enabled(s, e) && e.Work? && Started(s)
    ensures w in s.workers ==> w in Next(s, e).workers
    ensures w in Next(s, e).workers ==> HasSpawned(Next(s, e), w)
    ensures w in Next(s, e).calls && Next(s, e).calls[w].Spawned? ==> w in Next(s, e).workers
  {
  }

  lemma {:induction false} WorkerStaysStarted(s: State, e: Event, w: Id)
    requires Enabled(s, e) && Started(s)
    ensures w in s.workers ==> w in Next(s, e).workers
    ensures w in Next(s, e).workers ==> HasSpawned(Next(s, e), w)
    ensures w in Next(s, e).calls && Next(s, e).calls[w].Spawned? ==> w in Next(s, e).workers
  {
    if Subject(e).None? {
      StartedThroughShutdown(s, e, w);
    } else if Entering(e) {
      StartedThroughEntry(s, e, w);
    } else if Inside(e) {
      StartedThroughLock(s, e, w);
    } else {
      StartedThroughWork(s, e, w);
    }
  }

  lemma {:induction false} StepKeepsStarted(s: State, e: Event)
    requires Enabled(s, e) && Started(s)
    ensures Started(Next(s, e))
    ensures forall w :: w in s.workers ==> w in Next(s, e).workers
  {
    forall w: Id
      ensures w in s.workers ==> w in Next(s, e).workers
      ensures w in Next(s, e).workers ==> HasSpawned(Next(s, e), w)
      ensures w in Next(s, e).calls && Next(s, e).calls[w].Spawned? ==> w in Next(s, e).workers
    {
      WorkerStaysStarted(s, e, w);
    }
  }

  lemma {:induction false} SwapRemoveKeeps(list: seq<Id>, i: nat)
    requires i < |list|
    ensures forall w :: w in list && w != list[i] ==> w in SwapRemove(list, i)
    ensures forall w :: w in SwapRemove(list, i) ==> w in list
  {
    var r := SwapRemove(list, i);
    forall w | w in list && w != list[i] ensures w in r {
      var j :| 0 <= j < |list| && list[j] == w;
      assert r[if j == |list| - 1 then i else j] == w;
    }
  }

  lemma {:induction false} StepKeepsListed(s: State, e: Event)
    requires Enabled(s, e) && Started(s) && Listed(s)
    ensures Listed(Next(s, e))
  {
    StepKeepsStarted(s, e);
    if e.Reap? {
      SwapRemoveKeeps(s.list, s.calls[e.id].index);
    }
  }

  lemma {:induction false} SealedThroughShutdown(s: State, e: Event)
    requires Enabled(s, e) && Subject(e).None? && OneHolder(s) && Sealed(s) && Taken(s)
    ensures Sealed(Next(s, e))
  {
  }

  lemma {:induction false} SealedThroughEntry(s: State, e: Event)
    requires Enabled(s, e) && Entering(e) && OneHolder(s) && Sealed(s) && Taken(s)
    ensures Sealed(Next(s, e))
  {
  }

  lemma {:induction false} SealedThroughLock(s: State, e: Event)
    requires Enabled(s, e) && Inside(e) && OneHolder(s) && Sealed(s) && Taken(s)
    ensures Sealed(Next(s, e))
  {
  }

  lemma {:induction false} SealedThroughWork(s: State, e: Event)
    requires Enabled(s, e) && e.Work? && OneHolder(s) && Sealed(s) && Taken(s)
    ensures Sealed(Next(s, e))
  {
  }

  lemma {:induction false} StepKeepsSealed(s: State, e: Event)
    requires Enabled(s, e) && OneHolder(s) && Sealed(s) && Taken(s)
    ensures Sealed(Next(s, e))
  {
    if Subject(e).None? {
      SealedThroughShutdown(s, e);
    } else if Entering(e) {
      SealedThroughEntry(s, e);
    } else if Inside(e) {
      SealedThroughLock(s, e);
    } else {
      SealedThroughWork(s, e);
    }
  }

  lemma {:induction false} TakenThroughShutdown(s: State, e: Event)
    requires Enabled(s, e) && Subject(e).None? && Sealed(s) && Taken(s)
    ensures Taken(Next(s, e))
  {
  }

  lemma {:induction false} TakenThroughEntry(s: State, e: Event)
    requires Enabled(s, e) && Entering(e) && Sealed(s) && Taken(s)
    ensures Taken(Next(s, e))
  {
  }

  lemma {:induction false} TakenThroughLock(s: State, e: Event)
    requires Enabled(s, e) && Inside(e) && Sealed(s) && Taken(s)
    ensures Taken(Next(s, e))
  {
  }

  lemma {:induction false} TakenThroughWork(s: State, e: Event)
    requires Enabled(s, e) && e.Work? && Sealed(s) && Taken(s)
    ensures Taken(Next(s, e))
  {
  }

  lemma {:induction false} StepKeepsTaken(s: State, e: Event)
    requires Enabled(s, e) && Sealed(s) && Taken(s)
    ensures Taken(Next(s, e))
  {
    if Subject(e).None? {
      TakenThroughShutdown(s, e);
    } else if Entering(e) {
      TakenThroughEntry(s, e);
    } else if Inside(e) {
      TakenThroughLock(s, e);
    } else {
      TakenThroughWork(s, e);
    }
  }

  lemma {:induction false} FinishedStays(s: State, e: Event, w: Id)
    requires Enabled(s, e) && Started(s) && IsFinished(s, w)
    ensures IsFinished(Next(s, e), w)
  {
  }

  lemma {:induction false} JoinedStays(s: State, e: Event, t: Shutdown)
    requires Enabled(s, e) && Started(s) && JoinedBy(s, t)
    ensures JoinedBy(Next(s, e), t)
  {
    forall w | IsFinished(s, w) ensures IsFinished(Next(s, e), w) {
      FinishedStays(s, e, w);
    }
  }

  lemma {:induction false} StepKeepsJoined(s: State, e: Event)
    requires Enabled(s, e) && Started(s) && Joined(s)
    ensures Joined(Next(s, e))
  {
    forall k | k in s.shutdowns ensures JoinedBy(Next(s, e), s.shutdowns[k]) {
      JoinedStays(s, e, s.shutdowns[k]);
    }
  }

  /** Joining the next worker strikes it, finished, off what remains. */
  lemma {:induction false} JoinStrikesOne(list: seq<Id>, next: nat, w: Id)
    requires next < |list| && w in list[next..]
    ensures w == list[next] || w in list[next + 1..]
  {
    assert list[next..] == [list[next]] + list[next + 1..];
  }

  lemma {:induction false} TrackedThroughEntry(s: State, e: Event, w: Id)
    requires Enabled(s, e) && Entering(e) && Subject(e).Some? && !e.Reap? && Started(s)
    requires IsTracked(s, w) || w !in s.workers
    requires w in Next(s, e).workers && !Next(s, e).workers[w].Finished?
    ensures IsTracked(Next(s, e), w)
  {
  }

  lemma {:induction false} TrackedThroughLock(s: State, e: Event, w: Id)
    requires Enabled(s, e) && Inside(e) && Subject(e).Some? && !e.Reap? && Started(s)
    requires IsTracked(s, w) || w !in s.workers
    requires w in Next(s, e).workers && !Next(s, e).workers[w].Finished?
    ensures IsTracked(Next(s, e), w)
  {
  }

  lemma {:induction false} TrackedThroughWork(s: State, e: Event, w: Id)
    requires Enabled(s, e) && e.Work? && Subject(e).Some? && !e.Reap? && Started(s)
    requires IsTracked(s, w) || w !in s.workers
    requires w in Next(s, e).workers && !Next(s, e).workers[w].Finished?
    ensures IsTracked(Next(s, e), w)
  {
  }

  lemma {:induction false} TrackedThroughCalls(s: State, e: Event, w: Id)
    requires Enabled(s, e) && Subject(e).Some? && !e.Reap? && Started(s)
    requires IsTracked(s, w) || w !in s.workers
    requires w in Next(s, e).workers && !Next(s, e).workers[w].Finished?
    ensures IsTracked(Next(s, e), w)
  {
    if Entering(e) {
      TrackedThroughEntry(s, e, w);
    } else if Inside(e) {
      TrackedThroughLock(s, e, w);
    } else {
      TrackedThroughWork(s, e, w);
    }
  }

  lemma {:induction false} TrackedThroughReap(s: State, c: Id, w: Id)
    requires Enabled(s, Reap(c)) && IsTracked(s, w) && !IsFinished(s, w)
    ensures IsTracked(Next(s, Reap(c)), w)
  {
    SwapRemoveKeeps(s.list, s.calls[c].index);
  }

  lemma {:induction false} TrackedThroughTake(s: State, k: Id, w: Id)
    requires Enabled(s, Take(k)) && OneHolder(s) && Sealed(s) && Taken(s) && IsTracked(s, w)
    ensures IsTracked(Next(s, Take(k)), w)
  {
    assert w in s.calls ==> !HoldsList(s.calls[w]);
  }

  lemma {:induction false} TrackedThroughShutdown(s: State, e: Event, w: Id)
    requires Enabled(s, e) && Subject(e).None? && !e.Take? && Taken(s) && Joined(s) && IsTracked(s, w)
    requires w in s.workers && !s.workers[w].Finished?
    ensures IsTracked(Next(s, e), w)
  {
    if e.JoinNext? && s.first == Some(e.id) && w in BeingJoined(s) && s.shutdowns[e.id].next < |s.shutdowns[e.id].list| {
      JoinStrikesOne(s.shutdowns[e.id].list, s.shutdowns[e.id].next, w);
    }
  }

  lemma {:induction false} StepKeepsTracked(s: State, e: Event)
    requires Enabled(s, e) && OneHolder(s) && Started(s) && Sealed(s) && Taken(s) && Joined(s) && Tracked(s)
    ensures Tracked(Next(s, e))
  {
    forall w | w in Next(s, e).workers && !Next(s, e).workers[w].Finished? ensures IsTracked(Next(s, e), w) {
      if e.Reap? {
        TrackedThroughReap(s, e.id, w);
      } else if Subject(e).Some? {
        TrackedThroughCalls(s, e, w);
      } else if e.Take? {
        TrackedThroughTake(s, e.id, w);
      } else {
        TrackedThroughShutdown(s, e, w);
      }
    }
  }

  lemma {:induction false} OwnedThroughShutdown(s: State, e: Event)
    requires Enabled(s, e) && Subject(e).None? && Started(s) && NestedOwned(s)
    ensures NestedOwned(Next(s, e))
  {
  }

  lemma {:induction false} OwnedThroughEntry(s: State, e: Event)
    requires Enabled(s, e) && Entering(e) && Started(s) && NestedOwned(s)
    ensures NestedOwned(Next(s, e))
  {
  }

  lemma {:induction false} OwnedThroughLock(s: State, e: Event)
    requires Enabled(s, e) && Inside(e) && Started(s) && NestedOwned(s)
    ensures NestedOwned(Next(s, e))
  {
  }

  lemma {:induction false} OwnedThroughWork(s: State, e: Event)
    requires Enabled(s, e) && e.Work? && Started(s) && NestedOwned(s)
    ensures NestedOwned(Next(s, e))
  {
  }

  lemma {:induction false} StepKeepsNestedOwned(s: State, e: Event)
    requires Enabled(s, e) && Started(s) && NestedOwned(s)
    ensures NestedOwned(Next(s, e))
  {
    if Subject(e).None? {
      OwnedThroughShutdown(s, e);
    } else if Entering(e) {
      OwnedThroughEntry(s, e);
    } else if Inside(e) {
      OwnedThroughLock(s, e);
    } else {
      OwnedThroughWork(s, e);
    }
  }

  lemma {:induction false} CountsThroughShutdown(s: State, e: Event, x: Id)
    requires Enabled(s, e) && Subject(e).None? && Subject(e) != Some(x)
    ensures Counts(s, x) <==> Counts(Next(s, e), x)
    ensures Admits(s, x) <==> Admits(Next(s, e), x)
  {
  }

  lemma {:induction false} CountsThroughEntry(s: State, e: Event, x: Id)
    requires Enabled(s, e) && Entering(e) && Subject(e) != Some(x)
    ensures Counts(s, x) <==> Counts(Next(s, e), x)
    ensures Admits(s, x) <==> Admits(Next(s, e), x)
  {
  }

  lemma {:induction false} CountsThroughLock(s: State, e: Event, x: Id)
    requires Enabled(s, e) && Inside(e) && Subject(e) != Some(x)
    ensures Counts(s, x) <==> Counts(Next(s, e), x)
    ensures Admits(s, x) <==> Admits(Next(s, e), x)
  {
  }

  lemma {:induction false} CountsThroughWork(s: State, e: Event, x: Id)
    requires Enabled(s, e) && e.Work? && Subject(e) != Some(x)
    ensures Counts(s, x) <==> Counts(Next(s, e), x)
    ensures Admits(s, x) <==> Admits(Next(s, e), x)
  {
  }

  lemma {:induction false} OthersKeepTheirCount(s: State, e: Event, x: Id)
    requires Enabled(s, e) && Subject(e) != Some(x)
    ensures Counts(s, x) <==> Counts(Next(s, e), x)
    ensures Admits(s, x) <==> Admits(Next(s, e), x)
  {
    if Subject(e).None? {
      CountsThroughShutdown(s, e, x);
    } else if Entering(e) {
      CountsThroughEntry(s, e, x);
    } else if Inside(e) {
      CountsThroughLock(s, e, x);
    } else {
      CountsThroughWork(s, e, x);
    }
  }

  /** How a step changes the count of its own execution. */
  datatype Change = Takes | Gives | Keeps

  function ChangeOf(s: State, e: Event): Change
    requires Enabled(s, e)
  {
    match e
    case Count(_) => Takes
    case Drop(_) => Gives
    case Spawn(_, ok) => if ok then Keeps else Gives
    case Work(w) => if s.workers[w].DownstreamClosed? then Gives else Keeps
    case _ => Keeps
  }

  lemma {:induction false} CountOfWorker(s: State, w: Id)
    requires Enabled(s, Work(w)) && Started(s)
    ensures s.workers[w].DownstreamClosed? ==> Counts(s, w)
    ensures Counts(Next(s, Work(w)), w) <==> !s.workers[w].DownstreamClosed? && Counts(s, w)
    ensures Admits(Next(s, Work(w)), w) <==> !s.workers[w].DownstreamClosed? && Admits(s, w)
  {
  }

  lemma {:induction false} CountOfEntry(s: State, e: Event, c: Id)
    requires Enabled(s, e) && Entering(e) && Started(s) && Subject(e) == Some(c) && !e.Work?
    ensures ChangeOf(s, e).Takes? ==> !Counts(s, c)
    ensures ChangeOf(s, e).Gives? ==> Counts(s, c)
    ensures Counts(Next(s, e), c) <==> ChangeOf(s, e).Takes? || (ChangeOf(s, e).Keeps? && Counts(s, c))
  {
  }

  lemma {:induction false} CountInside(s: State, e: Event, c: Id)
    requires Enabled(s, e) && Inside(e) && Started(s) && Subject(e) == Some(c) && !e.Work?
    ensures ChangeOf(s, e).Takes? ==> !Counts(s, c)
    ensures ChangeOf(s, e).Gives? ==> Counts(s, c)
    ensures Counts(Next(s, e), c) <==> ChangeOf(s, e).Takes? || (ChangeOf(s, e).Keeps? && Counts(s, c))
  {
  }

  lemma {:induction false} CountOfCall(s: State, e: Event, c: Id)
    requires Enabled(s, e) && Started(s) && Subject(e) == Some(c) && !e.Work?
    ensures ChangeOf(s, e).Takes? ==> !Counts(s, c)
    ensures ChangeOf(s, e).Gives? ==> Counts(s, c)
    ensures Counts(Next(s, e), c) <==> ChangeOf(s, e).Takes? || (ChangeOf(s, e).Keeps? && Counts(s, c))
  {
    if Entering(e) {
      CountOfEntry(s, e, c);
    } else {
      CountInside(s, e, c);
    }
  }

  lemma {:induction false} AdmissionOfEntry(s: State, e: Event, c: Id)
    requires Enabled(s, e) && Entering(e) && Started(s) && Subject(e) == Some(c) && !e.Work?
    ensures Admits(Next(s, e), c) <==>
              (ChangeOf(s, e).Takes? && s.active < s.calls[c].limit) || (ChangeOf(s, e).Keeps? && Admits(s, c))
  {
  }

  lemma {:induction false} AdmissionInside(s: State, e: Event, c: Id)
    requires Enabled(s, e) && Inside(e) && Started(s) && Subject(e) == Some(c) && !e.Work?
    ensures Admits(Next(s, e), c) <==>
              (ChangeOf(s, e).Takes? && s.active < s.calls[c].limit) || (ChangeOf(s, e).Keeps? && Admits(s, c))
  {
  }

  lemma {:induction false} AdmissionOfCall(s: State, e: Event, c: Id)
    requires Enabled(s, e) && Started(s) && Subject(e) == Some(c) && !e.Work?
    ensures Admits(Next(s, e), c) <==>
              (ChangeOf(s, e).Takes? && s.active < s.calls[c].limit) || (ChangeOf(s, e).Keeps? && Admits(s, c))
  {
    if Entering(e) {
      AdmissionOfEntry(s, e, c);
    } else {
      AdmissionInside(s, e, c);
    }
  }

  /** Which steps take or give back a count, and whose. */
  lemma {:induction false} StepCounts(s: State, e: Event)
    requires Enabled(s, e) && Started(s)
    ensures Counted(Next(s, e)) == match ChangeOf(s, e)
                                   case Takes => Counted(s) + {e.id}
                                   case Gives => Counted(s) - {e.id}
                                   case Keeps => Counted(s)
    ensures ChangeOf(s, e).Takes? ==> e.id !in Counted(s)
    ensures ChangeOf(s, e).Gives? ==> e.id in Counted(s)
  {
    forall x: Id | Subject(e) != Some(x) ensures Counts(s, x) <==> Counts(Next(s, e), x) {
      OthersKeepTheirCount(s, e, x);
    }
    if e.Work? {
      CountOfWorker(s, e.id);
    } else if Subject(e).Some? {
      CountOfCall(s, e, e.id);
    }
  }

  lemma {:induction false} StepAdmits(s: State, e: Event)
    requires Enabled(s, e) && Started(s)
    ensures ChangeOf(s, e).Takes? && s.active < s.calls[e.id].limit ==> Admitted(Next(s, e)) == Admitted(s) + {e.id}
    ensures !(ChangeOf(s, e).Takes? && s.active < s.calls[e.id].limit) ==> Admitted(Next(s, e)) <= Admitted(s)
  {
    forall x: Id | Subject(e) != Some(x) ensures Admits(s, x) <==> Admits(Next(s, e), x) {
      OthersKeepTheirCount(s, e, x);
    }
    if e.Work? {
      CountOfWorker(s, e.id);
    } else if Subject(e).Some? {
      AdmissionOfCall(s, e, e.id);
    }
  }

  lemma {:induction false} StepKeepsCounter(s: State, e: Event)
    requires Enabled(s, e) && Started(s) && Counter(s)
    ensures Counter(Next(s, e))
  {
    StepCounts(s, e);
  }

  lemma {:induction false} LimitsThroughShutdown(s: State, e: Event)
    requires Enabled(s, e) && Subject(e).None? && Limits(s)
    ensures Limits(Next(s, e)) && s.peak <= Next(s, e).peak
  {
  }

  lemma {:induction false} LimitsThroughEntry(s: State, e: Event)
    requires Enabled(s, e) && Entering(e) && Limits(s)
    ensures Limits(Next(s, e)) && s.peak <= Next(s, e).peak
  {
  }

  lemma {:induction false} LimitsThroughLock(s: State, e: Event)
    requires Enabled(s, e) && Inside(e) && Limits(s)
    ensures Limits(Next(s, e)) && s.peak <= Next(s, e).peak
  {
  }

  lemma {:induction false} LimitsThroughWork(s: State, e: Event)
    requires Enabled(s, e) && e.Work? && Limits(s)
    ensures Limits(Next(s, e)) && s.peak <= Next(s, e).peak
  {
  }

  lemma {:induction false} StepKeepsLimits(s: State, e: Event)
    requires Enabled(s, e) && Limits(s)
    ensures Limits(Next(s, e)) && s.peak <= Next(s, e).peak
  {
    if Subject(e).None? {
      LimitsThroughShutdown(s, e);
    } else if Entering(e) {
      LimitsThroughEntry(s, e);
    } else if Inside(e) {
      LimitsThroughLock(s, e);
    } else {
      LimitsThroughWork(s, e);
    }
  }

  lemma {:induction false} SubsetIsSmaller(a: set<Id>, b: set<Id>)
    ensures a <= b ==> |a| <= |b|
  {
    assert a <= b ==> b == a + (b - a);
  }

  /** The count read by fetch-and-add bounds the executions accepted so far. */
  lemma {:induction false} AdmittedAreCounted(s: State)
    ensures |Admitted(s)| <= |Counted(s)|
  {
    SubsetIsSmaller(Admitted(s), Counted(s));
  }

  lemma {:induction false} StepKeepsCapacity(s: State, e: Event)
    requires Enabled(s, e) && Started(s) && Counter(s) && Limits(s) && Capacity(s)
    ensures Capacity(Next(s, e))
  {
    StepAdmits(s, e);
    AdmittedAreCounted(s);
    StepKeepsLimits(s, e);
    SubsetIsSmaller(Admitted(Next(s, e)), Admitted(s));
  }

  /** What holds in every reachable state. */
  ghost predicate Inv(s: State) {
    && OneHolder(s) && Started(s) && Listed(s) && Sealed(s) && Taken(s) && Tracked(s) && Joined(s) && NestedOwned(s)
    && Counter(s) && Limits(s) && Capacity(s)
  }

  lemma {:induction false} InitIsInv(limit: nat)
    ensures Inv(Init(limit))
  {
    assert Counted(Init(limit)) == {} && Admitted(Init(limit)) == {};
  }

  lemma {:induction false} StepKeepsInv(s: State, e: Event)
    requires Enabled(s, e) && Inv(s)
    ensures Inv(Next(s, e))
  {
    StepKeepsOneHolder(s, e);
    StepKeepsStarted(s, e);
    StepKeepsListed(s, e);
    StepKeepsSealed(s, e);
    StepKeepsTaken(s, e);
    StepKeepsTracked(s, e);
    StepKeepsJoined(s, e);
    StepKeepsNestedOwned(s, e);
    StepKeepsCounter(s, e);
    StepKeepsLimits(s, e);
    StepKeepsCapacity(s, e);
  }

  lemma {:induction false} TraceKeepsInv(s: State, events: seq<Event>, t: State)
    requires Inv(s) && Trace(s, events, t)
    ensures Inv(t)
    decreases |events|
  {
    if events != [] {
      StepKeepsInv(s, events[0]);
      TraceKeepsInv(Next(s, events[0]), events[1..], t);
    }
  }

  lemma {:induction false} ReachableIsInv(s: State)
    requires Reachable(s)
    ensures Inv(s)
  {
    var limit, events :| Trace(Init(limit), events, s);
    InitIsInv(limit);
    TraceKeepsInv(Init(limit), events, s);
  }
}
