/** First come, first served: the order in which one credential admits its waiters. */
module Queues {
  import opened Config
  import opened Sequences
  import opened Admission
  import opened Ledger
  import opened Completion
  import opened Effects

  function Line(s: State, k: Key): seq<Id> {
    if k in s.buckets then s.buckets[k].queue else []
  }

  /** Who joins the queue of `k` in this step. */
  function Joined(s: State, op: Op, k: Key): seq<Id> {
    if op.Attempt? && op.key == k && Step(s, op).1.Deciding? && Step(s, op).1.decision.WaitUntil? then [op.id] else []
  }

  /** Who leaves the queue of `k` by being admitted and charged in this step. */
  function Admitted(s: State, op: Op, k: Key): seq<Id> {
    if op.Recheck? && Charged(s, op, k) then [op.id] else []
  }

  lemma {:induction false} AttemptKeepsLine(s: State, id: Id, key: Key, now: int, k: Key)
    requires Books(s) && s.config.Valid()
    ensures Line(Start(s, id, key, now).0, k) == Line(s, k) + Joined(s, Attempt(id, key, now), k)
  {
    StartEffect(s, id, key, now, k);
    if Proceeds(s, id) {
      EasedKeepsLine(s, id, k, now);
    }
  }

  /** An attempt finds its request in no queue. */
  lemma {:induction false} EasedKeepsLine(s: State, id: Id, k: Key, now: int)
    requires Books(s) && Proceeds(s, id)
    ensures Eased(s, id, k, now).queue == Line(s, k)
  {
    AtIsBalanced(s, k, now);
    assert !Ledger.Waits(s.requests, id, k);
  }

  /** A queued request is admitted only from the front. */
  lemma {:induction false} PollTakesTheFront(s: State, id: Id, now: int, k: Key)
    requires Books(s)
    ensures var after := Line(Poll(s, id, now).0, k);
            if Charged(s, Recheck(id, now), k) then Line(s, k) == [id] + after
            else after == Line(s, k) || after == Without(Line(s, k), {id})
  {
    PollEffect(s, id, now, k);
    if Waiting(s, id) {
      PollEffect(s, id, now, s.requests[id].key);
    }
  }

  lemma {:induction false} CompleteKeepsOrder(s: State, id: Id, k: Key)
    requires Valid(s)
    ensures Subsequence(Line(Complete(s, id), k), Line(s, k))
  {
    CompleteIsExact(s, id);
    WithoutIsSubsequence(Line(s, k), Family(s, id));
    SubsequenceReflexive(Line(s, k));
  }

  lemma {:induction false} AttemptKeepsOrder(s: State, id: Id, key: Key, now: int, k: Key)
    requires Books(s) && s.config.Valid()
    ensures Subsequence(Line(Start(s, id, key, now).0, k), Line(s, k) + Joined(s, Attempt(id, key, now), k))
  {
    AttemptKeepsLine(s, id, key, now, k);
    SubsequenceReflexive(Line(s, k) + Joined(s, Attempt(id, key, now), k));
  }

  lemma {:induction false} PollKeepsOrder(s: State, id: Id, now: int, k: Key)
    requires Books(s)
    ensures Subsequence(Admitted(s, Recheck(id, now), k) + Line(Poll(s, id, now).0, k), Line(s, k))
  {
    var after := Line(Poll(s, id, now).0, k);
    PollTakesTheFront(s, id, now, k);
    WithoutIsSubsequence(Line(s, k), {id});
    SubsequenceReflexive(Line(s, k));
    assert [] + after == after;
  }

  lemma {:induction false} OthersKeepTheLine(s: State, op: Op, k: Key)
    requires op.Registration? || op.Nested? || op.Quiesce? || op.Reload?
    ensures Line(Step(s, op).0, k) == Line(s, k) && Joined(s, op, k) == [] && Admitted(s, op, k) == []
  {
  }

  /** In one step those admitted come from the front, newcomers go to the back, and the others
      keep their order: cancellations, timeouts and reconfigurations only delete. */
  lemma {:induction false} StepKeepsOrder(s: State, op: Op, k: Key)
    requires Valid(s) && s.config.Valid()
    ensures Subsequence(Admitted(s, op, k) + Line(Step(s, op).0, k), Line(s, k) + Joined(s, op, k))
  {
    var before, after := Line(s, k), Line(Step(s, op).0, k);
    assert before + [] == before && [] + after == after;
    match op {
      case Attempt(id, key, now) => AttemptKeepsOrder(s, id, key, now, k);
      case Recheck(id, now) => PollKeepsOrder(s, id, now, k);
      case Completion(id) => CompleteKeepsOrder(s, id, k);
      case _ =>
        OthersKeepTheLine(s, op, k);
        SubsequenceReflexive(before);
    }
  }

  /** A request is admitted past the queue only when nobody waits in it. */
  lemma {:induction false} NoBarging(s: State, op: Op, k: Key)
    requires Books(s) && s.config.Valid()
    requires op.Attempt? && Charged(s, op, k)
    ensures Line(s, k) == []
  {
    StartEffect(s, op.id, op.key, op.now, k);
    AtIsBalanced(s, k, op.now);
    assert !Ledger.Waits(s.requests, op.id, k);
  }

  // ----- Over runs -----

  function AllJoined(s: State, ops: seq<Op>, k: Key): seq<Id>
    decreases |ops|
  {
    if ops == [] then [] else Joined(s, ops[0], k) + AllJoined(Step(s, ops[0]).0, ops[1..], k)
  }

  function AllAdmitted(s: State, ops: seq<Op>, k: Key): seq<Id>
    decreases |ops|
  {
    if ops == [] then [] else Admitted(s, ops[0], k) + AllAdmitted(Step(s, ops[0]).0, ops[1..], k)
  }

  /** Only a reload changes the configuration. */
  lemma {:induction false} ConfigUntouched(s: State, op: Op)
    requires Valid(s) && !op.Reload?
    ensures Step(s, op).0.config == s.config
  {
    match op {
      case Attempt(id, k, now) => Reachability.StartKeepsLinks(s, id, k, now);
      case Recheck(id, now) => Reachability.PollKeepsLinks(s, id, now);
      case Completion(id) => CompleteIsExact(s, id);
      case _ =>
    }
  }

  lemma {:induction false} ConfigStaysValid(s: State, op: Op)
    requires Valid(s) && s.config.Valid()
    ensures Step(s, op).0.config.Valid()
  {
    if !op.Reload? {
      ConfigUntouched(s, op);
    }
  }

  /** Over a whole run, those admitted from the queue of `k` followed by those still in it are,
      in this order, among those who were in it or joined it. */
  lemma {:induction false} RunKeepsOrder(s: State, ops: seq<Op>, k: Key)
    requires Valid(s) && s.config.Valid()
    ensures Subsequence(AllAdmitted(s, ops, k) + Line(Run(s, ops), k), Line(s, k) + AllJoined(s, ops, k))
    decreases |ops|
  {
    if ops == [] {
      SubsequenceReflexive(Line(s, k));
      assert AllAdmitted(s, ops, k) + Line(Run(s, ops), k) == Line(s, k);
      assert Line(s, k) + AllJoined(s, ops, k) == Line(s, k);
    } else {
      var op, t, rest := ops[0], Step(s, ops[0]).0, ops[1..];
      Reachability.StepKeepsValid(s, op);
      ConfigStaysValid(s, op);
      StepKeepsOrder(s, op, k);
      RunKeepsOrder(t, rest, k);
      JoinRuns(Admitted(s, op, k), Line(t, k), Line(s, k), Joined(s, op, k),
               AllAdmitted(t, rest, k), Line(Run(t, rest), k), AllJoined(t, rest, k));
    }
  }

  lemma {:induction false} JoinRuns(first: seq<Id>, line: seq<Id>, before: seq<Id>, joined: seq<Id>,
                                    later: seq<Id>, end: seq<Id>, joinedLater: seq<Id>)
    requires Subsequence(first + line, before + joined)
    requires Subsequence(later + end, line + joinedLater)
    ensures Subsequence((first + later) + end, before + (joined + joinedLater))
  {
    SubsequencePrefix(first, later + end, line + joinedLater);
    SubsequenceSuffix(first + line, before + joined, joinedLater);
    assert first + (line + joinedLater) == (first + line) + joinedLater;
    SubsequenceTransitive(first + (later + end), (first + line) + joinedLater, (before + joined) + joinedLater);
    assert first + (later + end) == (first + later) + end;
    assert (before + joined) + joinedLater == before + (joined + joinedLater);
  }
}
