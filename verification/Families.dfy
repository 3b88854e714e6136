/** How a nested request comes to end with its ancestors. */
module Families {
  import opened Config
  import opened Admission
  import opened Ledger
  import opened Completion
  import opened Reachability

  // ----- Who may join -----

  /** A registration is refused by a stopping engine, and by a full one if the request is new; each
      has its reason. A new request is tracked as Idle, and nothing else changes. */
  lemma {:induction false} RegisteredIff(s: State, id: Id)
    ensures var (t, result) := Begin(s, id);
            && (result == Refused(Stopping) <==> s.stopping)
            && (result == Refused(Capacity) <==> !s.stopping && id !in s.requests && |s.requests| >= s.config.maxTrackedRequests)
            && (result.Refused? ==> result.reason in {Stopping, Capacity} && t == s)
            && (result.Accepted? ==> t == s.(requests := if id in s.requests then s.requests else s.requests[id := Idle]))
  {
  }

  /** A nested request is taken on exactly when its parent is live, it is not live itself, there is
      room and nobody has said stop; then it is live, and otherwise nothing changes. */
  lemma {:induction false} NestedIffParentIsLive(s: State, id: Id, parent: Id)
    ensures var (t, result) := BeginChild(s, id, parent);
            && (result.Accepted? <==>
                  parent in s.requests && id !in s.requests && !s.stopping && |s.requests| < s.config.maxTrackedRequests)
            && (result == Refused(RequestEnded) <==> parent !in s.requests || id in s.requests)
            && (parent in s.requests && id !in s.requests ==>
                  if s.stopping then result == Refused(Stopping)
                  else result == if |s.requests| < s.config.maxTrackedRequests then Accepted else Refused(Capacity))
            && (if result.Accepted? then t.requests == s.requests[id := Idle] && t.buckets == s.buckets else t == s)
  {
  }

  // ----- Joining a family -----

  /** A new leaf changes no chain of parents but its own. */
  lemma {:induction false} LeafChangesNoChain(parents: map<Id, Id>, id: Id, parent: Id, c: Id, x: Id, n: nat)
    requires id !in parents && id != parent && forall r :: r in parents ==> parents[r] != id
    requires c != id
    ensures Descends(parents[id := parent], c, x, n) <==> Descends(parents, c, x, n)
    decreases n
  {
    if n > 0 && c in parents {
      LeafChangesNoChain(parents, id, parent, parents[c], x, n - 1);
    }
  }

  lemma {:induction false} LeafDescends(parents: map<Id, Id>, id: Id, parent: Id, x: Id)
    requires id !in parents && id != parent && forall r :: r in parents ==> parents[r] != id
    requires x != id
    ensures DescendsFrom(parents[id := parent], id, x) <==> DescendsFrom(parents, parent, x)
  {
    var more := parents[id := parent];
    if DescendsFrom(more, id, x) {
      var n: nat :| Descends(more, id, x, n);
      LeafChangesNoChain(parents, id, parent, parent, x, n - 1);
      assert Descends(parents, parent, x, n - 1);
    }
    if DescendsFrom(parents, parent, x) {
      var n: nat :| Descends(parents, parent, x, n);
      LeafChangesNoChain(parents, id, parent, parent, x, n);
      assert Descends(more, id, x, n + 1);
    }
  }

  lemma {:induction false} OthersKeepTheirAncestors(parents: map<Id, Id>, id: Id, parent: Id, c: Id, x: Id)
    requires id !in parents && id != parent && forall r :: r in parents ==> parents[r] != id
    requires c != id
    ensures DescendsFrom(parents[id := parent], c, x) <==> DescendsFrom(parents, c, x)
  {
    var more := parents[id := parent];
    if DescendsFrom(more, c, x) {
      var n: nat :| Descends(more, c, x, n);
      LeafChangesNoChain(parents, id, parent, c, x, n);
    }
    if DescendsFrom(parents, c, x) {
      var n: nat :| Descends(parents, c, x, n);
      LeafChangesNoChain(parents, id, parent, c, x, n);
    }
  }

  lemma {:induction false} NewcomerIsALeaf(s: State, id: Id)
    requires Valid(s) && id !in s.requests
    ensures id !in s.parents && forall r :: r in s.parents ==> s.parents[r] != id
  {
  }

  /** An accepted nested registration adds the child to the family of its parent and of every
      ancestor of its parent, and to no other. */
  lemma {:induction false} ChildJoinsTheFamily(s: State, id: Id, parent: Id, x: Id)
    requires Valid(s) && BeginChild(s, id, parent).1.Accepted? && x != id
    ensures var t := BeginChild(s, id, parent).0;
            Family(t, x) == Family(s, x) + (if parent in Family(s, x) then {id} else {})
  {
    var t := BeginChild(s, id, parent).0;
    NewcomerIsALeaf(s, id);
    assert t.parents == s.parents[id := parent] && t.requests == s.requests[id := Idle];
    LeafDescends(s.parents, id, parent, x);
    forall c | c != id ensures c in Family(t, x) <==> c in Family(s, x) {
      OthersKeepTheirAncestors(s.parents, id, parent, c, x);
    }
  }

  /** So it ends with its parent. */
  lemma {:induction false} ChildEndsWithItsParent(s: State, id: Id, parent: Id)
    requires Valid(s) && BeginChild(s, id, parent).1.Accepted?
    ensures var t := BeginChild(s, id, parent).0;
            id in t.requests && id !in Complete(t, parent).requests
  {
    var t := BeginChild(s, id, parent).0;
    BeginChildKeepsValid(s, id, parent);
    assert Descends(s.parents, parent, parent, 0);
    ChildJoinsTheFamily(s, id, parent, parent);
    CompleteIsExact(t, parent);
  }

  // ----- Staying in it -----

  /** Chains through live requests are not touched by a step that the request survives. */
  lemma {:induction false} StepKeepsAncestors(s: State, op: Op, c: Id, x: Id)
    requires Valid(s) && c in Family(s, x) && c in Step(s, op).0.requests
    ensures c in Family(Step(s, op).0, x)
  {
    match op {
      case Nested(id, parent) =>
        if BeginChild(s, id, parent).1.Accepted? {
          NewcomerIsALeaf(s, id);
          OthersKeepTheirAncestors(s.parents, id, parent, c, x);
        }
      case Attempt(id, k, now) => StartKeepsLinks(s, id, k, now);
      case Recheck(id, now) => PollKeepsLinks(s, id, now);
      case Completion(id) =>
        CompleteIsExact(s, id);
        FamilyIsDownward(s, id);
        FamilyAfterPrune(s, Family(s, id), x);
      case _ =>
    }
  }

  /** The request is live after each step of the run. */
  ghost predicate Survives(s: State, ops: seq<Op>, c: Id)
    decreases |ops|
  {
    c in s.requests && (ops != [] ==> Survives(Step(s, ops[0]).0, ops[1..], c))
  }

  lemma {:induction false} RunKeepsAncestors(s: State, ops: seq<Op>, c: Id, x: Id)
    requires Valid(s) && c in Family(s, x) && Survives(s, ops, c)
    ensures c in Family(Run(s, ops), x)
    decreases |ops|
  {
    if ops != [] {
      StepKeepsValid(s, ops[0]);
      StepKeepsAncestors(s, ops[0], c, x);
      RunKeepsAncestors(Step(s, ops[0]).0, ops[1..], c, x);
    }
  }

  /** Over every run: as long as a nested request lives, it ends when its parent completes, or any
      request that its parent was, directly or not, nested in. */
  lemma {:induction false} ChildEndsWithItsAncestors(s: State, id: Id, parent: Id, ops: seq<Op>, x: Id)
    requires Valid(s) && BeginChild(s, id, parent).1.Accepted?
    requires parent in Family(s, x)
    requires Survives(BeginChild(s, id, parent).0, ops, id)
    ensures var u := Run(BeginChild(s, id, parent).0, ops);
            id in Family(u, x) && id !in Complete(u, x).requests
  {
    var t := BeginChild(s, id, parent).0;
    BeginChildKeepsValid(s, id, parent);
    AncestorIsNotNew(s, id, parent, x);
    ChildJoinsTheFamily(s, id, parent, x);
    RunKeepsAncestors(t, ops, id, x);
    RunKeepsValid(t, ops);
    CompleteIsExact(Run(t, ops), x);
  }

  lemma {:induction false} AncestorIsNotNew(s: State, id: Id, parent: Id, x: Id)
    requires Valid(s) && parent in Family(s, x) && id !in s.requests
    ensures x != id
  {
    var n: nat :| Descends(s.parents, parent, x, n);
    AncestorsAreLive(s, parent, x, n);
  }

  /** A request that was never nested survives every completion but its own, with what it holds. */
  lemma {:induction false} UnnestedSurvives(s: State, id: Id, x: Id)
    requires Valid(s) && id in s.requests && id !in s.parents && x != id
    ensures id in Complete(s, x).requests && Complete(s, x).requests[id] == s.requests[id]
  {
    CompleteIsExact(s, x);
    forall n: nat ensures !Descends(s.parents, id, x, n) {
    }
  }
}
