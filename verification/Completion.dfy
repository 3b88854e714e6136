/** Cascading completion: the worklist removes a request and exactly its live descendants. */
module Completion {
  import opened Config
  import opened Sequences
  import opened Sums
  import opened TokenBucket
  import opened Admission
  import opened Ledger

  /** `c` reaches `root` by following `n` parent links. */
  ghost predicate Descends(parents: map<Id, Id>, c: Id, root: Id, n: nat)
    decreases n
  {
    if n == 0 then c == root else c in parents && Descends(parents, parents[c], root, n - 1)
  }

  ghost predicate DescendsFrom(parents: map<Id, Id>, c: Id, root: Id) {
    exists n: nat :: Descends(parents, c, root, n)
  }

  /** The live requests that end with `id`: itself and its descendants. */
  ghost function Family(s: State, id: Id): set<Id> {
    set c | c in s.requests && DescendsFrom(s.parents, c, id)
  }

  ghost function PruneBucket(requests: map<Id, Phase>, k: Key, b: BucketState, gone: set<Id>): BucketState {
    b.(active := b.active - |Holders(requests, k) * gone|, queue := Without(b.queue, gone))
  }

  ghost function PruneBuckets(requests: map<Id, Phase>, buckets: map<Key, BucketState>, gone: set<Id>): map<Key, BucketState> {
    map k | k in buckets :: PruneBucket(requests, k, buckets[k], gone)
  }

  ghost function PruneChildren(children: map<Id, seq<Id>>, gone: set<Id>): map<Id, seq<Id>> {
    map p | p in children && p !in gone :: Without(children[p], gone)
  }

  /** The state in which the requests in `gone` never were: every slot they held is given
      back, every queue keeps the order of the others, nothing else changes. */
  ghost function Prune(s: State, gone: set<Id>): State {
    s.(requests := s.requests - gone,
       parents := s.parents - gone,
       children := PruneChildren(s.children, gone),
       buckets := PruneBuckets(s.requests, s.buckets, gone))
  }

  /** No request outside `gone` has its parent inside. */
  ghost predicate Downward(parents: map<Id, Id>, gone: set<Id>) {
    forall c :: c in parents && parents[c] in gone ==> c in gone
  }

  // ----- Algebra of pruning -----

  lemma {:induction false} PruneNothing(s: State)
    ensures Prune(s, {}) == s
  {
    forall p | p in s.children ensures Without(s.children[p], {}) == s.children[p] {
      WithoutDisjoint(s.children[p], {});
    }
    SameMap(PruneChildren(s.children, {}), s.children);
    forall k | k in s.buckets ensures PruneBucket(s.requests, k, s.buckets[k], {}) == s.buckets[k] {
      PruneNobody(s.requests, k, s.buckets[k]);
    }
    SameMap(PruneBuckets(s.requests, s.buckets, {}), s.buckets);
    SameMap(s.requests - {}, s.requests);
    SameMap(s.parents - {}, s.parents);
  }

  lemma {:induction false} PruneNobody(requests: map<Id, Phase>, k: Key, b: BucketState)
    ensures PruneBucket(requests, k, b, {}) == b
  {
    WithoutDisjoint(b.queue, {});
    assert Holders(requests, k) * {} == {};
  }

  lemma {:induction false} PruneBucketTwice(requests: map<Id, Phase>, k: Key, b: BucketState, x: set<Id>, y: set<Id>)
    ensures PruneBucket(requests - x, k, PruneBucket(requests, k, b, x), y) == PruneBucket(requests, k, b, x + y)
  {
    WithoutTwice(b.queue, x, y);
    assert Holders(requests - x, k) == Holders(requests, k) - x;
    SplitCount(Holders(requests, k), x, y);
  }

  lemma {:induction false} SplitCount(h: set<Id>, x: set<Id>, y: set<Id>)
    ensures |h * (x + y)| == |h * x| + |(h - x) * y|
  {
    assert h * (x + y) == h * x + (h - x) * y;
    assert h * x * ((h - x) * y) == {};
  }

  lemma {:induction false} PruneBucketsTwice(requests: map<Id, Phase>, buckets: map<Key, BucketState>, x: set<Id>, y: set<Id>)
    ensures PruneBuckets(requests - x, PruneBuckets(requests, buckets, x), y) == PruneBuckets(requests, buckets, x + y)
  {
    forall k | k in buckets
      ensures PruneBucket(requests - x, k, PruneBucket(requests, k, buckets[k], x), y) == PruneBucket(requests, k, buckets[k], x + y)
    {
      PruneBucketTwice(requests, k, buckets[k], x, y);
    }
  }

  lemma {:induction false} PruneChildrenTwice(children: map<Id, seq<Id>>, x: set<Id>, y: set<Id>)
    ensures PruneChildren(PruneChildren(children, x), y) == PruneChildren(children, x + y)
  {
    forall p | p in children
      ensures Without(Without(children[p], x), y) == Without(children[p], x + y)
    {
      WithoutTwice(children[p], x, y);
    }
  }

  lemma {:induction false} DropTwice<V>(m: map<Id, V>, x: set<Id>, y: set<Id>)
    ensures m - x - y == m - (x + y)
  {
  }

  lemma {:induction false} PruneTwice(s: State, x: set<Id>, y: set<Id>)
    ensures Prune(Prune(s, x), y) == Prune(s, x + y)
  {
    DropTwice(s.requests, x, y);
    DropTwice(s.parents, x, y);
    PruneChildrenTwice(s.children, x, y);
    PruneBucketsTwice(s.requests, s.buckets, x, y);
  }

  lemma {:induction false} PruneBalances(config: Config, requests: map<Id, Phase>, k: Key, b: BucketState, gone: set<Id>)
    requires Balanced(config, requests, k, b)
    ensures Balanced(config, requests - gone, k, PruneBucket(requests, k, b, gone))
  {
    var h := Holders(requests, k);
    assert Holders(requests - gone, k) == h - gone;
    assert h == (h - gone) + h * gone;
    WithoutKeepsDistinct(b.queue, gone);
  }

  lemma {:induction false} PruneKeepsLinks(live: set<Id>, parents: map<Id, Id>, children: map<Id, seq<Id>>, gone: set<Id>)
    requires Forest(live, parents, children) && Downward(parents, gone)
    ensures var kept := PruneChildren(children, gone);
            && (forall c :: c in parents - gone ==> c in live - gone && parents[c] in kept && c in kept[parents[c]])
            && (forall p, c :: p in kept && c in kept[p] ==> c in parents - gone && parents[c] == p)
  {
  }

  lemma {:induction false} PruneKeepsForest(live: set<Id>, parents: map<Id, Id>, children: map<Id, seq<Id>>, gone: set<Id>)
    requires Forest(live, parents, children) && Downward(parents, gone)
    ensures Forest(live - gone, parents - gone, PruneChildren(children, gone))
  {
    PruneKeepsLinks(live, parents, children, gone);
    forall p | p in children ensures NoDuplicates(Without(children[p], gone)) {
      WithoutKeepsDistinct(children[p], gone);
    }
    SmallerStaysGrounded(parents, parents - gone);
  }

  lemma {:induction false} PruneKeepsValid(s: State, gone: set<Id>)
    requires Valid(s) && Downward(s.parents, gone)
    ensures Valid(Prune(s, gone))
  {
    forall k | k in s.buckets
      ensures Balanced(s.config, s.requests - gone, k, PruneBucket(s.requests, k, s.buckets[k], gone))
    {
      PruneBalances(s.config, s.requests, k, s.buckets[k], gone);
    }
    PruneKeepsForest(s.requests.Keys, s.parents, s.children, gone);
    assert (s.requests - gone).Keys == s.requests.Keys - gone;
  }

  lemma {:induction false} SmallerStaysGrounded(parents: map<Id, Id>, fewer: map<Id, Id>)
    requires Grounded(parents)
    requires fewer.Keys <= parents.Keys && forall c :: c in fewer ==> fewer[c] == parents[c]
    ensures Grounded(fewer)
  {
    forall d: set<Id> | d != {} && d <= fewer.Keys ensures exists c :: c in d && fewer[c] !in d {
      assert d <= parents.Keys;
      var c :| c in d && parents[c] !in d;
      assert fewer[c] !in d;
    }
  }

  // ----- One iteration of the worklist -----

  lemma {:induction false} ForgetBucket(config: Config, requests: map<Id, Phase>, gone: set<Id>, id: Id, k: Key, b: BucketState)
    requires Balanced(config, requests, k, b)
    requires id in requests && id !in gone
    ensures PruneBucket(requests, k, b, gone + {id}) ==
            var pruned := PruneBucket(requests, k, b, gone);
            var phase := requests[id];
            if phase.Idle? || phase.key != k then pruned else Release(pruned, id, phase)
  {
    var h := Holders(requests, k);
    WithoutTwice(b.queue, gone, {id});
    if requests[id] == Active(k) {
      assert h * (gone + {id}) == h * gone + {id};
    } else {
      assert h * (gone + {id}) == h * gone;
    }
    if !Waits(requests, id, k) {
      WithoutDisjoint(Without(b.queue, gone), {id});
    }
  }

  lemma {:induction false} SameMap<K, V>(m: map<K, V>, m': map<K, V>)
    requires m.Keys == m'.Keys && forall k :: k in m ==> m[k] == m'[k]
    ensures m == m'
  {
  }

  lemma {:induction false} ForgetBuckets(config: Config, requests: map<Id, Phase>, buckets: map<Key, BucketState>, gone: set<Id>, id: Id)
    requires forall k :: k in buckets ==> Balanced(config, requests, k, buckets[k])
    requires id in requests && id !in gone
    ensures PruneBuckets(requests, buckets, gone + {id}) == Returned(PruneBuckets(requests, buckets, gone), id, requests[id])
  {
    var after, returned := PruneBuckets(requests, buckets, gone + {id}), Returned(PruneBuckets(requests, buckets, gone), id, requests[id]);
    forall k | k in buckets ensures after[k] == returned[k] {
      ForgetBucket(config, requests, gone, id, k, buckets[k]);
    }
    SameMap(after, returned);
  }

  lemma {:induction false} ForgetChild(parents: map<Id, Id>, kids: seq<Id>, gone: set<Id>, id: Id, p: Id)
    requires forall c :: c in kids ==> c in parents && parents[c] == p
    ensures Without(kids, gone + {id}) ==
            if id in parents && parents[id] == p then Without(Without(kids, gone), {id}) else Without(kids, gone)
  {
    WithoutTwice(kids, gone, {id});
    if !(id in parents && parents[id] == p) {
      WithoutDisjoint(Without(kids, gone), {id});
    }
  }

  lemma {:induction false} ForgetChildren(live: set<Id>, parents: map<Id, Id>, children: map<Id, seq<Id>>, gone: set<Id>, id: Id)
    requires Forest(live, parents, children)
    requires id in live && id !in gone
    ensures Unlink(parents - gone, PruneChildren(children, gone), id) == PruneChildren(children, gone + {id})
  {
    var unlinked, after := Unlink(parents - gone, PruneChildren(children, gone), id), PruneChildren(children, gone + {id});
    forall p | p in after ensures unlinked[p] == after[p] {
      ForgetChild(parents, children[p], gone, id, p);
    }
    SameMap(unlinked, after);
  }

  lemma {:induction false} ForgetIsPrune(s: State, gone: set<Id>, id: Id)
    requires Valid(s)
    requires id in s.requests && id !in gone
    ensures Forget(Prune(s, gone), id) == Prune(s, gone + {id})
  {
    ForgetBuckets(s.config, s.requests, s.buckets, gone, id);
    ForgetChildren(s.requests.Keys, s.parents, s.children, gone, id);
    DropTwice(s.requests, gone, {id});
    DropTwice(s.parents, gone, {id});
    SameMap((s.requests - gone)[id := Idle] - {id}, s.requests - gone - {id});
  }

  // ----- The worklist -----

  /** Between two iterations: `gone` and `pending` grow from `root` along child links. */
  ghost predicate Frontier(s: State, root: Id, gone: set<Id>, pending: seq<Id>) {
    && gone <= s.requests.Keys
    && NoDuplicates(pending)
    && (forall x :: x in pending ==> x in s.requests && x !in gone)
    && (forall x :: (x in gone || x in pending) && x != root ==> x in s.parents && s.parents[x] in gone)
    && (forall c :: c in s.parents && s.parents[c] in gone ==> c in gone || c in pending)
    && (root in gone || pending == [root])
  }

  /** The root is never met again: a link back to it would close a cycle. */
  lemma {:induction false} RootIsNotBelow(parents: map<Id, Id>, root: Id, gone: set<Id>, id: Id)
    requires Grounded(parents)
    requires forall x :: (x in gone || x == id) && x != root ==> x in parents && parents[x] in gone
    requires root in gone || id == root
    ensures !(root in parents && parents[root] == id)
  {
    if root in parents {
      var d := gone + {id, root};
      assert d <= parents.Keys;
      var c :| c in d && parents[c] !in d;
      assert c == root;
    }
  }

  /** The children of a pending request are fresh and point back to it. */
  lemma {:induction false} KidsAreFresh(s: State, root: Id, gone: set<Id>, pending: seq<Id>, id: Id, c: Id)
    requires Valid(s) && Frontier(s, root, gone, pending) && id in pending
    requires c in ChildrenOf(s, id)
    ensures c !in gone && c !in pending && c != root
    ensures c in s.parents && s.parents[c] == id
  {
    ChildPointsBack(s.requests.Keys, s.parents, s.children, id, c);
    assert id !in gone;
    RootIsNotBelow(s.parents, root, gone, id);
  }

  lemma {:induction false} ChildPointsBack(live: set<Id>, parents: map<Id, Id>, children: map<Id, seq<Id>>, p: Id, c: Id)
    requires Forest(live, parents, children) && p in children && c in children[p]
    ensures c in parents && parents[c] == p
  {
  }

  lemma {:induction false} KidsOfPruned(s: State, root: Id, gone: set<Id>, pending: seq<Id>, id: Id)
    requires Valid(s) && Frontier(s, root, gone, pending) && id in pending
    ensures ChildrenOf(Prune(s, gone), id) == ChildrenOf(s, id)
  {
    if id in s.children {
      forall c | c in s.children[id] ensures c !in gone {
        KidsAreFresh(s, root, gone, pending, id, c);
      }
      WithoutDisjoint(s.children[id], gone);
    }
  }

  lemma {:induction false} FrontierAdvances(s: State, root: Id, gone: set<Id>, rest: seq<Id>, id: Id)
    requires Valid(s) && Frontier(s, root, gone, rest + [id])
    ensures Frontier(s, root, gone + {id}, rest + ChildrenOf(s, id))
  {
    var pending, kids := rest + [id], ChildrenOf(s, id);
    assert pending[|rest|] == id;
    assert forall x :: x in pending <==> x in rest || x == id;
    DistinctConcat(rest, [id]);
    forall c | c in kids
      ensures c !in gone && c !in pending && c != root && c in s.parents && s.parents[c] == id
    {
      KidsAreFresh(s, root, gone, pending, id, c);
    }
    DistinctConcat(rest, kids);
    assert forall x :: x in rest + kids <==> x in rest || x in kids;
  }

  // ----- Families -----

  lemma {:induction false} DescendantIsCaught(parents: map<Id, Id>, root: Id, gone: set<Id>, c: Id, n: nat)
    requires Downward(parents, gone) && root in gone
    requires Descends(parents, c, root, n)
    ensures c in gone
    decreases n
  {
    if n > 0 {
      DescendantIsCaught(parents, root, gone, parents[c], n - 1);
    }
  }

  lemma {:induction false} ChildDescends(parents: map<Id, Id>, c: Id, root: Id)
    requires c in parents && DescendsFrom(parents, parents[c], root)
    ensures DescendsFrom(parents, c, root)
  {
    var n: nat :| Descends(parents, parents[c], root, n);
    assert Descends(parents, c, root, n + 1);
  }

  lemma {:induction false} FamilyIsDownward(s: State, id: Id)
    requires Valid(s)
    ensures Downward(s.parents, Family(s, id))
  {
    forall c | c in s.parents && s.parents[c] in Family(s, id) ensures c in Family(s, id) {
      ChildDescends(s.parents, c, id);
    }
  }

  /** The worklist from `id` removes exactly the family of `id`. */
  lemma {:induction false} FrontierInFamily(s: State, root: Id, gone: set<Id>, rest: seq<Id>, id: Id)
    requires Valid(s) && Frontier(s, root, gone, rest + [id])
    requires gone <= Family(s, root)
    ensures id in Family(s, root)
  {
    assert (rest + [id])[|rest|] == id;
    if id == root {
      assert Descends(s.parents, id, root, 0);
    } else {
      ChildDescends(s.parents, id, root);
    }
  }

  /** The worklist runs dry when the whole family is gone. */
  lemma {:induction false} FrontierEnds(s: State, root: Id, gone: set<Id>)
    requires Valid(s) && Frontier(s, root, gone, []) && gone <= Family(s, root)
    ensures gone == Family(s, root)
  {
    forall c | c in Family(s, root) ensures c in gone {
      var n: nat :| Descends(s.parents, c, root, n);
      DescendantIsCaught(s.parents, root, gone, c, n);
    }
  }

  /** One iteration pops a live relative that was not popped before. */
  lemma {:induction false} CascadeOnce(s: State, root: Id, gone: set<Id>, rest: seq<Id>, id: Id)
    requires Valid(s) && Frontier(s, root, gone, rest + [id]) && gone <= Family(s, root)
    ensures id in s.requests && id !in gone && id in Family(s, root)
    ensures Frontier(s, root, gone + {id}, rest + ChildrenOf(s, id))
    ensures Forget(Prune(s, gone), id) == Prune(s, gone + {id})
    ensures ChildrenOf(Prune(s, gone), id) == ChildrenOf(s, id)
  {
    var pending := rest + [id];
    assert pending[|rest|] == id;
    assert id in pending;
    KidsOfPruned(s, root, gone, pending, id);
    FrontierAdvances(s, root, gone, rest, id);
    FrontierInFamily(s, root, gone, rest, id);
    ForgetIsPrune(s, gone, id);
  }

  lemma {:induction false} CascadeIsPrune(s: State, root: Id, gone: set<Id>, pending: seq<Id>)
    requires Valid(s) && Frontier(s, root, gone, pending)
    requires gone <= Family(s, root)
    ensures Cascade(Prune(s, gone), pending) == Prune(s, Family(s, root))
    decreases s.requests.Keys - gone
  {
    if pending == [] {
      FrontierEnds(s, root, gone);
    } else {
      var rest, id := pending[..|pending| - 1], pending[|pending| - 1];
      assert pending == rest + [id];
      CascadeOnce(s, root, gone, rest, id);
      CascadeIsPrune(s, root, gone + {id}, rest + ChildrenOf(s, id));
    }
  }

  lemma {:induction false} ForgettingNobody(s: State, id: Id)
    requires Valid(s) && id !in s.requests
    ensures Forget(s, id) == s && ChildrenOf(s, id) == []
    ensures Family(s, id) == {}
  {
    assert s.children - {id} == s.children;
    assert s.parents - {id} == s.parents;
    assert s.requests - {id} == s.requests;
    forall c, n: nat | c in s.requests ensures !Descends(s.parents, c, id, n) {
      AncestorsAreLive(s, c, id, n);
    }
  }

  lemma {:induction false} AncestorsAreLive(s: State, c: Id, root: Id, n: nat)
    requires Valid(s) && c in s.requests
    ensures Descends(s.parents, c, root, n) ==> root in s.requests
    decreases n
  {
    if n > 0 && c in s.parents {
      AncestorsAreLive(s, s.parents[c], root, n - 1);
    }
  }

  // ----- How much the worklist does -----

  /** The identifiers in the order in which the worklist pops them. */
  function Popped(s: State, pending: seq<Id>): seq<Id>
    decreases s.children.Keys, |pending|
  {
    if pending == [] then []
    else
      var id := pending[|pending| - 1];
      ForgetShrinks(s, id);
      [id] + Popped(Forget(s, id), pending[..|pending| - 1] + ChildrenOf(s, id))
  }

  lemma {:induction false} PrependFresh(id: Id, tail: seq<Id>, family: set<Id>, gone: set<Id>)
    requires id in family && id !in gone
    requires NoDuplicates(tail) && forall x :: x in tail <==> x in family && x !in gone + {id}
    ensures NoDuplicates([id] + tail) && forall x :: x in [id] + tail <==> x in family && x !in gone
  {
    DistinctConcat([id], tail);
  }

  lemma {:induction false} PopNext(s: State, rest: seq<Id>, id: Id)
    ensures Popped(s, rest + [id]) == [id] + Popped(Forget(s, id), rest + ChildrenOf(s, id))
  {
    assert (rest + [id])[..|rest|] == rest;
  }

  lemma {:induction false} PopsAreFresh(s: State, root: Id, gone: set<Id>, pending: seq<Id>)
    requires Valid(s) && Frontier(s, root, gone, pending)
    requires gone <= Family(s, root)
    ensures var pops := Popped(Prune(s, gone), pending);
            NoDuplicates(pops) && forall x :: x in pops <==> x in Family(s, root) && x !in gone
    decreases s.requests.Keys - gone
  {
    if pending == [] {
      FrontierEnds(s, root, gone);
    } else {
      var rest, id := pending[..|pending| - 1], pending[|pending| - 1];
      assert pending == rest + [id];
      CascadeOnce(s, root, gone, rest, id);
      PopsAreFresh(s, root, gone + {id}, rest + ChildrenOf(s, id));
      PopNext(Prune(s, gone), rest, id);
      PrependFresh(id, Popped(Prune(s, gone + {id}), rest + ChildrenOf(s, id)), Family(s, root), gone);
    }
  }

  /** In every valid state the worklist pops each member of the family once, and nobody else. */
  lemma {:induction false} PopsAreTheFamily(s: State, id: Id)
    requires Valid(s) && id in s.requests
    ensures NoDuplicates(Popped(s, [id]))
    ensures forall x :: x in Popped(s, [id]) <==> x in Family(s, id)
  {
    PruneNothing(s);
    PopsAreFresh(s, id, {}, [id]);
  }

  ghost function Lengths(children: map<Id, seq<Id>>): map<Id, nat> {
    map p | p in children :: |children[p]|
  }

  lemma {:induction false} UnlinkShortens(parents: map<Id, Id>, children: map<Id, seq<Id>>, id: Id)
    ensures Sum(Lengths(Unlink(parents, children, id))) + (if id in children then |children[id]| else 0) <= Sum(Lengths(children))
  {
    var fewer, all := Lengths(Unlink(parents, children, id)), Lengths(children);
    SumMonotone(fewer, all - {id});
    if id in children {
      SumWithout(all, id);
    } else {
      SameMap(all - {id}, all);
    }
  }

  /** In every state whatsoever, valid or not, each iteration uses up one pending identifier or
      one child link: their number bounds the work. */
  lemma {:induction false} WorkIsBounded(s: State, pending: seq<Id>)
    ensures |Popped(s, pending)| <= |pending| + Sum(Lengths(s.children))
    decreases s.children.Keys, |pending|
  {
    if pending != [] {
      var id := pending[|pending| - 1];
      ForgetShrinks(s, id);
      UnlinkShortens(s.parents, s.children, id);
      WorkIsBounded(Forget(s, id), pending[..|pending| - 1] + ChildrenOf(s, id));
    }
  }

  // ----- Theorems -----

  /** `complete` removes the request and precisely its live descendants; see `Prune` for the rest. */
  lemma {:induction false} CompleteIsExact(s: State, id: Id)
    requires Valid(s)
    ensures Complete(s, id) == Prune(s, Family(s, id))
    ensures Valid(Complete(s, id))
  {
    if id in s.requests {
      PruneNothing(s);
      CascadeIsPrune(s, id, {}, [id]);
    } else {
      ForgettingNobody(s, id);
      PruneNothing(s);
      assert Cascade(s, [id]) == Cascade(Forget(s, id), [id][..0] + ChildrenOf(s, id));
    }
    FamilyIsDownward(s, id);
    PruneKeepsValid(s, Family(s, id));
  }

  lemma {:induction false} DescendsAvoiding(s: State, gone: set<Id>, c: Id, root: Id, n: nat)
    requires Downward(s.parents, gone)
    requires c !in gone
    ensures Descends(s.parents, c, root, n) <==> Descends(s.parents - gone, c, root, n)
    decreases n
  {
    if n > 0 && c in s.parents {
      DescendsAvoiding(s, gone, s.parents[c], root, n - 1);
    }
  }

  lemma {:induction false} FamilyAfterPrune(s: State, gone: set<Id>, id: Id)
    requires Downward(s.parents, gone)
    ensures Family(Prune(s, gone), id) == Family(s, id) - gone
  {
    forall c | c in s.requests && c !in gone
      ensures DescendsFrom(s.parents, c, id) <==> DescendsFrom(s.parents - gone, c, id)
    {
      forall n: nat ensures Descends(s.parents, c, id, n) <==> Descends(s.parents - gone, c, id, n) {
        DescendsAvoiding(s, gone, c, id, n);
      }
    }
  }

  /** Two completions remove the union of the two families, whatever their order. */
  lemma {:induction false} CompleteTwice(s: State, x: Id, y: Id)
    requires Valid(s)
    ensures Complete(Complete(s, x), y) == Prune(s, Family(s, x) + Family(s, y))
  {
    var fx, fy := Family(s, x), Family(s, y);
    CompleteIsExact(s, x);
    CompleteIsExact(Complete(s, x), y);
    FamilyIsDownward(s, x);
    FamilyAfterPrune(s, fx, y);
    PruneTwice(s, fx, fy - fx);
    assert fx + (fy - fx) == fx + fy;
  }

  lemma {:induction false} CompletionsCommute(s: State, x: Id, y: Id)
    requires Valid(s)
    ensures Complete(Complete(s, x), y) == Complete(Complete(s, y), x)
  {
    CompleteTwice(s, x, y);
    CompleteTwice(s, y, x);
    assert Family(s, x) + Family(s, y) == Family(s, y) + Family(s, x);
  }

  lemma {:induction false} CompletionIsIdempotent(s: State, id: Id)
    requires Valid(s)
    ensures Complete(Complete(s, id), id) == Complete(s, id)
  {
    CompleteTwice(s, id, id);
    CompleteIsExact(s, id);
    assert Family(s, id) + Family(s, id) == Family(s, id);
  }

  /** A request that has ended with `id` stays ended: late attempts, polls, nested registrations and
      completions that name it change nothing, until it is registered again. */
  lemma {:induction false} EndedIsInert(s: State, id: Id, x: Id, child: Id, k: Key, now: int)
    requires Valid(s) && x in Family(s, id)
    ensures var t := Complete(s, id);
            && Start(t, x, k, now) == (t, Reject(if t.stopping then Stopping else RequestEnded))
            && Poll(t, x, now) == (t, Reject(if t.stopping then Stopping else RequestEnded))
            && BeginChild(t, child, x) == (t, Refused(RequestEnded))
            && Complete(t, x) == t
  {
    CompleteIsExact(s, id);
    var t := Complete(s, id);
    ForgettingNobody(t, x);
    CompleteIsExact(t, x);
    PruneNothing(t);
  }
}
