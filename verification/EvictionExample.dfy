/** A run from a new engine whose replies show that a bucket was evicted: it raises a burst. */
module EvictionExample {
  import opened Config
  import opened TokenBucket
  import opened Admission
  import opened Ledger
  import opened Completion
  import opened Reachability
  import opened Effects
  import opened Eviction
  import Limits

  const SECOND: int := 1_000_000_000

  /** One request a second, up to `burst` at once, for at most two credentials. */
  function Example(burst: nat): Config {
    Config(true, 10, 2, Policy(true, 60, burst, 0, 5, 1000), map[], true)
  }

  /** The situation of `RaisingABurstShows`: `a` is being served on `j`, and the bucket of `k` is full. */
  function BusyAndFull(): State {
    var policy := Example(1).PolicyFor("j");
    State(Example(1), map["a" := Active("j"), "c" := Idle, "d" := Idle], map[], map[],
          map["j" := BucketState(policy, 0, 0, 1, []), "k" := NewBucket(policy, 0)], false)
  }

  lemma {:induction false} BusyAndFullIsBalanced()
    ensures Books(BusyAndFull())
  {
    var n := BusyAndFull();
    assert Holders(n.requests, "j") == {"a"};
    assert Holders(n.requests, "k") == {};
  }

  lemma {:induction false} AboutToRaiseHappens()
    ensures var n := BusyAndFull();
            && AboutToRaise(n, Example(2), "j", "k", 0)
            && "c" in n.requests && "d" in n.requests && n.requests["c"] == n.requests["d"] == Idle
  {
    BusyAndFullIsBalanced();
  }

  /** "a" takes the only token of "k" and ends. A second later the bucket is full again, and the
      attempt of "b" on "j" evicts it. Then the burst is raised, and "c" and "d" ask for "k". */
  function Script(): seq<Op> {
    [Registration("a")] + ([Registration("b")] + ([Registration("c")] + ([Registration("d")] +
    ([Attempt("a", "k", 0)] + ([Completion("a")] + Ending())))))
  }

  function Ending(): seq<Op> {
    [Attempt("b", "j", SECOND)] + ([Reload(Example(2), SECOND)] + LastTwo())
  }

  function LastTwo(): seq<Op> {
    [Attempt("c", "k", SECOND)] + ([Attempt("d", "k", SECOND)] + [])
  }

  ghost predicate Differ(e: State, n: State, ops: seq<Op>) {
    Replies(e, ops) != KeepingReplies(e, n, ops)
  }

  lemma {:induction false} RepliesNext(e: State, n: State, op: Op, rest: seq<Op>)
    ensures Replies(e, [op] + rest) == [Step(e, op).1] + Replies(Step(e, op).0, rest)
    ensures var (n', reply) := KeepingStep(n, op, Refuses(e, op));
            KeepingReplies(e, n, [op] + rest) == [reply] + KeepingReplies(Step(e, op).0, n', rest)
  {
    assert ([op] + rest)[0] == op && ([op] + rest)[1..] == rest;
  }

  lemma {:induction false} FirstOrRest<T>(x: T, y: T, a: seq<T>, b: seq<T>)
    ensures [x] + a == [y] + b <==> x == y && a == b
  {
    assert ([x] + a)[0] == x && ([x] + a)[1..] == a && ([y] + b)[0] == y && ([y] + b)[1..] == b;
  }

  /** The replies differ if the first ones do, or the later ones. */
  lemma {:induction false} DifferIff(e: State, n: State, op: Op, rest: seq<Op>)
    ensures var (n', reply) := KeepingStep(n, op, Refuses(e, op));
            Differ(e, n, [op] + rest) <==> Step(e, op).1 != reply || Differ(Step(e, op).0, n', rest)
  {
    var (n', reply) := KeepingStep(n, op, Refuses(e, op));
    RepliesNext(e, n, op, rest);
    FirstOrRest(Step(e, op).1, reply, Replies(Step(e, op).0, rest), KeepingReplies(Step(e, op).0, n', rest));
  }

  lemma {:induction false} AttemptFirst(e: State, n: State, id: Id, k: Key, now: int, rest: seq<Op>)
    requires !Refuses(e, Attempt(id, k, now))
    requires Differ(Start(e, id, k, now).0, KeepingStart(n, id, k, now, false).0, rest)
    ensures Differ(e, n, [Attempt(id, k, now)] + rest)
  {
    DifferIff(e, n, Attempt(id, k, now), rest);
  }

  lemma {:induction false} ReloadFirst(e: State, n: State, config: Config, now: int, rest: seq<Op>)
    requires Differ(Reconfigure(e, config, now), Reconfigure(n, config, now), rest)
    ensures Differ(e, n, [Reload(config, now)] + rest)
  {
    DifferIff(e, n, Reload(config, now), rest);
  }

  lemma {:induction false} CompletionFirst(e: State, n: State, id: Id, rest: seq<Op>)
    requires Differ(Complete(e, id), Complete(n, id), rest)
    ensures Differ(e, n, [Op.Completion(id)] + rest)
  {
    DifferIff(e, n, Op.Completion(id), rest);
  }

  lemma {:induction false} RoomForAnother(s: State, id: Id, k: Key, now: int)
    requires s.config.maxCredentials >= 2 && |s.buckets| <= 1
    ensures !Crowded(s, id, k, now)
  {
    DetachKeepsKeys(s, id);
    Limits.FewerKeys(Evict(Detach(s, id).buckets, now), s.buckets);
  }

  lemma {:induction false} KeepingKeys(s: State, id: Id, k: Key, now: int)
    requires Proceeds(s, id) && s.config.PolicyFor(k).enabled
    ensures KeepingStart(s, id, k, now, false).0.buckets.Keys == s.buckets.Keys + {k}
  {
    var t := Detach(s, id);
    DetachKeepsKeys(s, id);
    if k in t.buckets {
      OfferKeepsKeys(t, id, k, now);
    } else {
      SameKeys(t, k, NewBucket(t.config.PolicyFor(k), now));
      OfferKeepsKeys(SetBucket(t, k, NewBucket(t.config.PolicyFor(k), now)), id, k, now);
    }
  }

  // ----- Up to the completion of "a" -----

  /** Idle requests, among them `id`, and no links. */
  predicate Awaits(s: State, id: Id) {
    id in s.requests && s.requests[id] == Idle
  }

  ghost predicate Started(s: State) {
    && Sound(s, 0) && s.config == Example(1) && !s.stopping && s.parents == map[]
    && Awaits(s, "b") && Awaits(s, "c") && Awaits(s, "d")
  }

  function Begun(): State {
    State(Example(1), map["a" := Idle, "b" := Idle, "c" := Idle, "d" := Idle], map[], map[], map[], false)
  }

  lemma {:induction false} BegunIsStarted()
    ensures Started(Begun()) && Awaits(Begun(), "a")
  {
  }

  /** "a" has taken the token of "k". */
  lemma {:induction false} FirstOnBoth()
    ensures var e, n := Start(Begun(), "a", "k", 0).0, KeepingStart(Begun(), "a", "k", 0, false).0;
            && !Refuses(Begun(), Attempt("a", "k", 0))
            && Started(e) && e.buckets.Keys == {"k"} && At(e, "k", 0).tokens == 0 && At(e, "k", 0).queue == []
            && Started(n) && n.buckets.Keys == {"k"} && At(n, "k", 0).tokens == 0 && At(n, "k", 0).queue == []
            && e.requests == n.requests == Begun().requests["a" := Active("k")]
  {
    var s := Begun();
    BegunIsStarted();
    RoomForAnother(s, "a", "k", 0);
    StartEffect(s, "a", "k", 0, "k");
    StartKeepsLinks(s, "a", "k", 0);
    StepKeepsSound(s, Attempt("a", "k", 0), 0);
    KeepingEffect(s, "a", "k", 0, false, "k");
    KeepingStartKeepsSound(s, "a", "k", 0, false);
    KeepingKeys(s, "a", "k", 0);
    StartKeysExact(s, "a", "k", 0);
  }

  lemma {:induction false} NoLinksNoFamily(s: State, id: Id)
    requires s.parents == map[] && id in s.requests
    ensures Family(s, id) == {id}
  {
    assert Descends(s.parents, id, id, 0);
    forall c | c in Family(s, id) ensures c == id {
      var n: nat :| Descends(s.parents, c, id, n);
    }
  }

  /** "a" has ended: nobody is served any more, the token is gone. */
  lemma {:induction false} AfterCompletion(s: State)
    requires Started(s) && s.buckets.Keys == {"k"} && At(s, "k", 0).tokens == 0 && At(s, "k", 0).queue == []
    requires s.requests == Begun().requests["a" := Active("k")]
    ensures var t := Complete(s, "a");
            && Started(t) && t.buckets.Keys == {"k"}
            && At(t, "k", 0).tokens == 0 && At(t, "k", 0).queue == [] && At(t, "k", 0).active == 0
  {
    NoLinksNoFamily(s, "a");
    CompleteIsExact(s, "a");
    CompleteEffect(s, "a", "k", 0);
    StepKeepsSound(s, Op.Completion("a"), 0);
    AtIsBalanced(Complete(s, "a"), "k", 0);
    assert Holders(Complete(s, "a").requests, "k") == {};
  }

  /** A second later the bucket is full. */
  lemma {:induction false} FullAgain(s: State)
    requires Started(s) && "k" in s.buckets
    requires At(s, "k", 0).tokens == 0 && At(s, "k", 0).queue == [] && At(s, "k", 0).active == 0
    ensures Sound(s, SECOND) && At(s, "k", SECOND).tokens == UNIT && At(s, "k", SECOND).queue == [] && Evictable(At(s, "k", SECOND))
  {
    AtIsBalanced(s, "k", 0);
    LaterClock(s, 0, SECOND);
    AtLater(s, "k", 0, SECOND);
  }

  // ----- From the eviction on -----

  /** The evicting engine forgets "k". */
  lemma {:induction false} Evicts(s: State)
    requires Sound(s, SECOND) && s.config == Example(1) && !s.stopping && s.buckets.Keys == {"k"}
    requires Awaits(s, "b") && Awaits(s, "c") && Awaits(s, "d")
    requires Evictable(At(s, "k", SECOND))
    ensures var t := Start(s, "b", "j", SECOND).0;
            && !Refuses(s, Attempt("b", "j", SECOND))
            && Sound(t, SECOND) && t.config == Example(1) && !t.stopping && t.buckets.Keys == {"j"}
            && Awaits(t, "c") && Awaits(t, "d")
  {
    assert |s.buckets| == |s.buckets.Keys|;
    RoomForAnother(s, "b", "j", SECOND);
    EvictsAll(s);
    StartKeysExact(s, "b", "j", SECOND);
    AttemptKeepsSound(s, "b", "j", SECOND);
    StartKeepsLinks(s, "b", "j", SECOND);
    StartEffect(s, "b", "j", SECOND, "j");
  }

  lemma {:induction false} EvictsAll(s: State)
    requires Awaits(s, "b") && s.buckets.Keys == {"k"} && Evictable(At(s, "k", SECOND))
    ensures Evict(Detach(s, "b").buckets, SECOND).Keys == {}
  {
  }

  /** The keeping one does not. */
  lemma {:induction false} Keeps(s: State)
    requires Sound(s, SECOND) && s.config == Example(1) && !s.stopping && "k" in s.buckets
    requires Awaits(s, "b") && Awaits(s, "c") && Awaits(s, "d")
    requires At(s, "k", SECOND).tokens == UNIT && At(s, "k", SECOND).queue == []
    ensures var t := KeepingStart(s, "b", "j", SECOND, false).0;
            && Sound(t, SECOND) && t.config == Example(1) && !t.stopping && "k" in t.buckets
            && At(t, "k", SECOND).tokens == UNIT && At(t, "k", SECOND).queue == []
            && Awaits(t, "c") && Awaits(t, "d")
  {
    KeepingStartKeepsSound(s, "b", "j", SECOND, false);
    KeepingEffect(s, "b", "j", SECOND, false, "k");
    KeepingKeys(s, "b", "j", SECOND);
  }

  lemma {:induction false} AdmittedIsNotRefused(s: State, id: Id, k: Key, now: int)
    requires Books(s) && s.config.Valid() && s.config.PolicyFor(k).enabled && Start(s, id, k, now).1 == Admit
    ensures !Refuses(s, Attempt(id, k, now))
  {
    StartEffect(s, id, k, now, k);
  }

  /** The evicting engine admits both. */
  lemma {:induction false} BothAreAdmitted(e: State)
    requires Sound(e, SECOND) && Reconfigurable(e, Example(2)) && e.buckets.Keys == {"j"} && Awaits(e, "c") && Awaits(e, "d")
    ensures var e1 := Reconfigure(e, Example(2), SECOND);
            var e2 := Start(e1, "c", "k", SECOND).0;
            && !Refuses(e1, Attempt("c", "k", SECOND)) && !Refuses(e2, Attempt("d", "k", SECOND))
            && Start(e2, "d", "k", SECOND).1 == Admit
  {
    var e1 := Reconfigure(e, Example(2), SECOND);
    RoomForOne(e1, "c", "j", "k", SECOND);
    EvictingSide(e, Example(2), "j", "k", "c", "d", SECOND);
    ReconfigureKeepsSound(e, Example(2), SECOND);
    AttemptKeepsSound(e1, "c", "k", SECOND);
    StartKeepsLinks(e1, "c", "k", SECOND);
    AdmittedIsNotRefused(Start(e1, "c", "k", SECOND).0, "d", "k", SECOND);
  }

  lemma {:induction false} LastTwoDiffer(e: State, n: State)
    requires Sound(e, SECOND) && Reconfigurable(e, Example(2)) && e.buckets.Keys == {"j"} && Awaits(e, "c") && Awaits(e, "d")
    requires Sound(n, SECOND) && Reconfigurable(n, Example(2)) && "k" in n.buckets && Awaits(n, "c") && Awaits(n, "d")
    requires At(n, "k", SECOND).tokens == UNIT && At(n, "k", SECOND).queue == []
    ensures Differ(Reconfigure(e, Example(2), SECOND), Reconfigure(n, Example(2), SECOND), LastTwo())
  {
    var e1, n1 := Reconfigure(e, Example(2), SECOND), Reconfigure(n, Example(2), SECOND);
    BothAreAdmitted(e);
    KeepingSide(n, Example(2), "k", "c", "d", SECOND);
    LastDiffers(Start(e1, "c", "k", SECOND).0, KeepingStart(n1, "c", "k", SECOND, false).0);
    AttemptFirst(e1, n1, "c", "k", SECOND, [Attempt("d", "k", SECOND)] + []);
  }

  lemma {:induction false} LastDiffers(e: State, n: State)
    requires !Refuses(e, Attempt("d", "k", SECOND))
    requires Start(e, "d", "k", SECOND).1 != KeepingStart(n, "d", "k", SECOND, false).1
    ensures Differ(e, n, [Attempt("d", "k", SECOND)] + [])
  {
    DifferIff(e, n, Attempt("d", "k", SECOND), []);
  }

  lemma {:induction false} EndingDiffers(e: State, n: State)
    requires Sound(e, SECOND) && e.config == Example(1) && !e.stopping && e.buckets.Keys == {"k"}
    requires Awaits(e, "b") && Awaits(e, "c") && Awaits(e, "d") && Evictable(At(e, "k", SECOND))
    requires Sound(n, SECOND) && n.config == Example(1) && !n.stopping && "k" in n.buckets
    requires Awaits(n, "b") && Awaits(n, "c") && Awaits(n, "d")
    requires At(n, "k", SECOND).tokens == UNIT && At(n, "k", SECOND).queue == []
    ensures Differ(e, n, Ending())
  {
    var e1, n1 := Start(e, "b", "j", SECOND).0, KeepingStart(n, "b", "j", SECOND, false).0;
    Evicts(e);
    Keeps(n);
    LastTwoDiffer(e1, n1);
    ReloadFirst(e1, n1, Example(2), SECOND, LastTwo());
    AttemptFirst(e, n, "b", "j", SECOND, [Reload(Example(2), SECOND)] + LastTwo());
  }

  lemma {:induction false} FromTheCompletion(e: State, n: State)
    requires Started(e) && e.buckets.Keys == {"k"} && At(e, "k", 0).tokens == 0 && At(e, "k", 0).queue == []
    requires Started(n) && n.buckets.Keys == {"k"} && At(n, "k", 0).tokens == 0 && At(n, "k", 0).queue == []
    requires e.requests == n.requests == Begun().requests["a" := Active("k")]
    ensures Differ(e, n, [Op.Completion("a")] + Ending())
  {
    AfterCompletion(e);
    AfterCompletion(n);
    FullAgain(Complete(e, "a"));
    FullAgain(Complete(n, "a"));
    EndingDiffers(Complete(e, "a"), Complete(n, "a"));
    CompletionFirst(e, n, "a", Ending());
  }

  lemma {:induction false} FromTheFirstAttempt()
    ensures Differ(Begun(), Begun(), [Attempt("a", "k", 0)] + ([Op.Completion("a")] + Ending()))
  {
    FirstOnBoth();
    FromTheCompletion(Start(Begun(), "a", "k", 0).0, KeepingStart(Begun(), "a", "k", 0, false).0);
    AttemptFirst(Begun(), Begun(), "a", "k", 0, [Op.Completion("a")] + Ending());
  }

  /** One more idle request. */
  function With(s: State, id: Id): State {
    s.(requests := s.requests[id := Idle])
  }

  lemma {:induction false} RegistersFirst(s: State, id: Id, rest: seq<Op>)
    requires !s.stopping && id !in s.requests && |s.requests| < s.config.maxTrackedRequests
    requires Differ(With(s, id), With(s, id), rest)
    ensures Differ(s, s, [Registration(id)] + rest)
  {
    DifferIff(s, s, Registration(id), rest);
  }

  /** From a new engine, in clock order: the evicting engine answers one operation of the script
      differently, so raising a burst cannot be allowed in `EvictionIsUnobservable`. */
  lemma {:induction false} RaisingABurstShowsInARun()
    ensures Example(1).Valid() && Chronological(Script(), 0)
    ensures Replies(Initial(Example(1)), Script()) != KeepingReplies(Initial(Example(1)), Initial(Example(1)), Script())
  {
    var s0 := Initial(Example(1));
    var s1, s2 := With(s0, "a"), With(With(s0, "a"), "b");
    var s3 := With(s2, "c");
    var rest := [Attempt("a", "k", 0)] + ([Op.Completion("a")] + Ending());
    assert With(s3, "d") == Begun();
    FromTheFirstAttempt();
    RegistersFirst(s3, "d", rest);
    RegistersFirst(s2, "c", [Registration("d")] + rest);
    RegistersFirst(s1, "b", [Registration("c")] + ([Registration("d")] + rest));
    RegistersFirst(s0, "a", [Registration("b")] + ([Registration("c")] + ([Registration("d")] + rest)));
    ScriptIsChronological();
  }

  lemma {:induction false} Later(op: Op, rest: seq<Op>, clock: int)
    requires clock <= Clock(op, clock) && Chronological(rest, Clock(op, clock))
    ensures Chronological([op] + rest, clock)
  {
    assert ([op] + rest)[1..] == rest;
  }

  lemma {:induction false} EndingIsChronological()
    ensures Chronological(Ending(), 0)
  {
    var d := [Attempt("d", "k", SECOND)] + [];
    Later(Attempt("d", "k", SECOND), [], SECOND);
    Later(Attempt("c", "k", SECOND), d, SECOND);
    Later(Reload(Example(2), SECOND), LastTwo(), SECOND);
    Later(Attempt("b", "j", SECOND), [Reload(Example(2), SECOND)] + LastTwo(), 0);
  }

  lemma {:induction false} ScriptIsChronological()
    ensures Chronological(Script(), 0)
  {
    EndingIsChronological();
    var attempt := [Attempt("a", "k", 0)] + ([Op.Completion("a")] + Ending());
    Later(Op.Completion("a"), Ending(), 0);
    Later(Attempt("a", "k", 0), [Op.Completion("a")] + Ending(), 0);
    Later(Registration("d"), attempt, 0);
    Later(Registration("c"), [Registration("d")] + attempt, 0);
    Later(Registration("b"), [Registration("c")] + ([Registration("d")] + attempt), 0);
    Later(Registration("a"), [Registration("b")] + ([Registration("c")] + ([Registration("d")] + attempt)), 0);
  }
}
