/** What a stop means for everything that comes after it. */
module Stopping {
  import opened Config
  import opened Admission
  import opened Ledger
  import opened Completion
  import opened Reachability
  import opened Runtime
  import opened Accounting

  // ----- Runs -----

  lemma {:induction false} RunInSteps(s: State, a: seq<Op>, b: seq<Op>)
    ensures Run(s, a + b) == Run(Run(s, a), b)
    decreases |a|
  {
    if a == [] {
      assert a + b == b;
    } else {
      RunInSteps(Step(s, a[0]).0, a[1..], b);
      assert (a + b)[1..] == a[1..] + b;
    }
  }

  lemma {:induction false} StaysStopped(s: State, op: Op)
    requires Valid(s) && s.stopping
    ensures Step(s, op).0.stopping
  {
    match op {
      case Attempt(id, k, now) => StartKeepsLinks(s, id, k, now);
      case Recheck(id, now) => PollKeepsLinks(s, id, now);
      case Completion(id) => CompleteIsExact(s, id);
      case _ =>
    }
  }

  lemma {:induction false} RunStaysStopped(s: State, ops: seq<Op>)
    requires Valid(s) && s.stopping
    ensures Run(s, ops).stopping
    decreases |ops|
  {
    if ops != [] {
      StaysStopped(s, ops[0]);
      StepKeepsValid(s, ops[0]);
      RunStaysStopped(Step(s, ops[0]).0, ops[1..]);
    }
  }

  /** The stop itself touches no request, link, bucket or configuration. */
  lemma {:induction false} QuiesceTouchesNothingElse(s: State, before: seq<Op>)
    ensures var u, t := Run(s, before), Run(s, before + [Quiesce]);
            && t.requests == u.requests && t.parents == u.parents && t.children == u.children
            && t.buckets == u.buckets && t.config == u.config
  {
    RunInSteps(s, before, [Quiesce]);
    assert [Quiesce][1..] == [];
  }

  /** How an engine that has been told to stop replies. */
  predicate TurnsDown(op: Op, reply: Reply) {
    match op
    case Registration(_) => reply == Registering(Refused(Rejection.Stopping))
    case Nested(_, _) => reply.Registering? && reply.registered.Refused?
    case Attempt(_, _, _) => reply == Deciding(Reject(Rejection.Stopping))
    case Recheck(_, _) => reply == Deciding(Reject(Rejection.Stopping))
    case Reload(_, _) => reply == Reloaded(false)
    case _ => reply == Silent
  }

  /** Whatever happened before the stop and whatever happens after it: attempts, polls,
      registrations and reloads are turned down, and none of them tracks a request or serves one. */
  lemma {:induction false} NothingAfterQuiesce(s: State, before: seq<Op>, after: seq<Op>, op: Op)
    requires Valid(s)
    ensures var v := Run(s, before + [Quiesce] + after);
            var (t, reply) := Step(v, op);
            && TurnsDown(op, reply)
            && t.requests.Keys <= v.requests.Keys
            && (forall r :: r in t.requests && t.requests[r].Active? ==> v.requests[r] == t.requests[r])
            && t.config == v.config
            && (op.Registration? || op.Nested? || op.Attempt? || op.Reload? ==> t == v)
  {
    var u := Run(s, before);
    RunInSteps(s, before + [Quiesce], after);
    RunInSteps(s, before, [Quiesce]);
    assert [Quiesce][1..] == [];
    RunKeepsValid(s, before);
    StepKeepsValid(u, Quiesce);
    RunStaysStopped(Step(u, Quiesce).0, after);
    RunKeepsValid(Step(u, Quiesce).0, after);
    var v := Run(s, before + [Quiesce] + after);
    match op {
      case Recheck(id, now) => PollKeepsLinks(v, id, now);
      case Completion(id) => CompleteIsExact(v, id);
      case _ =>
    }
  }

  // ----- Threads -----

  lemma {:induction false} TraceInSteps(y: System, a: seq<Event>, b: seq<Event>)
    requires Trace(y, a + b)
    ensures Trace(y, a) && Trace(Reached(y, a), b) && Reached(y, a + b) == Reached(Reached(y, a), b)
    decreases |a|
  {
    if a == [] {
      assert a + b == b;
    } else {
      assert (a + b)[1..] == a[1..] + b;
      TraceInSteps(After(y, a[0]), a[1..], b);
    }
  }

  /** After a call of stop, in every interleaving: no acquire succeeds, those that start or wake up
      are told so, and nothing is registered. */
  lemma {:induction false} NothingAfterHalt(config: Config, clock: int, before: seq<Event>, t: Tid, after: seq<Event>, e: Event)
    requires config.Valid()
    requires Trace(Origin(config, clock), before + [Halt(t)] + after)
    ensures var z := Reached(Origin(config, clock), before + [Halt(t)] + after);
            && !Admits(z, e)
            && (Enabled(z, e) && (e.Enter? || e.Awake?) ==> Of(After(z, e), e.t).decision == Reject(Rejection.Stopping))
            && (Enabled(z, e) && (e.Register? || e.RegisterChild?) ==> After(z, e).engine == z.engine)
  {
    var y := Origin(config, clock);
    OriginInv(config, clock);
    TraceInSteps(y, before + [Halt(t)], after);
    TraceInSteps(y, before, [Halt(t)]);
    var x := Reached(y, before);
    assert [Halt(t)][1..] == [] && Reached(x, [Halt(t)]) == After(x, Halt(t));
    TraceKeepsInv(y, before);
    StepKeepsInv(x, Halt(t));
    NothingAfterStop(After(x, Halt(t)), after, e);
  }
}
