/** The admission engine as a value: its state, every operation as a function of that
    state, and runs of operations. The class `Engine` refines these functions. */
module Admission {
  import opened Config
  import opened Sequences
  import opened TokenBucket

  type Id = string

  /** The one kind of scope there is: a credential, named by its opaque identifier. */
  type Key = string

  datatype Rejection = QueueFull | QueueTimeout | RequestEnded | DuplicateWait | Capacity | Stopping

  /** `Panicked` stands for a failed `expect`; `NeverPanics` shows it is unreachable. */
  datatype Decision = Admit | WaitUntil(instant: int) | Reject(reason: Rejection) | Panicked

  datatype Phase = Idle | Active(key: Key) | Queued(key: Key, deadline: int)

  datatype State = State(
    config: Config,
    requests: map<Id, Phase>,
    parents: map<Id, Id>,
    children: map<Id, seq<Id>>,
    buckets: map<Key, BucketState>,
    stopping: bool)

  function Initial(config: Config): State {
    State(config, map[], map[], map[], map[], false)
  }

  datatype Registered = Accepted | Refused(reason: Rejection)

  function Begin(s: State, id: Id): (State, Registered) {
    if s.stopping then (s, Refused(Stopping))
    else if id in s.requests then (s, Accepted)
    else if |s.requests| >= s.config.maxTrackedRequests then (s, Refused(Capacity))
    else (s.(requests := s.requests[id := Idle]), Accepted)
  }

  function ChildrenOf(s: State, id: Id): seq<Id> {
    if id in s.children then s.children[id] else []
  }

  function BeginChild(s: State, id: Id, parent: Id): (State, Registered) {
    if id == parent || parent !in s.requests || id in s.requests then (s, Refused(RequestEnded))
    else
      var (t, result) := Begin(s, id);
      if result.Refused? then (t, result)
      else
        (t.(parents := t.parents[id := parent],
            children := t.children[parent := ChildrenOf(t, parent) + [id]]),
         Accepted)
  }

  /** What a bucket looks like once `id`, in phase `phase` on it, is taken off. */
  function Release(b: BucketState, id: Id, phase: Phase): BucketState {
    match phase
    case Idle => b
    case Active(_) => b.(active := b.active - 1)
    case Queued(_, _) => b.(queue := Without(b.queue, {id}))
  }

  /** The buckets once `id`, in phase `phase`, holds nothing of them. */
  function Returned(buckets: map<Key, BucketState>, id: Id, phase: Phase): map<Key, BucketState> {
    if phase.Idle? || phase.key !in buckets then buckets
    else buckets[phase.key := Release(buckets[phase.key], id, phase)]
  }

  /** Return a request to Idle and give back what it held. */
  function Detach(s: State, id: Id): State {
    if id !in s.requests then s
    else s.(requests := s.requests[id := Idle], buckets := Returned(s.buckets, id, s.requests[id]))
  }

  function SetBucket(s: State, k: Key, b: BucketState): State {
    s.(buckets := s.buckets[k := b])
  }

  predicate AtHead(b: BucketState, id: Id) {
    b.queue != [] && b.queue[0] == id
  }

  function Poll(s: State, id: Id, now: int): (State, Decision) {
    if s.stopping then (Detach(s, id), Reject(Stopping))
    else if id !in s.requests then (s, Reject(RequestEnded))
    else match s.requests[id]
      case Idle => (s, Admit)
      case Active(_) => (s, Admit)
      case Queued(k, deadline) =>
        if now >= deadline then (Detach(s, id), Reject(QueueTimeout))
        else if k !in s.buckets then (s, Panicked)
        else
          var b := Refill(s.buckets[k], now);
          var t := SetBucket(s, k, b);
          if !b.policy.enabled then (Detach(t, id), Admit)
          else if AtHead(b, id) && Available(b) then
            (SetBucket(t, k, Charge(b.(queue := b.queue[1..]))).(requests := t.requests[id := Active(k)]), Admit)
          else
            (t, WaitUntil(if AtHead(b, id) then WakeAt(b, now, deadline) else deadline))
  }

  /** Refill every bucket and drop the idle ones that are full. */
  function Evict(buckets: map<Key, BucketState>, now: int): map<Key, BucketState> {
    map k | k in buckets && !Evictable(Refill(buckets[k], now)) :: Refill(buckets[k], now)
  }

  /** Put `id` at the end of the queue of `k`. */
  function Enqueue(s: State, id: Id, k: Key, deadline: int): State
    requires k in s.buckets
  {
    SetBucket(s, k, s.buckets[k].(queue := s.buckets[k].queue + [id])).(requests := s.requests[id := Queued(k, deadline)])
  }

  /** The bucket of an attempt, refilled and then joined by the request. */
  function Joining(s: State, id: Id, k: Key, now: int): State
    requires k in s.buckets
  {
    var b := Refill(s.buckets[k], now);
    Enqueue(SetBucket(s, k, b), id, k, now + b.policy.queueTimeoutMs * NANOS_PER_MILLI)
  }

  /** The part of an attempt that follows once the credential has a bucket. */
  function Offer(s: State, id: Id, k: Key, now: int): (State, Decision)
    requires k in s.buckets
  {
    var b := Refill(s.buckets[k], now);
    var t := SetBucket(s, k, b);
    if b.queue == [] && Available(b) then
      (SetBucket(t, k, Charge(b)).(requests := t.requests[id := Active(k)]), Admit)
    else if |b.queue| >= b.policy.maxQueue then (t, Reject(QueueFull))
    else Poll(Joining(s, id, k, now), id, now)
  }

  /** There is no bucket for `k` and, after eviction, no room for one. */
  predicate NoRoom(s: State, k: Key, now: int) {
    k !in s.buckets && |Evict(s.buckets, now)| >= s.config.maxCredentials
  }

  /** Find or make the bucket of an enabled credential, then offer. */
  function Seat(s: State, id: Id, k: Key, now: int): (State, Decision) {
    if k in s.buckets then Offer(s, id, k, now)
    else
      var t := s.(buckets := Evict(s.buckets, now));
      if NoRoom(s, k, now) then (t, Reject(Capacity))
      else Offer(SetBucket(t, k, NewBucket(t.config.PolicyFor(k), now)), id, k, now)
  }

  function Start(s: State, id: Id, k: Key, now: int): (State, Decision) {
    if s.stopping then (s, Reject(Stopping))
    else if id !in s.requests then (s, Reject(RequestEnded))
    else if s.requests[id].Queued? then (s, Reject(DuplicateWait))
    else
      var t := Detach(s, id);
      if !t.config.PolicyFor(k).enabled then (t, Admit) else Seat(t, id, k, now)
  }

  /** The child lists without the entry of `id` and without its mention under its parent. */
  function Unlink(parents: map<Id, Id>, children: map<Id, seq<Id>>, id: Id): map<Id, seq<Id>> {
    var others := children - {id};
    if id in parents && parents[id] in others then
      others[parents[id] := Without(others[parents[id]], {id})]
    else others
  }

  /** One iteration of the cancellation worklist: forget `id` and its links. */
  function Forget(s: State, id: Id): State {
    var t := Detach(s.(children := Unlink(s.parents, s.children, id), parents := s.parents - {id}), id);
    t.(requests := t.requests - {id})
  }

  /** The cancellation worklist: the last pending request is popped, its children are pushed. */
  function Cascade(s: State, pending: seq<Id>): State
    decreases s.children.Keys, |pending|
  {
    if pending == [] then s
    else
      var id := pending[|pending| - 1];
      ForgetShrinks(s, id);
      Cascade(Forget(s, id), pending[..|pending| - 1] + ChildrenOf(s, id))
  }

  lemma {:induction false} ForgetShrinks(s: State, id: Id)
    ensures Forget(s, id).children.Keys == s.children.Keys - {id}
  {
  }

  function Complete(s: State, id: Id): State {
    Cascade(s, [id])
  }

  function Repolicy(b: BucketState, policy: Policy, now: int): BucketState {
    var refilled := Refill(b, now);
    refilled.(tokens := Min(refilled.tokens, Full(policy)), policy := policy)
  }

  predicate Reconfigurable(s: State, config: Config) {
    config.Valid() && !s.stopping
  }

  function Reconfigure(s: State, config: Config, now: int): State {
    if !Reconfigurable(s, config) then s
    else
      s.(buckets := map k | k in s.buckets :: Repolicy(s.buckets[k], config.PolicyFor(k), now),
         config := config)
  }

  function Stop(s: State): State { s.(stopping := true) }

  // ----- Runs -----

  datatype Op =
    | Registration(id: Id)
    | Nested(id: Id, parent: Id)
    | Attempt(id: Id, key: Key, now: int)
    | Recheck(id: Id, now: int)
    | Completion(id: Id)
    | Reload(config: Config, now: int)
    | Quiesce

  datatype Reply = Silent | Registering(registered: Registered) | Deciding(decision: Decision) | Reloaded(accepted: bool)

  function Step(s: State, op: Op): (State, Reply) {
    match op
    case Registration(id) => var (t, r) := Begin(s, id); (t, Registering(r))
    case Nested(id, parent) => var (t, r) := BeginChild(s, id, parent); (t, Registering(r))
    case Attempt(id, k, now) => var (t, d) := Start(s, id, k, now); (t, Deciding(d))
    case Recheck(id, now) => var (t, d) := Poll(s, id, now); (t, Deciding(d))
    case Completion(id) => (Complete(s, id), Silent)
    case Reload(config, now) => (Reconfigure(s, config, now), Reloaded(Reconfigurable(s, config)))
    case Quiesce => (Stop(s), Silent)
  }

  function Run(s: State, ops: seq<Op>): State
    decreases |ops|
  {
    if ops == [] then s else Run(Step(s, ops[0]).0, ops[1..])
  }

  predicate Timed(op: Op) {
    op.Attempt? || op.Recheck? || op.Reload?
  }

  /** The clock after an operation issued when it read `clock`. */
  function Clock(op: Op, clock: int): int {
    if Timed(op) then op.now else clock
  }

  /** The timed operations of a run read a clock that never goes back. */
  predicate Chronological(ops: seq<Op>, clock: int)
    decreases |ops|
  {
    ops == [] || (clock <= Clock(ops[0], clock) && Chronological(ops[1..], Clock(ops[0], clock)))
  }

  /** The operation admitted a request and charged credential `k` for it. */
  predicate Charged(s: State, op: Op, k: Key) {
    var (t, reply) := Step(s, op);
    && reply == Deciding(Admit)
    && op.id in t.requests
    && t.requests[op.id] == Active(k)
    && (op.Recheck? ==> s.requests[op.id].Queued?)
  }
}
