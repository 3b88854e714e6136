# cpa-stg: verified model

This project models the admission plugin and the streaming router of cpa-stg in Dafny and proves
what they promise: the admission engine with its blocking wrapper (`src/engine.rs`,
`src/runtime.rs`, and the parts of `src/config.rs` they use), the incremental rewriter of
server-sent events (`src/error_mapping.rs`), and the router's workers (`src/router.rs`).
`dafny verify dfyconfig.toml` checks everything.

## How the model is laid out

Admission:

- `Config`, `TokenBucket`, `Admission`: policies, one bucket, and the whole engine as values. Every
  engine operation is a function on the state; `Step` and `Run` are one operation and a sequence of
  them, in any order and with any arguments.
- `Engine`: the classes `Bucket` and `Engine` with the source's fields and loops. Every method is
  proved to do to the abstract state exactly what the function of the same name says.
- `Ledger`, `Reachability`: the invariant that ties the five maps together, over all runs.
- `Completion`: cancellation of a request with its descendants. `Effects`: what each operation does
  to one credential, seen through a view in which a missing bucket is a full idle one.
- `Rate`, `Eviction`, `Wake`, `Queues`, `Limits`, `Bounds`: the theorems about tokens, eviction, wake
  times, order and bounds.
- `Families`, `Policies`, `Stopping`: who ends with whom, which policy a credential gets, and what a
  stop means for all that comes after it.
- `Runtime`, `Threads`, `Accounting`, `Reuse`: threads that share the engine, one lock and one
  condition variable, as interleaved steps; why each interleaving is a run by one caller; what an Ok
  has paid for, and what becomes of it when a request identifier is used again.
- `EvictionExample`, `ReuseExample`: runs from a new engine that show why two hypotheses are needed.

Rewriting:

- `Bytes`, `Json`, `ErrorMapping`, `Framing`: bytes and UTF-8, JSON values, rules, and splitting at
  the delimiters LF LF and CR LF CR LF (a fragment of section 9.2.5 of the WHATWG HTML Living
  Standard).
- `SseMapper`: the class with its buffer, cursor and bypass flag, proved against a recursive
  split-then-rewrite of the whole stream.
- `Streams`, `Idempotence`, `Oversize`, `HostRecords`, `Fragments`, `Pump`: theorems on whole streams,
  however they are handed over, and the worker's read loop.
- `Characters`, `DataLines`, `Delimiters`, `Classification`: what text, the data of an event, its end,
  a match and a rewritten error are, told without the functions that compute them.

Router:

- `Router`: executions, workers, shutdowns and reconfigurations as interleaved steps on the counter,
  the stopping flag, the configuration and the worker list behind its mutex.
- `RouterInvariant`, `RouterSafety`, `RouterStopping`, `RouterProgress`: what every interleaving keeps,
  what shutdown, the stopping flag and capacity guarantee, and that no thread is stuck.

`Sequences`, `Sums` and `Wrappers` hold what is general.

## What is assumed

- Time is a whole number of nanoseconds. A token is worth 60 000 000 000 parts, so that a bucket
  gains its requests per minute in parts each nanosecond and a wake time is a ceiling division. The
  source keeps tokens in `f64` and converts seconds with `Duration::from_secs_f64`; its rounding, and
  with it the floor of one nanosecond on a wake time, is idealised (here the wait is at least one
  nanosecond by itself). The clock is sampled under the lock and does not go back (`Chronological`,
  `ClockOk`); the source's saturating subtraction is kept for a clock that does.
- The configuration an engine is built with is valid where a property needs that (only `reconfigure`
  validates). `otherChecksPass` stands for the validation of the parts that never reach the engine.
- A credential key is its identifier: `ScopeKey` has one case.
- The lock and the condition variable are ideal; wakeups may be spurious. Failed `expect`s are the
  decision `Panicked`, which is proved not to occur.
- No request identifier is accepted again after its request has ended, in `AdmissionIsAccounted` and
  `SleepIsBounded` only; a refused registration may be retried. `Reuse` shows what happens otherwise.
- JSON parsing, JSON printing and trimming are parameters. Theorems that need more ask for one law
  (`Lawful`), and only of the events that the rewriter prints: a failure event that parsing returned
  or that was made of a message, once rewritten with a message that is text, is printed on one line,
  and what is parsed back has its type and its code. Numbers may lose precision on the way. UTF-8 is
  as in section 4 of RFC 3629; configured messages are text (`WellFormed`). An indexed assignment into
  a JSON value that is neither an object nor null would panic; it is proved that `rewrite` never meets
  one.
- In the router, nested streams are named after the call that opened them, so the host is assumed
  not to give two calls the same identifier. Host calls answer anything, and a pumping worker can
  stop at any time; the read loop itself is `Pump`.

## What turned out not to hold, and exactly when it does

- Eviction shows when a reload raises a burst: a kept bucket goes on from its old burst, a re-created
  one starts full. `ReloadsAlikeIff` says that a reload keeps the engines alike if and only if it raises
  no burst that only one of them remembers, with a rate limit on; `RaisingABurstShowsInARun` is a run
  from a new engine whose replies differ.
- The output depends on fragmentation for an event too long to buffer. `CutsAgreeIff` says that all
  cuts agree if and only if rewriting changes nothing from any such event on; `OversizeFailureShows` and
  `CommentedFailureShows` give events and cuts that differ. An event may exceed 1 MiB by one byte,
  because its last byte may arrive with its delimiter.
- A mapped terminal failure is appended to whatever the stream broke off with.
  `TerminalEventStandsAloneIff` says that it is delivered as an event of its own if and only if the bytes
  read before it did not break off inside an event; `TerminalEventIsSwallowed` is a sequence of reads in
  which it is lost.
- A second shutdown can return while workers are alive, because the first has taken the list:
  `SecondShutdownReturnsEarly`. The guarantee holds for the one that took it (`ShutdownIsFinal`).
- When a request identifier is used again, a woken thread's Ok may have charged nothing
  (`ReuseFallsThrough`) or a credential that the thread never asked for (`ReuseChargesAnother`).
  `AwakeIsAccountedIff` says that it is accounted for if and only if its request is, at that moment,
  queued on the thread's own credential or, if that one's policy is disabled, bound to no enabled one.
  `ReuseCanHappen` leads there from a new engine.

## Model

| member | source | states |
|---|---|---|
| `TokenBucket.RefillComposes` | src/engine.rs:54-63 | Refilling at one instant and again at a later one is refilling once at the later one: how often a bucket is looked at does not matter. |
| `TokenBucket.RefillGain` | src/engine.rs:54-63 | Between two instants a bucket loses nothing and gains at most the rate times the interval. |
| `TokenBucket.RefillBounds` | src/engine.rs:54-63 | Tokens stay between zero and the burst. |
| `TokenBucket.WaitForIsFirst` | src/engine.rs:77-84 | The wait for a whole token is the first number of nanoseconds that earns it, and at least one. |
| `Engine.Bucket.constructor` | src/engine.rs:44-52 | A new bucket is full, idle and empty. |
| `Engine.Bucket.RefillTo` | src/engine.rs:54-63 | The update in place is the refill the laws above are about. |
| `Engine.Bucket.IsAvailable` | src/engine.rs:65-68 | A free slot and a whole token, each only if that limit is switched on. |
| `Engine.Bucket.ChargeOne` | src/engine.rs:70-75 | One slot, and one token only under a rate limit. |
| `Engine.Bucket.WakeAt` | src/engine.rs:77-84 | The earlier of the deadline and the instant of the first whole token. |
| `Engine.Engine.constructor` | src/engine.rs:109-118 | A new engine is empty and valid, for any configuration. |
| `Engine.Engine.Begin` | src/engine.rs:120-132 | Refines registration and keeps the engine valid: refused when stopping or full, accepted again for a known identifier. |
| `Engine.Engine.BeginChild` | src/engine.rs:134-147 | Refines nested registration and keeps the forest: refused for a parent that is not live, for itself, and for a known identifier. That the child joins the families of its ancestors, and no others, is `Families.ChildJoinsTheFamily`. |
| `Engine.Engine.Poll` | src/engine.rs:196-231 | Refines the poll, keeps the books and never fails the `expect`. |
| `Engine.Engine.PollBucket` | src/engine.rs:211-230 | The part of a poll behind the deadline check: release when disabled, admit the head, or name a wake time. |
| `Engine.Engine.StartAttempt` | src/engine.rs:149-194 | Refines the attempt, keeps the books and never fails an `expect`. Which policy it goes by is `Policies.OverrideIsItsDefault`. |
| `Engine.Engine.SeatRequest` | src/engine.rs:165-194 | Finds or makes the bucket, evicting and refusing for capacity, and offers a slot. |
| `Engine.Engine.EvictIdle` | src/engine.rs:166-173 | The retain loop leaves exactly the refilled buckets that are busy, waited for or short of tokens. |
| `Engine.Engine.OfferSlot` | src/engine.rs:180-193 | Admits past an empty queue, refuses past a full one, and otherwise queues and polls. |
| `Engine.Engine.Detach` | src/engine.rs:233-250 | Gives back exactly what the request held; the slot count cannot underflow. |
| `Engine.Engine.Forget` | src/engine.rs:255-265 | One iteration of the cancellation loop: returns the children and removes the request with its links. |
| `Engine.Engine.Complete` | src/engine.rs:252-266 | The loop removes exactly the request and its live descendants, gives back their slots and places, and terminates without relying on the invariant. |
| `Engine.Engine.Reconfigure` | src/engine.rs:268-282 | Refines reconfiguration, keeps the engine valid and reports whether it took effect. |
| `Engine.Engine.RepolicyAll` | src/engine.rs:273-279 | Every bucket is refilled under its old policy and capped by the new burst. |
| `Engine.Engine.Stop` | src/engine.rs:284-286 | Refines the stop and keeps the engine valid. That it raises the flag, and what follows, is `Stopping.NothingAfterQuiesce`. |
| `Engine.Engine.Counts` | src/engine.rs:288-294 | The sums over the buckets are the numbers of requests in each phase. |
| `Ledger.SlotIsHeld` | src/engine.rs:233-249 | A request that is not Idle has a bucket, and that bucket has its slot or its place: `active` never underflows. |
| `Ledger.PollKeepsBooks` | src/engine.rs:196-231 | A poll keeps the agreement of phases, slots, queues, tokens and policies. |
| `Ledger.StartKeepsBooks` | src/engine.rs:149-194 | So does an attempt, with its eviction and its new bucket. |
| `Ledger.EvictKeepsBooks` | src/engine.rs:166-173 | Nobody refers to a bucket that is evicted. |
| `Ledger.ReconfigureKeepsBooks` | src/engine.rs:268-282 | After a reload each bucket has its new policy and no more than the new burst. |
| `Ledger.ForgetKeepsBooks` | src/engine.rs:255-265 | Each iteration of the cancellation loop keeps the books, in whatever order the requests are popped. |
| `Reachability.RegisteringAgain` | src/engine.rs:120-132 | An accepted request stays registered, and registering it again changes nothing. |
| `Reachability.BeginChildKeepsValid` | src/engine.rs:134-147 | A nested registration adds a leaf: links and child lists still describe one forest without cycles. |
| `Reachability.StepKeepsValid` | src/engine.rs:120-286 | Every operation keeps the ledger and the forest. |
| `Reachability.RunKeepsValid` | src/engine.rs:120-286 | Every run of operations keeps them. |
| `Reachability.NeverPanics` | src/engine.rs:180-211 | No operation on a reachable state fails an `expect`. |
| `Reachability.CountBucket` | src/engine.rs:288-294 | A bucket adds to the totals exactly the requests that are Active or Queued on it. |
| `Completion.CascadeIsPrune` | src/engine.rs:252-266 | From the middle of the worklist, what remains to be popped completes the removal of the family. |
| `Completion.CompleteIsExact` | src/engine.rs:252-266 | Completion removes the request and precisely its live descendants; every other phase, link and queue order stays, and each slot count falls by the holders removed. |
| `Completion.CompletionsCommute` | src/engine.rs:252-266 | Two completions give the same state in either order. |
| `Completion.CompletionIsIdempotent` | src/engine.rs:252-266 | Completing twice is completing once. |
| `Completion.EndedIsInert` | src/engine.rs:134-265 | After a completion, late attempts, polls, nested registrations and completions that name a request of the family change nothing and are turned down. |
| `Completion.PopsAreTheFamily` | src/engine.rs:253-254 | The worklist pops every member of the family once, and nobody else. |
| `Completion.WorkIsBounded` | src/engine.rs:252-266 | In any state, valid or not, the number of pops is at most the pending identifiers plus the child links. |
| `Families.RegisteredIff` | src/engine.rs:120-132 | A registration is refused only by a stopping or a full engine, each with its own reason, and otherwise tracks the request and touches nothing else. |
| `Families.NestedIffParentIsLive` | src/engine.rs:134-147 | A nested registration is accepted exactly if its parent is live, it is new, there is room and nobody has said stop; otherwise nothing changes. |
| `Families.ChildJoinsTheFamily` | src/engine.rs:134-147 | An accepted child joins the family of its parent and of every ancestor of it, and no other family changes. |
| `Families.ChildEndsWithItsParent` | src/engine.rs:252-266 | Completing the parent ends the child that was just nested in it. |
| `Families.ChildEndsWithItsAncestors` | src/engine.rs:134-266 | Over every run that the child survives, it stays in the family of each ancestor and ends when any of them completes. |
| `Families.UnnestedSurvives` | src/engine.rs:252-266 | A request that was never nested survives every completion but its own, with its phase. |
| `Effects.StartEffect` | src/engine.rs:149-194 | The answer, the phases and every credential's view after an attempt, eviction and re-creation included. |
| `Effects.OfferEffect` | src/engine.rs:180-193 | The poll made inside an attempt always answers WaitUntil. |
| `Effects.PollEffect` | src/engine.rs:196-231 | The answer, the phases and every credential's view after a poll. |
| `Effects.CompleteEffect` | src/engine.rs:252-266 | A completion takes its family's slots and places off each credential and no tokens. |
| `Effects.ReloadKeepsDebt` | src/engine.rs:268-282 | A refused configuration changes nothing. An accepted one keeps requests, forest, slots and queues, and each credential, evicted or not, goes on with the lesser of what it had earned under the old policy and the new burst, unless the burst is raised while it has no bucket. |
| `Effects.StepKeepsSound` | src/engine.rs:54-63 | No operation leaves a bucket ahead of the clock, so the assumptions of the theorems persist. |
| `Rate.StepConservesTokens` | src/engine.rs:70-75 | A step that charges a credential spends one whole token of it; any other step, whatever it evicts, re-creates or cancels, spends none. |
| `Rate.SettleReload` | src/engine.rs:273-279 | A reload that leaves a credential's policy alone is unobservable on it, whenever and however often it happens. |
| `Rate.ReloadGivesNoTokens` | src/engine.rs:273-279 | A reload that does not raise the burst gives no tokens, whatever it does to the rate and whether or not the bucket exists. |
| `Rate.RateBoundAcrossReloads` | src/engine.rs:54-75 | Over any run with any reloads that neither raise a credential's burst nor switch its rate off, its charged admissions between two clock readings are at most its first burst plus its highest rate times the interval, and from the start of the run at most what was there plus that. |
| `Rate.RateBound` | src/engine.rs:54-75 | In particular under one policy: at most burst plus rate times the interval. |
| `Eviction.EvictionIsUnobservable` | src/engine.rs:165-178 | Over any run whose reloads raise no burst, an engine that never evicts gives the same answers, phases, queues and tokens, Capacity rejections aside. |
| `Eviction.EvictionIsUnobservableFromTheStart` | src/engine.rs:165-178 | In particular from a new engine. |
| `Eviction.ReloadsAlikeIff` | src/engine.rs:273-279 | A reload keeps the two engines alike if and only if it raises no burst that only one of them remembers. |
| `Eviction.RaisingABurstShows` | src/engine.rs:273-279 | After a reload that does, the evicting engine admits a second request that the other one makes wait. |
| `EvictionExample.AboutToRaiseHappens` | src/engine.rs:165-178 | A valid state in which that happens. |
| `EvictionExample.RaisingABurstShowsInARun` | src/engine.rs:165-178 | A run from a new engine, in clock order, whose replies differ from those of the engine that never evicts. |
| `Wake.WakeIsInTime` | src/engine.rs:219-230 | Every wake time lies after the poll and not after the deadline. |
| `Wake.WakeIsStable` | src/engine.rs:219-230 | Until its wake time a waiter that asks again gets the same answer. |
| `Wake.WakeIsExact` | src/engine.rs:77-84 | From the wake time to the deadline a poll of the head admits exactly when a slot is free. |
| `Wake.DeadlineEndsTheWait` | src/engine.rs:206-209 | A poll at or after the deadline ends the wait, whatever the configuration has become, and leaves no trace in any queue. |
| `Wake.AttemptWaitsInTime` | src/engine.rs:189-193 | An attempt answers WaitUntil exactly when it queues its request, with a deadline one queue timeout away and a wake time before it. |
| `Wake.DeadlineStays` | src/engine.rs:30-33 | No operation moves a waiting request or its deadline. |
| `Wake.AttemptWaitsAgain` | src/engine.rs:193-193 | Asking again at once gives the answer the attempt gave. |
| `Queues.PollTakesTheFront` | src/engine.rs:216-220 | Only the front of a queue is admitted from it. |
| `Queues.NoBarging` | src/engine.rs:181-185 | A new attempt is admitted only past an empty queue. |
| `Queues.StepKeepsOrder` | src/engine.rs:181-264 | In one step the admitted come from the front, newcomers go to the back, the others keep their order. |
| `Queues.RunKeepsOrder` | src/engine.rs:181-264 | Over any run those admitted, then those still waiting, appear in the order in which they were queued. |
| `Limits.StepSlots` | src/engine.rs:65-68 | A step raises the slots in use only up to the current limit. |
| `Limits.StepLine` | src/engine.rs:186-188 | A step lengthens a queue only up to its limit. |
| `Limits.StepTracked` | src/engine.rs:127-129 | A step adds requests only up to the tracking limit. |
| `Limits.StepBuckets` | src/engine.rs:174-178 | A step adds buckets only up to the credential limit. |
| `Limits.LimitsHold` | src/engine.rs:120-194 | Between reconfigurations all four stay within the larger of their limit and what they were. |
| `Bounds.ReloadIsTakenIff` | src/config.rs:29-43 | A reload is taken exactly if the engine is running and each part of the new configuration is within its bounds, written out; otherwise nothing changes. |
| `Bounds.EverythingIsBounded` | src/config.rs:96-118 | From a valid configuration, over every run with any reloads: at most 100 000 requests, buckets, places in a queue and slots of a credential, and at most 1 000 000 tokens. |
| `Bounds.WaitsAreBounded` | src/engine.rs:189-193 | Who is told to wait has a deadline the configured milliseconds after the attempt, at most five minutes away, and wakes up by then. |
| `Policies.OverrideIsItsDefault` | src/config.rs:119-128 | Over every run of operations on a credential with an override, the engine replies as if the override were the default and there were no override. |
| `Policies.OthersDoNotMatter` | src/config.rs:119-128 | The overrides of other credentials, and the default for one that has its own, change no reply and no state. |
| `Policies.SwitchedOffAdmits` | src/engine.rs:161-164 | Under a disabled plugin, default or override, whichever applies, an attempt is admitted, holds nothing and makes no bucket. |
| `Policies.SwitchedOnCharges` | src/engine.rs:161-185 | Otherwise an admitted attempt holds a slot of its credential. |
| `Policies.SwitchedOffReleases` | src/engine.rs:214-217 | The next poll of a waiter whose policy has been switched off lets it go without a slot. |
| `Policies.ReloadAppliesThePolicy` | src/engine.rs:273-279 | After a reload each bucket has the policy that the new override, or else the new default, prescribes. |
| `Stopping.NothingAfterQuiesce` | src/engine.rs:284-286 | In any run with a stop in it, whatever comes before and after: every later attempt, poll, registration and reload is turned down with its reason, and nothing is tracked or served any more. |
| `Stopping.QuiesceTouchesNothingElse` | src/engine.rs:284-286 | The stop itself changes no request, link, bucket or configuration. |
| `Runtime.StepKeepsInv` | src/runtime.rs:46-91 | Every step of every thread keeps the waiters attended to: waiting is still right, or they are notified, or somebody owes them a notification. |
| `Runtime.NoLostWakeup` | src/runtime.rs:46-91 | In every interleaving a sleeper whose poll would no longer say wait is due, notified, or about to be notified. |
| `Accounting.AdmissionIsAccounted` | src/runtime.rs:46-75 | Every acquire that returns Ok, no identifier being accepted again after its end, charged its credential exactly one slot and one token after giving back what the request held, or saw the policy disabled and holds nothing; never after stop. A thread that slept is admitted only from the queue of its own credential: the fall-through for a request that is not queued is never taken. |
| `Reuse.AwakeIsAccountedIff` | src/runtime.rs:46-75 | Whatever became of its identifier, a woken thread's Ok is accounted for if and only if its request is queued on the thread's credential or, that policy being disabled, on no enabled one. |
| `Reuse.FallsThroughIff` | src/engine.rs:201-205 | Waking up is Ok and changes nothing if and only if the request is live and not queued. |
| `Reuse.ReuseFallsThrough` | src/engine.rs:120-131 | That happens when an identifier ends and is registered again before its thread wakes. |
| `Reuse.ReuseChargesAnother` | src/engine.rs:149-231 | When it is also queued elsewhere, the thread's Ok charges a credential that the thread never asked for. |
| `ReuseExample.ReuseCanHappen` | src/runtime.rs:46-75 | An interleaving from a new engine that leads to both. |
| `Accounting.NothingAfterStop` | src/engine.rs:149-200 | Once stopped, the engine stays stopped and admits nothing, after any further events. |
| `Stopping.NothingAfterHalt` | src/runtime.rs:88-91 | In every interleaving with a stop in it no later acquire succeeds, those that start or wake up are told so, and nothing is registered. |
| `Threads.StepIsACall` | src/runtime.rs:32-91 | Each step of a thread is one engine operation at the time on the clock, or none; its thread has the decision, and sleeps until exactly the instant it was told. |
| `Threads.OnlyNotifiersWake` | src/runtime.rs:46-91 | Other threads are never moved, and woken only when an acquire begins or returns or the engine was changed otherwise; a poll that waits on wakes nobody. |
| `Threads.TraceIsARun` | src/runtime.rs:32-91 | Every interleaving is a run of the engine by one caller whose clock never goes back, so that every theorem on runs holds for threads. |
| `Threads.ThreadsKeepTheRate` | src/runtime.rs:46-75 | However many threads ask, a credential under one policy is charged between two clock readings at most its burst plus what its rate earns. |
| `Accounting.SleepIsBounded` | src/runtime.rs:62-73 | A thread sleeps no longer than its request's deadline, and waking then, or after its request has ended, it returns an error. |
| `ErrorMapping.FirstMatchIsFirst` | src/error_mapping.rs:257-280 | The rule that applies is the first whose conditions all hold; none applies exactly when none holds. |
| `ErrorMapping.RewrittenIsNeverMapped` | src/error_mapping.rs:253-256 | A rewritten event is never mapped again, by any rules and for any status. |
| `ErrorMapping.RewriteTouchesOnlyTheClassification` | src/error_mapping.rs:284-295 | Rewriting replaces the error and the status of the response and keeps every other member. |
| `ErrorMapping.FailureIsStructured` | src/error_mapping.rs:11-25 | Any message yields a failure event with a structured error that can be rewritten: a failure event in it comes back unchanged, an error object in it is kept, and only a message is made up otherwise. |
| `ErrorMapping.StatusIsNeverGuessed` | src/error_mapping.rs:269-269 | Without an HTTP status, rules that name one might as well not be there. |
| `Classification.MatchesIff` | src/error_mapping.rs:257-280 | A rule looks for its codes in `code`, its types in `type`, its statuses in the status and its needle anywhere in `message`; all conditions given must hold. |
| `Classification.MappedIff` | src/error_mapping.rs:248-281 | A failure is mapped exactly if the mapping is enabled, it is a `response.failed` with an error object not marked as mapped, and some rule matches. |
| `Classification.DisabledChangesNothing` | src/error_mapping.rs:248-252 | A disabled mapping changes no byte of any stream, however it is cut. |
| `Classification.DisabledPassesTheFailureOn` | src/router.rs:205-214 | And the failure that ends a stream is reported as it came, after all bytes. |
| `Classification.UnflushedEndings` | src/router.rs:198-219 | With a disabled mapping, a stream that ends without a flush (stop, fault, bad encoding) lacks just what the mapper holds back, and ends as the cause says. |
| `Classification.RewrittenError` | src/error_mapping.rs:284-295 | The new error has the class of a retryable server error, the rule's message and its delay in milliseconds if there is one, and no other member; the status is failed. |
| `Classification.DigitsDenote` | src/error_mapping.rs:290-292 | The delay is printed in decimal without leading zeros and denotes itself. |
| `Classification.FailureFromMessageIs` | src/error_mapping.rs:11-25 | A message stands for the failed response or the error object in it, and else for an error with that message and nothing else. |
| `Classification.FailureInIs` | src/error_mapping.rs:113-120 | A failed response is taken as it is, an error event by its error object, and no other event is taken for a failure. |
| `Classification.ErrorEventIsRewritten` | src/error_mapping.rs:116-124 | An error event comes out as the rewrite of its error object if that is mapped, and unchanged otherwise. |
| `Characters.Utf8Iff` | src/error_mapping.rs:102-104 | A frame is text exactly if it is the encoding of a sequence of Unicode scalar values. |
| `DataLines.DataIsTheValues` | src/error_mapping.rs:105-112 | The data of an event are the values of its data fields, one to a line, with either line ending; one space after the colon is dropped and other lines are passed over. |
| `SseMapper.MappedIsRewritable` | src/error_mapping.rs:284-295 | What a rule maps can be rewritten without an indexing panic. |
| `SseMapper.SseMapper.Push` | src/error_mapping.rs:69-100 | The cursor loop, which looks again only from the last three bytes, computes the split and rewrite of everything buffered, and holds back at most 1 MiB. |
| `SseMapper.SseMapper.RewriteComplete` | src/error_mapping.rs:77-94 | The loop emits the rewrite of every complete event and stops at the open tail. |
| `SseMapper.SseMapper.PushHostChunk` | src/error_mapping.rs:52-68 | A host record is pushed with the line end it lacks; anything else as it is. Which chunks are which is `Fragments.OnlyLinesAreCompleted`. |
| `SseMapper.SseMapper.Finish` | src/error_mapping.rs:126-129 | Hands out the buffer and leaves it empty. |
| `Framing.FramesAndTail` | src/error_mapping.rs:74-95 | Events and tail are the stream; the tail has no delimiter. |
| `Framing.SplitInSteps` | src/error_mapping.rs:74-95 | Splitting in two steps is splitting once. |
| `Framing.FramesOfFrames` | src/error_mapping.rs:74-95 | Events put together split back into themselves. |
| `Framing.LastThreeAreEnough` | src/error_mapping.rs:95-95 | No delimiter of either shape is missed by resuming three bytes before the end. |
| `Delimiters.IsFrameIff` | src/error_mapping.rs:77-93 | An event is what ends in LF LF or CR LF CR LF and has no beginning that does. |
| `Delimiters.OpenIff` | src/error_mapping.rs:77-95 | A tail is open exactly if no beginning of it ends so. |
| `Delimiters.OneMebibyteIsHeld` | src/error_mapping.rs:96-99 | 1 048 576 bytes of an unfinished event are held back, and one byte more starts the bypass. |
| `Streams.Conservation` | src/error_mapping.rs:69-100 | For every chunk sequence, output and buffer are the stream with its first events rewritten; once bypass starts, the rest is copied, and it starts only for an event too long to buffer. |
| `Streams.CutsAgreeIff` | src/error_mapping.rs:69-100 | All ways of cutting a stream give the reference output if and only if rewriting changes nothing from any oversize event on. |
| `Streams.OversizeFailureShows` | src/error_mapping.rs:96-99 | One oversize event that is rewritten comes out in two ways, depending on the cut. |
| `Oversize.CommentedFailureShows` | src/error_mapping.rs:96-99 | Any one-line data that a rule maps, put after a comment line of 1 MiB, is such an event. |
| `Streams.FragmentationIsInvisible` | src/error_mapping.rs:69-100 | Without oversize events two cuts of a stream give the same output, that of the whole. |
| `Idempotence.RewriteIsStable` | src/error_mapping.rs:101-125 | Rewriting an event twice is rewriting it once. |
| `Idempotence.SseIsFrame` | src/error_mapping.rs:27-29 | A rewritten event has no delimiter inside. |
| `Idempotence.WholeSplitsBack` | src/error_mapping.rs:27-29 | A rewritten stream splits back into the rewritten events and the old tail. |
| `Idempotence.MixedSplitsBack` | src/error_mapping.rs:69-100 | So does one of which only the first events were rewritten before bypass. |
| `Idempotence.EmittedBreaksOffAlike` | src/error_mapping.rs:69-129 | However a stream is cut, and bypass included, the output breaks off inside an event exactly as the input does. |
| `Idempotence.WholeIsIdempotent` | src/error_mapping.rs:101-125 | Rewriting a stream twice is rewriting it once. |
| `Idempotence.SecondPassChangesNothing` | src/error_mapping.rs:69-129 | A second mapper with the same rules returns its input unchanged, however it is cut. |
| `HostRecords.NoLatency` | src/error_mapping.rs:52-68 | For any host records the output is the rewrite of exactly the events they complete, in order, and only event lines are held back. |
| `HostRecords.NothingHeldAfterData` | src/error_mapping.rs:52-68 | After a data record nothing is held back. |
| `Fragments.OnlyLinesAreCompleted` | src/error_mapping.rs:52-68 | Exactly two kinds of chunk are added to: an `event:` line without line breaks, by LF, and a `data:` line without line breaks that parses or trims to `[DONE]`, by LF LF. |
| `Fragments.FragmentsArePushedAsTheyAre` | src/error_mapping.rs:52-68 | All other chunks take the ordinary path, whatever is buffered. |
| `Fragments.FragmentedStreamIsRewritten` | src/error_mapping.rs:52-68 | A stream handed over in such fragments comes out as the rewrite of the whole. |
| `Pump.Downstream.Emit` | src/router.rs:189-197 | An empty payload is not sent; any other is appended or refused. |
| `Pump.Answer` | src/router.rs:204-226 | One turn of the read loop: flush and terminal failure, refused encoding, pushed payload, flush at the end. |
| `Pump.Pump` | src/router.rs:198-228 | The loop delivers what the mapper makes of the payloads read, then what the ending adds, or stops at a refused emit having sent a prefix. |
| `Pump.IteratedIsDelivered` | src/router.rs:198-228 | Going through the answers one by one delivers what the first ending answer determines. |
| `Pump.StoppingIsAPrefix` | src/router.rs:201-203 | Stopping earlier only cuts the delivered stream short. |
| `Pump.DoneDeliversTheWhole` | src/router.rs:222-225 | A stream that ends normally is delivered as the rewrite of the whole. |
| `Fragments.FragmentsReachTheClient` | src/router.rs:215-225 | A stream read in such fragments reaches the client as the rewrite of the bytes the host sent. |
| `Pump.TerminalEventStandsAloneIff` | src/router.rs:205-214 | For every sequence of reads that ends in a mapped error, the delivered bytes are the events emitted before and the failure as an event of its own if and only if the bytes read before it did not break off inside an event; bypass included. |
| `Pump.TerminalEventIsSwallowed` | src/router.rs:205-214 | A sequence of two reads whose failure is lost in an unfinished data line. |
| `RouterInvariant.StepKeepsInv` | src/router.rs:92-239 | Every step of every interleaving keeps the lock, the list, the counter, the capacity and the ownership of workers and streams. What the stopping flag decides is `RouterStopping.NothingStartsAfterStop`. |
| `RouterInvariant.StepKeepsTracked` | src/router.rs:141-184 | No worker runs that nobody is going to join, reaping and swapping included. |
| `RouterInvariant.StepKeepsCapacity` | src/router.rs:100-104 | Fetch-and-add before the check lets no more executions in than the limit read. |
| `RouterSafety.ShutdownJoinsWhatItTook` | src/router.rs:229-239 | A shutdown that has returned has joined every worker it took. |
| `RouterSafety.ShutdownIsFinal` | src/router.rs:229-239 | When the shutdown that took the list has returned, no worker is alive, and none is ever started again. |
| `RouterSafety.AliveAreBeingJoined` | src/router.rs:229-239 | While it is still joining, only workers it has not reached are alive. |
| `RouterSafety.SecondShutdownReturnsEarly` | src/router.rs:229-239 | Another shutdown may return while workers are alive. |
| `RouterSafety.NestedStreamsAreOwned` | src/router.rs:136-184 | Every nested stream with a known identifier is owned by a running call or worker or has been closed. |
| `RouterSafety.CapacityIsKept` | src/router.rs:33-38 | Under one configuration accepted executions never exceed its capacity; the counter shows them and the rejected calls on their way out. |
| `RouterStopping.NothingStartsAfterStop` | src/router.rs:95-98 | After a shutdown has been called, in every interleaving: an execution that had not arrived is never counted, accepted, given a stream or a worker; streams and counts are added only for those that were past the flag. |
| `RouterStopping.TurnedAwayIff` | src/router.rs:96-152 | Either look at the flag turns an execution away exactly if a shutdown has been called before. |
| `RouterStopping.AcceptedIff` | src/router.rs:95-104 | An execution is accepted exactly if fewer are counted than the capacity configured when it arrived. |
| `RouterStopping.NestedIsHistory` | src/router.rs:110-140 | The nested streams accounted for are exactly those that executions have opened. |
| `RouterStopping.NoStageIsSkipped` | src/router.rs:157-176 | A worker closes its nested stream, closes its downstream, gives back its count and finishes, one step each and none left out. |
| `RouterStopping.ReapingIsComplete` | src/router.rs:141-149 | When an execution is through with the worker list, no worker that had finished before it took the lock is left on it. |
| `RouterStopping.ClosedBeforeJoining` | src/router.rs:229-239 | A shutdown has closed the streams of every worker it took before it waits for any of them. |
| `RouterProgress.NoDeadlock` | src/router.rs:141-239 | As long as a thread is not done, one can take a step. |
| `RouterProgress.StepsDescend` | src/router.rs:141-239 | Every step of an existing thread brings the threads nearer to their end. |
| `RouterProgress.AllComeToTheirEnd` | src/router.rs:229-239 | From every reachable state the existing threads, shutdowns included, can be run to their end; as every step descends, no run without newcomers avoids it. |
| `RouterProgress.NothingLeaks` | src/router.rs:33-38 | When all threads are done the counter is zero and every nested stream is closed. |

## Left out

- The C interface, raw buffers and panic catching (`src/lib.rs`) and the table of host callbacks
  (`src/host.rs`): foreign calls; what the host answers is an argument of the model.
- `src/protocol.rs`: status and header tables, decided line by line.
- Parsing of YAML, JSON and base64, and the limits on rule counts, lengths and delay strings: the
  parsers are libraries, and the checks are independent comparisons. An undecodable payload is a case
  of `Pump.Payload`.
- `Engine::map_error` and `Runtime::map_error` (`src/engine.rs:98-107`): two guards before a call of the
  mapping, which is modelled.
- The mapping of a fault that the host reports when a nested stream is opened
  (`src/router.rs:123-135`): it applies the same mapping once, with the status of the fault; in the
  router's steps it is one of the ways in which an execution gives up.
- The order in which a `HashMap` is walked by `retain`, `values` and the loop of `reconfigure`: the
  loops of the class take the keys in any order.
- Mutex poisoning and panics of workers.
- The number of waiting threads that `notify_all` wakes at once, and fairness between them: a
  notification marks every sleeper, and sleepers wake in any order.
- Rounding of `f64` tokens and of `Duration`, as said above.
- The host's own scheduling, retries and delivery; scripts, packaging and end-to-end probes.
