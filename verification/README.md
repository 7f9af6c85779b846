# Verification of the vngcloud block-storage CSI driver

A Dafny model of the parts of the driver that keep state over unbounded runs or that decide
what is commanded at the IaaS, with proofs of what they guarantee. Check it with
`dafny verify dfyconfig.toml`.

| file | models |
|---|---|
| `InFlight.dfy`, `Breaker.dfy`, `Bookkeeping.dfy`, `Controller.dfy`, `DetachProtocol.dfy`, `LockRegions.dfy` | the detach/delete circuit breaker, its gauges and events, the handlers that drive it, all interleavings of those handlers, and of the lock regions of their bookkeeping |
| `MetaCache.dfy`, `SingleFlight.dfy` | the single-flight caches, as written and run by many threads with nested loads |
| `RateLimiter.dfy` | the adaptive limiter every request passes |
| `Coalescing.dfy`, `CoalescingOutcome.dfy` | merging of modify requests, as written and as a protocol of requesters and handlers, and which of them are taken, executed and answered |
| `Backoff.dfy`, `VolumeWaits.dfy`, `VolumeOps.dfy`, `VolumeModify.dfy` | the polling loop, and attach, detach, delete, resize and migrate over an IaaS that answers anything |
| `SnapshotLookup.dfy`, `CreateOnce.dfy` | the paged snapshot lookup, and lookup-then-create under in-flight keys |
| `ApiRoute.dfy` | the URL route normaliser |
| `Clock.dfy`, `SdkErrors.dfy`, `Wrappers.dfy` | times in nanoseconds, the SDK's errors, optional values |

Two kinds of model stand side by side. Code that changes things in place is a class or a method
with the source's own branches, proved against a specification function or predicate. Concurrent
code is, in addition, a transition system: `Next` is one atomic step, `Run` folds any sequence
of steps from the initial state, an invariant is preserved by every step, and the theorems hold
in every reachable state. The IaaS, the clock, contexts and loaders are inputs: any answer at
any time.

Contracts are stated on logs, traces and specification functions. What those come to in literal
minutes, rates, error codes and fields of a volume is proved beside them, in the members whose
names end in `InMinutes` or `InFull` and in the contracts of the main operations.

What to read first:

- `DetachProtocol.DetachCommandBudget`: in every interleaving, the detach commands of a stuck
  volume go out no earlier than 10, 40, 100 and then 120 more minutes each after the trip.
- `DetachProtocol.GaugesAndEvents`: when the bookkeeping after an answer is one step, the gauge
  shows exactly the open breakers after every step of every run, and an episode has emitted
  exactly the warnings its log calls for; and `AgreementIffSeparate`, for which sets of keys.
- `LockRegions.CoveredIffNothingBreaks`: when every lock region is a step, exactly which runs keep
  gauge and breaker together; and `AgreementIffAlone`, that all do only over a single pair.
- `CircuitBreaker.Breaker.Failure`: the constant-size entry is a digest of the whole failure log.
- `SingleFlight.NestedFlightsNeverDeadlock`, `CachedResultsAreFresh`, `OneProjectClient`.
- `RateLimiter.DistanceToNine`: the exact contraction of the rate in an endless 5xx spell, and
  `FloorIff`: exactly when the rate stays at the floor.
- `CoalescingProtocol.ExecutesOnceForItsOwn`, with `CoalescingOutcome.ExecutesUnlessStuck`,
  `TakenUnlessDeaf` and `ServedIffInReach`: exactly which handlers can still execute, which
  requesters can still be taken, and which of those taken can still be answered.
- `VolumeOps.AttachVolume`: success means the goal was seen; `VolumeModify.ResizeOrModifyDisk`:
  exactly when it does not.
- `CreateOnce.NoDuplicates` and `DuplicateIffMiss`: exactly which lookups open the way to a
  duplicate, with `WhatMisses` for the answers that make them.

Where the code does something else than its documentation says, the model follows the code:

- The key of a (volume, node) pair is the plain concatenation of two strings, so two pairs can
  share a breaker entry and an in-flight key (`CircuitBreaker.KeysCanCollide`). With a handler's
  bookkeeping taken as one step, gauge and breaker agree in all runs exactly over sets of pairs
  that do not collide (`DetachProtocol.AgreementIffSeparate`); IDs of one length never do.
- A sweep is meant to drop the series that go with the entries it evicts
  (pkg/driver/controller.go:545-554). It evicts under the breaker's lock and drops later, with
  nothing held, and a failed attempt publishes its series later too. With these lock regions as
  steps, keys that do not collide are not enough: a sweep can drop the series of a pair that has
  failed again since (`LockRegions.ASweepLosesASeries`), and a series can be published after its
  pair was swept, with nobody left to drop it (`ALateSeriesStays`). Gauge and breaker agree up to
  what is still owed exactly as long as neither happens (`CoveredIffNothingBreaks`), and neither
  does when no other handler of the operation acts in between (`UndisturbedNeverBreaks`). All runs
  agree whenever nothing is owed only over a single pair (`AgreementIffAlone`).
- A wait for a volume that has vanished is meant to be aborted where its absence is not the goal
  (pkg/cloud/cloud_private.go:108). It is not: the error that should abort it has no inner error
  (`VolumeWaits.AVanishedVolumeIsPolledToTheEnd`).
- An SDK error without an inner error turns a failed resize or modify into a success of size 0:
  success is not what was asked for exactly if the operation stopped on such an error
  (`VolumeModify.ResizeOrModifyDisk` with `StoppedWith`; `ASilentReadIsSuccess` is a run). It turns
  a failed snapshot lookup, on whatever page, into "there is none" (`CreateOnce.WhatMisses`,
  `ASilentLookupDuplicates`), and a refused snapshot creation into a panic
  (`CreateHandlers.CreateSnapshot`). A catalogue read that fails so is not noticed by the
  comparison of zones; when the comparison is right all the same is
  `VolumeModify.WhenZonesAreRight`.
- The modify handler's comment says no request is left behind by the drain
  (pkg/driver/controller_modify_volume.go:116-118). A requester that has looked the handler up
  but not yet sent to it is, for ever (`CoalescingOutcome.TakenUnlessDeaf`).
- A refusal is a blocking send (pkg/driver/controller_modify_volume.go:103). If the refused
  requester's context ends first (lines 55-58) the handler is blocked for good: it never executes
  for those it has accepted, and if its time was not up it stays in the map and every later modify
  of the volume is lost. Exactly then it does not execute (`CoalescingOutcome.ExecutesUnlessStuck`).
- The climb is documented to resume even if 5xx answers go on (pkg/cloud/ratelimit.go:85-92). From
  the floor it does exactly if some success comes five seconds after the last error that moved the
  anchor (`RateLimiter.OldSpellFloorIff`); 5xx between one and five seconds apart prevent it.
- A server that counts no pages and silently cuts them below the hundred asked for ends the
  snapshot lookup after page 1 (`SnapshotLookup.UncountedLookup`). A listing that shifts under the
  walk hides a snapshot exactly if it keeps it off every page the walk visits
  (`SnapshotLookup.FoundIffVisited`), as the deletion of another one can
  (`AShiftingListHidesASnapshot`).
- Rounding a size up to GiB overflows for the last GiB below the largest int64, and does not round
  up most sizes of -GiB and below (`VolumeModify.RoundUpIsRightBelowTheOverflow`).

## Model

| member | source | states |
|---|---|---|
| `InFlight.InFlight.Insert` | pkg/driver/internal/inflight.go:23-34 | takes a free key and reports a taken one; every other key is as before |
| `InFlight.InFlight.Delete` | pkg/driver/internal/inflight.go:38-43 | gives a key back; a key that is not held is left alone |
| `FailureLog.TripIndex` | pkg/driver/internal/breaker.go:138-157 | the first failure of a log that opens the breaker, or none |
| `FailureLog.TrippedIff` | pkg/driver/internal/breaker.go:148-154 | open iff some failure was terminal, or was at least the third and at least 5 minutes after the first |
| `FailureLog.AppendFailure` | pkg/driver/internal/breaker.go:131-169 | one more failure keeps an open breaker open at the same trip and moves it one step until the table ends; a closed one opens iff this failure trips it, at step 0 |
| `FailureLog.InMinutes` | pkg/driver/internal/breaker.go:29-54 | the waits in minutes: 0 before the failure that opens the breaker, then 10, 30, 60 and 120; and a log is stale iff its last failure, with its wait, lies more than 240 minutes back |
| `CircuitBreaker.SameLengthKeysAreSeparate` | pkg/driver/internal/breaker.go:74-76 | pairs whose volume IDs have one length share a key only if they are the same pair |
| `CircuitBreaker.KeysCanCollide` | pkg/driver/internal/breaker.go:66-76 | two different pairs with one key |
| `CircuitBreaker.Breaker.Allow` | pkg/driver/internal/breaker.go:97-114 | probe only, exactly while the key's log is tripped and its next attempt is not due |
| `CircuitBreaker.PausedInMinutes` | pkg/driver/internal/breaker.go:97-114 | a pair is paused iff its breaker has opened and the wait of 10, 30, 60 or 120 minutes after its last failure is not over |
| `CircuitBreaker.Breaker.Failure` | pkg/driver/internal/breaker.go:122-169 | the entry stays the digest of the full log (count, first failure, trip, step, next attempt); the two results say that this failure tripped, or stepped, the breaker |
| `CircuitBreaker.Breaker.Success` | pkg/driver/internal/breaker.go:172-177 | the key's log is gone, the others stay |
| `CircuitBreaker.Breaker.Since` | pkg/driver/internal/breaker.go:190-200 | time since the log's first entry, whether there is a log, whether it is tripped |
| `CircuitBreaker.Breaker.EvictStale` | pkg/driver/internal/breaker.go:217-233 | drops exactly the keys whose last failure, with its wait, lies more than 240 minutes back, and reports each of them once, in some order |
| `CircuitBreaker.SweptLog` | pkg/driver/internal/breaker.go:217-233 | the same of one log, with every number in place |
| `Bookkeeping.EventBudget` | pkg/driver/controller.go:592-632 | an episode of any length warns at most 4 times for detach and 5 for delete |
| `Bookkeeping.WarningsOfAnEpisode` | pkg/driver/controller.go:592-632 | exactly: one when the breaker opens, one for each of the next three failures, and for a delete one for a first failure that does not open it |
| `Bookkeeping.SeriesAfterFailure` | pkg/driver/controller.go:611-618 | the series shows the time since the first failure of the episode, is there iff the breaker is open, and nobody else's changes |
| `Bookkeeping.ThreeFailuresPause` | pkg/driver/internal/breaker.go:148-166 | three failures that are not for good, at most four hours apart and at least five minutes from first to last: none of the three attempts is paused, and anything in the next ten minutes is |
| `Bookkeeping.NamedIffSeparate` | pkg/driver/controller.go:491-499 | a set of pairs can be told apart by their keys iff no two of them share one |
| `Bookkeeping.SameLengthIsSeparate` | pkg/driver/internal/breaker.go:74-76 | pairs whose volume IDs all have one length do not collide |
| `Bookkeeping.FailureKeepsOrder` | pkg/driver/controller.go:592-632 | a failure keeps: series published exactly for open breakers, and warnings emitted exactly as the log calls for |
| `Bookkeeping.ClearKeepsOrder` | pkg/driver/controller.go:580-590 | so do clearing on attach and success |
| `Bookkeeping.SweepKeepsOrder` | pkg/driver/controller.go:555-578 | so does the eviction of stale keys |
| `Bookkeeping.CollidingKeysBreakAgreement` | pkg/driver/controller.go:580-590 | for any two pairs with one key, clearing through one of them leaves the other's series behind |
| `Controller.ControllerService.EvictStaleDetachState` | pkg/driver/controller.go:555-578 | log and series of every stale key go, nothing else does |
| `Controller.ControllerService.EvictStaleDeleteState` | pkg/driver/controller.go:788-800 | the same for delete |
| `Controller.ControllerService.ClearDetachStateOnAttach` | pkg/driver/controller.go:580-590 | after the sweep the attached pair has neither log nor series |
| `Controller.ControllerService.OnDetachFailed` | pkg/driver/controller.go:592-632 | log, series and warning count after a failed attempt |
| `Controller.ControllerService.OnDetachSucceeded` | pkg/driver/controller.go:634-659 | the episode ends, log and series go; a recovery is announced iff it had tripped |
| `Controller.ControllerService.OnDeleteFailed` | pkg/driver/controller.go:695-756 | as for detach, with a warning for the first failure of an episode too |
| `Controller.ControllerService.OnDeleteSucceeded` | pkg/driver/controller.go:758-786 | the episode ends, log and series go; a recovery is announced iff it had tripped |
| `Controller.ControllerService.ControllerUnpublishVolume` | pkg/driver/controller.go:478-543 | answer, books and whether a command went out, in every case: one does iff the key is free and the pair not paused; a probe that confirms nothing leaves the books as the sweep left them; the in-flight key is given back |
| `Controller.FourDetaches` | pkg/driver/controller.go:478-543 | four calls of that handler: after three failures that are not for good, at most four hours apart and spanning five minutes, the next within ten minutes commands nothing |
| `Controller.ControllerService.DeleteVolume` | pkg/driver/controller.go:338-429 | answer, books and whether a delete went out, in every case: one does iff the handler gets past the breaker and the listing shows no snapshot; a positive probe falls through to a real attempt and a snapshot in the way is no failure |
| `Controller.ControllerService.ControllerPublishVolume` | pkg/driver/controller.go:431-476 | answer and books in every case, a request that does not validate included; after a successful attach the pair is not paused at any time |
| `DetachProtocol.NextKeepsExclusion` | pkg/driver/controller.go:488-500 | every running handler holds its key, and every held key has its one running handler |
| `DetachProtocol.OnlyTheHolderWrites` | pkg/driver/controller.go:488-543 | a step of another handler leaves a held key's log alone or drops it whole |
| `DetachProtocol.DetachLogsChange` | pkg/driver/controller.go:509-543 | the only step that adds to a detach log is the failed answer to an attempt of the key's holder |
| `DetachProtocol.NextKeepsInv` | pkg/driver/controller.go:491-543 | every step keeps failures of an open breaker spaced by the wait table |
| `DetachProtocol.SweepsAfterFourHours` | pkg/driver/controller.go:555-561 | in every run, a sweep drops exactly the logs whose last failure, with its wait, lies more than 240 minutes before the handler's timestamp |
| `DetachProtocol.DueInMinutes` | pkg/driver/internal/breaker.go:159-166 | the waits add up to 10, 40, 100 and then 120 more minutes each |
| `DetachProtocol.DetachCommandBudget` | pkg/driver/controller.go:491-543 | in every run, the n-th real detach attempt after the trip starts no earlier than D(n) minutes after it, the one in flight included |
| `DetachProtocol.OneAttemptPerKey` | pkg/driver/controller.go:488-500 | at most one handler per key at any time |
| `DetachProtocol.NextKeepsBooks` | pkg/driver/controller.go:502-543 | every step of any handler, its bookkeeping as one step, keeps the gauge in agreement and the warnings as the logs call for |
| `DetachProtocol.GaugesAndEvents` | pkg/driver/controller.go:555-659 | in every run over keys that do not collide, a handler's bookkeeping as one step: gauge agrees with breaker for detach and delete, warnings as the logs call for, at most 4 and 5 per episode |
| `DetachProtocol.CollidingRunDisagrees` | pkg/driver/internal/breaker.go:74-76 | for any two pairs with one key, a run of two handlers after which the gauge disagrees |
| `DetachProtocol.AgreementIffSeparate` | pkg/driver/controller.go:491-499 | with a handler's bookkeeping as one step, all runs over a set of pairs keep the gauge in agreement iff no two of the pairs share a key |
| `DetachProtocol.RecoveryIffTripped` | pkg/driver/controller.go:634-659 | a recovery is announced iff the step ends an episode well and the episode had tripped |
| `DetachProtocol.RecoveryFollowsAWarning` | pkg/driver/controller.go:634-659 | in every run a recovery is announced once, by the step that ends an episode which had tripped and of which a warning had been emitted |
| `DetachProtocol.HandlerAlone` | pkg/driver/controller.go:478-543 | a detach or delete handler that nobody interrupts does to the books what the handler's method does, and leaves nothing else behind |
| `DetachProtocol.OthersAlone` | pkg/driver/controller.go:431-476 | an attach that succeeds does the same, one that fails leaves the books alone, and handlers of other kinds only hold their key for a while |
| `LockRegions.NextKeepsCovered` | pkg/driver/controller.go:555-659 | every lock region a step: a pair whose series and breaker agree, up to what some handler still owes, stays so under every step iff it is not the drop of its series while its breaker is open and nobody is left to publish, nor the publication while it is closed and nobody is left to drop |
| `LockRegions.CoveredIffUnbroken` | pkg/driver/controller.go:555-659 | and so all pairs stay so iff the step is neither |
| `LockRegions.CoveredIffNothingBreaks` | pkg/driver/controller.go:555-659 | over pairs that do not collide, a run keeps all pairs so throughout iff none of its steps is one of these |
| `LockRegions.AgreesWhenQuiet` | pkg/driver/controller.go:555-659 | then gauge and breaker agree whenever no handler owes anything |
| `LockRegions.UndisturbedNeverBreaks` | pkg/driver/controller.go:555-659 | no step is one of these in a run in which every handler finishes its bookkeeping before another one of the operation acts |
| `LockRegions.AgreementIffAlone` | pkg/driver/controller.go:491-659 | in all runs over a set of pairs gauge and breaker agree whenever no handler owes anything, iff the set has at most one pair |
| `LockRegions.FailingAlone` | pkg/driver/controller.go:478-619 | the regions of a handler that fails for good, with nobody in between, change the books as the failure taken as one step |
| `LockRegions.ASweepLosesASeries` | pkg/driver/controller.go:555-561 | for any two pairs with different keys, a run after which one has an open breaker, no series, and nobody to publish it |
| `LockRegions.ASharedKeyLeavesASeries` | pkg/driver/internal/breaker.go:74-76 | for any two pairs with one key, a run after which one has a series without a breaker, nobody interleaving |
| `LockRegions.ALateSeriesStays` | pkg/driver/controller.go:592-619 | for any two pairs with different keys, a run after which one has a series, no entry in the breaker, and nobody to drop it |
| `MetaCache.MetaCache.Enter` | pkg/cloud/metacache.go:68-88 | first lock region: serve a fresh value, join a running fetch, or claim the fetch |
| `MetaCache.MetaCache.Publish` | pkg/cloud/metacache.go:92-99 | second lock region: the claim is dropped; only a success is remembered, for one TTL |
| `MetaCache.MetaCache.Get` | pkg/cloud/metacache.go:67-104 | without concurrency: a stale cache asks its loader once and passes the answer on; a failure leaves the cache as it was |
| `MetaCache.KeyedMetaCache.Entry` | pkg/cloud/metacache.go:118-128 | one entry per key, made on first use with the common TTL |
| `SingleFlight.NextKeepsInv` | pkg/cloud/metacache.go:67-104 | every step of any thread keeps calls, frames, caches and results consistent |
| `SingleFlight.OneFetchPerCache` | pkg/cloud/metacache.go:79-93 | at most one thread is between claiming and clearing the loading slot of a cache |
| `SingleFlight.WaiterHasAnOwner` | pkg/cloud/metacache.go:79-101 | a waiter's call is closed, or a live thread still owns it |
| `SingleFlight.WaitersGetTheOwnersResult` | pkg/cloud/metacache.go:81-103 | owner and waiters of a call return one result |
| `SingleFlight.CachedResultsAreFresh` | pkg/cloud/metacache.go:63-75 | a result served from a cache is a success published before it was served, and less than one TTL before but for the permanent project cache |
| `SingleFlight.OneProjectClient` | pkg/cloud/project_scope.go:49-71 | at most one successful lookup of the project in any run, and every caller that gets a client gets that one |
| `SingleFlight.FailureIsNotCached` | pkg/cloud/metacache.go:92-99 | publishing a failure changes nothing but the claim |
| `SingleFlight.CatalogLoadersAskForTheProject` | pkg/cloud/project_scope.go:49-71 | a catalog loader may ask for the project client and for nothing else, and the project's loader for nothing |
| `SingleFlight.SomebodyCanMove` | pkg/cloud/cloud.go:752-807 | waits-for descends from the catalogue caches to the project cache and ends at a thread that can step |
| `SingleFlight.NestedFlightsNeverDeadlock` | pkg/cloud/project_scope.go:49-71 | in every reachable state with a thread inside get, some thread inside get can take a step that changes it |
| `SingleFlight.GetAlone` | pkg/cloud/metacache.go:67-104 | a get that nobody interleaves serves a fresh value, or returns the loader's answer, keeping a success and forgetting a failure |
| `RateLimiter.AdaptiveRateLimiter.SetRateLocked` | pkg/cloud/ratelimit.go:223-233 | the bucket's rate is the rate, its burst the rate rounded down but at least 1 |
| `RateLimiter.AdaptiveRateLimiter.OnThrottled` | pkg/cloud/ratelimit.go:127-150 | the transition for a 429; bounds and bucket are kept |
| `RateLimiter.AdaptiveRateLimiter.OnServerError` | pkg/cloud/ratelimit.go:156-184 | the transition for a 5xx; lastAdj moves even at the floor |
| `RateLimiter.AdaptiveRateLimiter.OnSuccess` | pkg/cloud/ratelimit.go:186-219 | the transition for anything else, with the hold during a young 5xx spell |
| `RateLimiter.AdaptiveRateLimiter.DoRequest` | pkg/cloud/ratelimit.go:340-396 | in numbers: a 429 halves the rate, down to 1, and is no server error; else one of the two 5xx codes takes a tenth of it and starts or continues a spell; each at most once a second; anything else adds 1, up to 20, five seconds after the last change, unless within ten seconds of a server error of a spell younger than ninety; a shed request changes nothing; rate, limit and burst agree |
| `RateLimiter.RunStaysInBounds` | pkg/cloud/ratelimit.go:127-219 | in every run, timestamps in any order: the rate stays in 1..20, is 20 before the first adjustment, and lastAdj only moves forward, by 1s for a fall and 5s for a rise |
| `RateLimiter.DecayedIsAPower` | pkg/cloud/ratelimit.go:127-184 | n decreases multiply by 0.5 or 0.9 to the n |
| `RateLimiter.ErrorsClosedForm` | pkg/cloud/ratelimit.go:127-184 | n errors of one kind at least 1s apart give max(1, q·f^n) |
| `RateLimiter.BurstCostsOneStep` | pkg/cloud/ratelimit.go:55-59 | errors within 1s of a decrease cost nothing, however many |
| `RateLimiter.WholeBurstCostsOneStep` | pkg/cloud/ratelimit.go:55-59 | a whole burst, its first error included, costs one decrease, floored at the minimum |
| `RateLimiter.RecoveryClosedForm` | pkg/cloud/ratelimit.go:186-219 | k successes at least 5s apart, clear of 5xx, give min(20, q+k) |
| `RateLimiter.NineteenStepsFromFloorToCeiling` | pkg/cloud/ratelimit.go:186-219 | the ceiling is reached from the floor iff there are at least 19 of them |
| `RateLimiter.OneRound` | pkg/cloud/ratelimit.go:156-219 | in an old spell one scheduled success and 5xx map q to 0.9(q+1) |
| `RateLimiter.SpellConvergesToNine` | pkg/cloud/ratelimit.go:156-219 | n rounds multiply 9-q by 0.9^n |
| `RateLimiter.DistanceToNine` | pkg/cloud/ratelimit.go:85-92 | the distance to 9 after n rounds is the n-fold decay of what it was, from either side; by DecayedIsAPower that is 0.9^n times it |
| `RateLimiter.RoundsLeaveTheFloor` | pkg/cloud/ratelimit.go:85-92 | below 9, and so from the floor, the schedule raises the rate |
| `RateLimiter.FloorIff` | pkg/cloud/ratelimit.go:127-219 | from the floor, whatever comes in whatever order, the rate stays there through every step iff every success comes under 5s after the anchor (which each error a second later moves) or is held back by a young spell |
| `RateLimiter.OldSpellFloorIff` | pkg/cloud/ratelimit.go:85-92 | in an uninterrupted spell at least 90s old it stays iff every success comes under 5s after the anchor |
| `RateLimiter.CrowdedErrorsPinTheFloor` | pkg/cloud/ratelimit.go:170-178 | one such pattern: 5xx between 1 and 5 seconds apart hold the rate at the floor, whatever succeeds in between |
| `ModifyRequests.MergeJoins` | pkg/driver/controller_modify_volume.go:153-160 | merging a request that does not conflict gives the join of all requests so far |
| `ModifyRequests.AbsorbIsTheJoin` | pkg/driver/controller_modify_volume.go:99-160 | for every sequence of requests, what is executed is the join of the accepted ones |
| `ModifyRequests.AbsorbOnlyGrows` | pkg/driver/controller_modify_volume.go:85-88 | the aliased first request never loses a field it had; who was accepted is covered in the end, who was rejected conflicts with the end result |
| `ModifyRequests.JoinIsUnique` | pkg/driver/controller_modify_volume.go:143-160 | merges of the same requests, in any order and however often each, ask for the same |
| `ModifyRequests.WhoConflicts` | pkg/driver/controller_modify_volume.go:143-151 | a request conflicts iff it sets a field the merge has set differently; one the merge covers is accepted and changes nothing, one without a common field is accepted |
| `ModifyRequests.ModifyVolumeRequestHandler.ValidateModifyVolumeRequest` | pkg/driver/controller_modify_volume.go:143-151 | rejects exactly the requests that set a field the merge has set differently |
| `ModifyRequests.ModifyVolumeRequestHandler.MergeModifyVolumeRequest` | pkg/driver/controller_modify_volume.go:153-160 | the fields the request sets replace the merge's |
| `ModifyRequests.ModifyVolumeRequestHandler.Process` | pkg/driver/controller_modify_volume.go:101-108 | merges what validates, leaves the merge alone otherwise |
| `ModifyRequests.ModifyVolumeRequestHandler.ProcessModifyVolumeRequests` | pkg/driver/controller_modify_volume.go:110-126 | verdicts and final merge of everything that reaches the channel |
| `CoalescingProtocol.NextKeepsInv` | pkg/driver/controller_modify_volume.go:70-138 | every step of any requester or handler keeps lists, map and phases consistent |
| `CoalescingProtocol.MapStep` | pkg/driver/controller_modify_volume.go:72-115 | only a submission adds to the map, under a free volume, and only a timeout removes, its own volume |
| `CoalescingProtocol.OneHandlerPerVolume` | pkg/driver/controller_modify_volume.go:72-115 | at most one registered handler per volume; a timeout removes its own entry and no other |
| `CoalescingProtocol.TakenOnce` | pkg/driver/controller_modify_volume.go:101-108 | a request, accepted or rejected, is in one list of one handler, once, and that handler is of its volume |
| `CoalescingProtocol.ResponseComesFromTheTaker` | pkg/driver/controller_modify_volume.go:103-134 | a response comes from the handler that took the request, says what it did with it, and is final |
| `CoalescingProtocol.ExecutesOnceForItsOwn` | pkg/driver/controller_modify_volume.go:115-138 | a handler that has executed did so once, after leaving the map, with the join of exactly its accepted requests, in conflict with every rejected one; nothing changes afterwards |
| `CoalescingProtocol.DrainsBeforeExecuting` | pkg/driver/controller_modify_volume.go:119-127 | a handler executes only once its time is up and nobody is blocked on its channel |
| `CoalescingOutcome.ExecutesUnlessStuck` | pkg/driver/controller_modify_volume.go:101-127 | a handler executes in some continuation, by its own steps, iff it is not refusing a requester that has given up |
| `CoalescingOutcome.Executes` | pkg/driver/controller_modify_volume.go:110-127 | the steps that take it there: it refuses, times out, receives its senders one by one and executes |
| `CoalescingOutcome.StuckNeverExecutes` | pkg/driver/controller_modify_volume.go:103 | a handler that refuses a requester that has given up stays so and never executes; if its time was not up it stays in the map for ever |
| `CoalescingOutcome.TakenUnlessDeaf` | pkg/driver/controller_modify_volume.go:72-75 | a requester that has found a handler is taken in some continuation iff the handler has neither executed nor got stuck; otherwise it waits in every continuation |
| `CoalescingOutcome.ServedIffInReach` | pkg/driver/controller_modify_volume.go:101-134 | a requester that has been taken and still listens is answered in some continuation iff it was rejected, or its handler is neither stuck nor past it in its answers |
| `CoalescingOutcome.SomebodyIsStranded` | pkg/driver/controller_modify_volume.go:72-75 | a run in which a handler executes between a requester's lookup and its send |
| `CoalescingOutcome.AConflictBlocksTheHandler` | pkg/driver/controller_modify_volume.go:55-58 | for any conflicting two requests, a run in which the handler gets stuck and stays in the map |
| `CoalescingOutcome.ATimedOutHandlerCanBeBlocked` | pkg/driver/controller_modify_volume.go:119-127 | the same past the timeout: nobody waits, nothing is executed, and nothing ever will be |
| `CoalescingOutcome.TheNextRequestIsLost` | pkg/driver/controller_modify_volume.go:72-75 | every later request for the volume of a stuck registered handler is lost with it |
| `Backoff.SleptClosedForm` | pkg/cloud/consts.go:42-104 | n sleeps take d(f^n-1)/(f-1), for all d, n and f other than 1 |
| `Backoff.WalkBackoff` | pkg/cloud/cloud_volume_op_test.go:146-161 | the loop polls Steps times and sleeps Steps-1 times |
| `Backoff.BudgetsInSeconds` | pkg/cloud/consts.go:42-81 | the three budgets: about 467s, 583s and 23.9s |
| `VolumeWaits.Cloud.Condition` | pkg/cloud/cloud_private.go:142-173 | which answers end a wait, and how |
| `VolumeWaits.Cloud.WaitVolume` | pkg/cloud/cloud_private.go:138-183 | the wait only reads the volume, at most Steps times; it ends at the first read that ends it, at a done context or when its steps are used up, with the outcome that belongs to it |
| `VolumeWaits.WaitsIsDeterministic` | pkg/cloud/cloud_private.go:138-183 | that description fixes length and outcome of a wait |
| `VolumeWaits.WaitedForAReason` | pkg/cloud/cloud_private.go:138-183 | a wait that reports its goal has just read it; one that gives up has never read it |
| `VolumeWaits.AVanishedVolumeIsPolledToTheEnd` | pkg/cloud/cloud_private.go:145-152 | a wait for a vanished volume uses up its budget iff absence is not its goal; otherwise it ends with the first read |
| `VolumeWaits.GoalsInFull` | pkg/cloud/cloud_private.go:97-103 | what each of the six waits waits for, in the fields of the volume; detached is AVAILABLE or not attached to the instance |
| `VolumeWaits.EndsInFull` | pkg/cloud/cloud_private.go:138-173 | which answers end which wait and how, and after how many reads it gives up |
| `VolumeWaits.StatusInFull` | pkg/cloud/entity/volume.go:23-71 | what keeps a volume from being migrated, in its fields |
| `VolumeWaits.DetachingIsNotDetached` | pkg/driver/controller_delete_breaker_test.go:56-66 | a DETACHING volume that is still attached here is not detached |
| `VolumeWaits.AttachedIsNotDetached` | pkg/cloud/cloud_volume_op_test.go:42-47 | with the predicates the tests fix, no volume meets the goals of attach and detach at once |
| `VolumeOps.WaitDiskAttached` | pkg/cloud/cloud_private.go:187-206 | a complete wait, whose success shows the volume attached here and IN-USE |
| `VolumeOps.GetVolumeForAttach` | pkg/cloud/cloud.go:327-351 | one read, and which of the three problems it shows |
| `VolumeOps.AttachVolume` | pkg/cloud/cloud.go:214-317 | success only if the last call read the volume attached here and IN-USE; an attach goes out iff the first read shows the volume not attached here and not in ERROR, and once more when it was refused as busy and a later read shows the volume free; a failure names its reason in the calls, and a wait that gave up came after an attach that went through, or after a first read already attached here; at most 24 calls |
| `VolumeOps.AttachOnceMore` | pkg/cloud/cloud.go:252-307 | after a refusal as busy: a wait for the volume to clear, and at most one more attach |
| `VolumeOps.ReissueAttach` | pkg/cloud/cloud.go:293-316 | the second attach, right after a read of AVAILABLE and not attached here |
| `VolumeOps.AtMostTwoAttaches` | pkg/cloud/cloud.go:243-307 | no run of attach has a third attach, nor a second one without the refusal |
| `VolumeOps.AttachesAreDue` | pkg/cloud/cloud.go:226-307 | what was read before each attach, in full |
| `VolumeOps.DetachVolume` | pkg/cloud/cloud.go:359-422 | success only after not-found, a detached read or a done code; exactly one detach iff the first read shows the volume attached here, not AVAILABLE and not in ERROR; a failure names its reason |
| `VolumeOps.DetachedInFull` | pkg/cloud/cloud.go:359-422 | which calls show a volume detached: not-found, AVAILABLE or not attached to the instance, or one of the three done codes |
| `VolumeOps.DetachesAreDue` | pkg/cloud/cloud.go:382-396 | what was read before the detach, in full |
| `VolumeOps.IsDetachedFromProbe` | pkg/cloud/cloud.go:436-447 | one read and no command; detached iff that read shows it |
| `VolumeOps.DeleteVolume` | pkg/cloud/cloud.go:165-206 | success only after not-found or an accepted delete; at most one delete, the last call, right after a read of deletable or not-found, and one does go out unless the wait for that gives up; a failure names its reason |
| `VolumeOps.DeletesAreDue` | pkg/cloud/cloud.go:183-192 | what was read before the delete, in full |
| `VolumeOps.DeletedInFull` | pkg/cloud/cloud.go:192-206 | which calls show a volume deleted |
| `VolumeModify.RoundUpIsRightBelowTheOverflow` | pkg/util/util.go:53-59 | for every int64: rounds up to GiB iff the sum does not overflow and a size of -GiB or less is one above a multiple of a GiB; above, the size asked for is one no volume reaches |
| `VolumeModify.SizesRoundTrip` | pkg/cloud/cloud_private.go:364-368 | the int64 round trip of a uint64 size loses nothing |
| `VolumeModify.WantedCovers` | pkg/cloud/cloud.go:455-465 | the size asked for covers the bytes wanted and what is there, is one of the two with the bytes rounded up to GiB, and exceeds what is there iff that is too small |
| `VolumeModify.ToleratedInFull` | pkg/cloud/cloud.go:488-490 | the errors that are tolerated: four codes of a running migration, and a resize with nothing to change |
| `VolumeModify.CheckDesiredState` | pkg/cloud/cloud_private.go:362-375 | no error iff the volume needs no further modification |
| `VolumeModify.CheckSameZone` | pkg/cloud/cloud_private.go:412-446 | equal types cost nothing; otherwise two reads, compared with the silent failures the code does not notice |
| `VolumeModify.WhenZonesAreRight` | pkg/cloud/cloud_private.go:412-446 | the comparison agrees with the true zones iff no read failed loudly and: none failed, or one failed silently and the zones are the same, or both did and they differ |
| `VolumeModify.ModifyVolumeType` | pkg/cloud/cloud.go:546-571 | exactly one resize command with these arguments, then reads; success only after a read of settled and of the type |
| `VolumeModify.MigrateVolumeToType` | pkg/cloud/cloud.go:513-544 | at most one migration, and one iff the volume is neither on the type nor migrating nor being created; success only on the target type; a failure names its reason |
| `VolumeModify.WaitVolumeMigrated` | pkg/cloud/cloud_private.go:317-333 | a complete wait, whose success shows the volume settled on the type |
| `VolumeModify.WaitAndCheck` | pkg/cloud/cloud.go:492-498 | no error iff the settled volume is as large as wanted and of the type |
| `VolumeModify.ValidateModifyVolume` | pkg/cloud/cloud_private.go:338-357 | a volume that needs nothing is waited for and checked, any other is left to the caller |
| `VolumeModify.MoveToZone` | pkg/cloud/cloud.go:475-484 | a migration only of a volume attached nowhere, and only when the two catalogue reads show two zones or both failed silently, and then it does go out before the resize; it stops without an error iff it stopped on an error without an inner one |
| `VolumeModify.MigrateFirst` | pkg/cloud/cloud.go:479-484 | the migration the comparison calls for: it stops with the error it was refused with, or because the wait gave up, and without an error iff that error had no inner one |
| `VolumeModify.IssueModification` | pkg/cloud/cloud.go:475-498 | the resize with the wanted size and type, after the migration if any, then wait and check; it does go out unless an error or the wait for the migration stops it short; success without that goal seen iff it stopped on an error without an inner one |
| `VolumeModify.ResizeOrModifyDisk` | pkg/cloud/cloud.go:449-499 | success, and not a later read of settled, large enough and of the type with the size it returns, iff the operation stopped on an error without an inner one: at its client, its first read, the zones, the client of the migration, or a refused command; that success is a volume of at least the bytes asked for, no smaller than before; every resize covers them and rounds up to the next GiB at most; one goes out whenever the first read shows too few bytes or another type and nothing stops it short, and nothing but reads otherwise; a failure is the error it stopped on, or a wait that gave up or found it not as wanted; the type left empty becomes the volume's own; at most 30 calls |
| `VolumeModify.ASilentReadIsSuccess` | pkg/cloud/cloud.go:456-459 | a run in which one failed read without an inner error makes the resize succeed with size 0 |
| `VolumeModify.OneOfEach` | pkg/cloud/cloud.go:475-490 | at most one migration and one resize, in that order |
| `SnapshotLookup.FirstMatchIsFirst` | pkg/cloud/cloud.go:628-632 | the first snapshot of a list with that volume and name, if there is one |
| `SnapshotLookup.GetVolumeSnapshotByName` | pkg/cloud/cloud.go:607-663 | the loop is the walk, in at most 50 calls against any server |
| `SnapshotLookup.GoesOnInFull` | pkg/cloud/cloud.go:646-659 | the walk goes on while the server counts more pages, or sends full pages of 100 without counting |
| `SnapshotLookup.WalkSearchesVisited` | pkg/cloud/cloud.go:607-663 | for any server: the walk is the first match among the items of the pages it visits while it goes on, and if there is none ends as those pages make it end |
| `SnapshotLookup.FoundIffVisited` | pkg/cloud/cloud.go:607-663 | for any server: found iff some item visited matches |
| `SnapshotLookup.WalkIsSearch` | pkg/cloud/cloud.go:614-660 | on a stable listing the walk from any page is the search of what the later pages hold |
| `SnapshotLookup.CountedLookup` | pkg/cloud/cloud.go:650-656 | with an honest page count, any page size and at most 50 pages: the first snapshot of that volume and name in the whole list, or not-found iff there is none |
| `SnapshotLookup.MissesBeyondTheCap` | pkg/cloud/consts.go:115-121 | it differs from the search of the whole list iff the first match lies beyond the page cap |
| `SnapshotLookup.UncountedLookup` | pkg/cloud/cloud.go:646-659 | without a page count: the search of fifty full pages, or of page 1 alone if pages are cut below 100; it misses iff the first match lies beyond that |
| `SnapshotLookup.AShiftingListHidesASnapshot` | pkg/cloud/cloud.go:614-660 | a snapshot deleted between two pages makes the walk miss one that is there |
| `CreateOnce.NextKeepsExclusion` | pkg/driver/controller.go:126-136 | two handlers never hold one key, and a handler gives back only its own, whatever the lookups answer |
| `CreateOnce.OneCreatorPerName` | pkg/driver/controller.go:877-881 | in every run at most one handler works on a name |
| `CreateOnce.SoundLookupIsRight` | pkg/cloud/cloud_private.go:22-47 | a sound lookup sends a handler on to create only if the target does not exist, and away only if it does |
| `CreateOnce.SoundWalkIsRight` | pkg/driver/controller.go:883-893 | the same of the paged snapshot lookup |
| `CreateOnce.NextKeepsInv` | pkg/cloud/cloud.go:87-131 | every step but a lookup that misses an existing target keeps targets unique, creates that take effect and fail included |
| `CreateOnce.WhatMisses` | pkg/cloud/cloud.go:607-663 | exactly which answers miss: any number of volumes but one, or not-found; no match on the pages visited, which end in not-found or in an error without an inner one |
| `CreateOnce.SoundRunsAreMissFree` | pkg/driver/controller.go:874-902 | runs with sound lookups have no miss |
| `CreateOnce.NoDuplicates` | pkg/driver/controller.go:874-902 | in every run without a miss, and so with sound lookups: one volume per name, one snapshot per volume and name |
| `CreateOnce.DuplicateIffMiss` | pkg/driver/controller.go:874-902 | after any run without a miss, a step lets some create that takes effect duplicate iff it is a miss |
| `CreateOnce.ASilentLookupDuplicates` | pkg/cloud/cloud.go:620-623 | a lookup that errs without an inner error, on any page, leads to a duplicate iff the snapshot exists |
| `CreateOnce.TwoOfANameBecomeThree` | pkg/cloud/cloud_private.go:40-43 | anything but exactly one volume of a name reads as none, and one more is created |
| `CreateOnce.CreatorAlone` | pkg/driver/controller.go:867-902 | a handler that nobody interrupts creates exactly what its lookup comes back without, and gives its key back |
| `CreateOnce.NamesAreNotEmpty` | pkg/driver/controller.go:867-872 | in every run nobody works on an empty name or on a snapshot of no volume |
| `CreateHandlers.CreateSnapshot` | pkg/driver/controller.go:867-902 | the answer, that of a creation refused without an inner error included, and that it creates iff the name is free and the walk comes back empty-handed; the key is given back |
| `CreateHandlers.GetVolumeByName` | pkg/cloud/cloud_private.go:22-47 | found iff the listing has exactly one volume; every other listing is not-found |
| `CreateHandlers.CreateVolume` | pkg/driver/controller.go:92-279 | it creates iff zone and size are found, the name is free, the handler is admitted, the first lookup does not fail, the request can be built and the second lookup reads none; what it answers in every case, neither response nor error where it passes on an error without an inner one; the key is given back |
| `ApiRoute.Index` | pkg/cloud/apiroute.go:111-113 | the first position at which a string occurs in another, or -1 if there is none |
| `ApiRoute.StripHost` | pkg/cloud/apiroute.go:109-118 | what follows scheme and host |
| `ApiRoute.StripURL` | pkg/cloud/apiroute.go:106-124 | the path of a URL |
| `ApiRoute.LabelPieces` | pkg/cloud/apiroute.go:126-158 | the loop over the segments gives the labels of what starts at the first static one, within the length bound |
| `ApiRoute.NormalizeAPIRoute` | pkg/cloud/apiroute.go:106-159 | both together |
| `ApiRoute.LabelShape` | pkg/cloud/apiroute.go:95-158 | on every string: unknown, or 1 to 6 segments, the first static, each static or {id} |
| `ApiRoute.NormalizeIsIdempotent` | pkg/cloud/apiroute.go:106-159 | on every string, normalising twice is normalising once |
| `ApiRoute.RouteIsAFixedPoint` | pkg/cloud/apiroute.go:106-159 | a label is its own label |
| `ApiRoute.IdentifiersDoNotShow` | pkg/cloud/apiroute.go:134-151 | in an absolute URL, replacing a non-static segment by another changes nothing |
| `ApiRoute.IdentifiersDoNotShowInPaths` | pkg/cloud/apiroute.go:111-151 | nor in a bare path, unless one of the two reads as a URL with a scheme |
| `ApiRoute.AColonCanShow` | pkg/cloud/apiroute.go:111-118 | which an identifier ending in a colon before a doubled slash does |
| `ApiRoute.FilledRouteRoundTrips` | pkg/cloud/apiroute.go:97-105 | the URL built for a route, prefix in front and identifiers filled in, is labelled with that route |
| `ApiRoute.KnownRoutesAreLabels` | pkg/cloud/apiroute.go:179-202 | each of the routes the driver calls is a label, of at most five segments, and its own label |
| `ApiRoute.AttachIsLabelled` | pkg/cloud/apiroute.go:191-192 | an attach or detach, for any endpoint, project and identifiers, gets the route of its table |
| `ApiRoute.QueriesDoNotShow` | pkg/cloud/apiroute.go:120-124 | a query or fragment does not change the label, once the path has begun |
| `ApiRoute.StaticIsWellFormed` | pkg/cloud/apiroute.go:51-81 | every static segment can stand in a path, and neither placeholder is one |

## Left out

- The vServer SDK, gRPC, Kubernetes clients, event sinks, tracing and metric registration: foreign calls. The IaaS is an oracle of answers, events are counted, gauges are maps.
- Error classification: whether an error is terminal is an input to the breaker.
- The token bucket of golang.org/x/time/rate: only the rate and burst it is set to are modelled. Rates and durations are real numbers, so rounding of float64 and of nanoseconds is not captured.
- Breaker entries are values in the map and not objects it points to, so aliasing of an entry is not captured; the code never keeps a pointer to one outside its lock.
- DetachProtocol.GaugesAndEvents: a handler's bookkeeping after an answer is one step here, while the code takes several lock regions; `LockRegions` takes them one by one and says exactly when the agreement ends.
- DetachProtocol.AgreementIffSeparate: here too it is one step; with interleaved lock regions its positive half fails (`LockRegions.ASweepLosesASeries`).
- DetachProtocol.NextKeepsBooks: a handler's bookkeeping is one step here as well.
- LockRegions.NextKeepsCovered: a success reads the breaker and clears it in one step, and a failed delete asks whether the pair is tracked in one step with recording the failure; the code lets go of the lock in between, which the warnings and recoveries counted there do not see.
- Delete attempts are not spaced in time while the breaker is open, because a positive probe falls through to an attempt; no command budget is claimed for delete.
- DetachProtocol.DetachCommandBudget: the time of an attempt is the start of its handler, as in the code; how long the IaaS takes is not modelled.
- SingleFlight.CachedResultsAreFresh: the TTL runs from the time stamp taken when a load is published, not from the moment the loader returned.
- CoalescingOutcome.ExecutesUnlessStuck: that a handler's own steps take it to its execution is proved; that the scheduler lets it take them is not modelled. Executions of two handlers of one volume may overlap.
- The outcome of an execution of a merged request is not modelled beyond who is told of it.
- Resolving the project client inside a read is part of the read's answer in the volume operations and the snapshot lookup.
- The two catalogue reads that compare zones run one after the other; which of two failures is reported is an input.
- The resize branch of create-by-name: the code passes its arguments in another order there than elsewhere and returns the resize result. It creates nothing and is abstract here.
- Creates that take effect after their call has returned, and processes that restart while one is out: then the in-flight key no longer protects the name.
- CreateHandlers.CreateVolume: what the handler makes of zone, size, parameters, content source and PVC is one answer each; the contents of the request are not modelled.
- CreateHandlers.CreateSnapshot: a found snapshot is reported ready whatever its status; snapshot status and the wait for ACTIVE after a creation, which can fail as well, are not modelled.
- Splitting a string at slashes and cutting it at a query are the library functions of the source, here functions.
- Node service, mounter, device discovery, formatting options, request validation beyond empty names, CLI and environment parsing, the create gate, the pre-stop hook: no state of interest, or foreign.
- Panics inside loaders or handlers, and process restart.
