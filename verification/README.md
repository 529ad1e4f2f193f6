# Verified model of the sardeenz control plane

Sardeenz serves models on a fleet of GPU workers. Its control plane places model
instances on devices, starts and stops their runners, moves them between workers
without interrupting traffic, publishes a routing map to the proxies, and elects
one leader among its replicas. This project models that logic in Dafny and proves
what the services promise each other. `dafny verify dfyconfig.toml` checks it.

Protocols are step machines: every await is a step at which other actors may step
in, every Lua script is one atomic step, and whether a call fails, before or
after taking effect, is a choice of the environment. Services that update fields
in place are classes whose methods carry the loops of the source and are proved
against functions on their old state.

| module | models |
|---|---|
| `Lifecycle` | the instance lifecycle, the aggregate state of a model and its routing projection |
| `MoveProtocol`, `MoveSafety`, `MoveUptime`, `MoveLimits`, `MoveOneSide`, `MoveCompletes`, `MoveAnswers`, `MoveResumes`, `MoveRecovers` | the resumable move transaction, over all runs with crashes, failed calls, restarts and concurrent actors |
| `LeaderElection`, `LeaderTenure` | the Kubernetes lease election with per-process clocks and request timeouts |
| `RoutingMap` | the Lua scripts on the routing map and the cutover barrier |
| `Holds`, `MemoryBudget` | capacity holds, the cached figures kept exact, validation of worker reports |
| `Placement`, `Hosting`, `Overbooking` | automatic and fixed placement, what they come to said in terms of the fleet, and the ledger of holds over runs of deployments |
| `AmbiguousStart`, `DeployOutcome` | deployment whose start reply may be lost, beside the three reconciliation passes |
| `StopTeardown` | drain, stop and teardown of an instance under arbitrary failures |
| `Eviction` | least-recently-used victims and the windowed circuit breaker |
| `StartupLog` | the chunked event-stream reader and its retrying capture |
| `Reaping` | reaping of instances without a model, against concurrent deployments |

## What the proofs found

Where the code and its comments disagree, the model follows the code.

- The recovery of a replacement start writes ERROR when the worker reports the
  runner absent, and expects that write to fail if the replacement has become
  ACTIVE meanwhile. ACTIVE to ERROR is an accepted edge, so the write succeeds. No
  run comes to fail a replacement that serves exactly when nobody activates it
  between the lookup and the write (`MoveLimits.DemotesExactly`,
  `MoveLimits.AbsentRunnerDemotesActive`).
- A failure report that writes REPLACEMENT_CLEANUP while the move is CUTTING_OVER
  takes the only serving instance away. Every run is served exactly when that
  report cannot arrive then and an ACTIVE replacement is left alone
  (`MoveLimits.ServedExactly`, `MoveLimits.RollbackExactly`).
- A move that finishes because it found no replacement can race with the creation
  and leave both records; every finish leaves one exactly when nothing is created
  while an executor finishes (`MoveLimits.FinishExactly`).
- A proxy whose presence key has expired still counts as outstanding at the
  cutover barrier, because a missing key reads as the number 0, which is earlier
  than any cutover (`RoutingMap.BarrierSound`).
- The lease constants tolerate a clock skew of up to 5000 ms and no more
  (`LeaderElection.DeployedIsSafe`, `LeaderElection.MutualExclusionExactly`).
- Clearing the holds of one worker can take another's along and leave its figure
  stale, exactly when the one's id followed by a colon begins the other's
  (`MemoryBudget.ClashExactly`).
- A refresh is documented to preserve the holds; a missing report drops those of
  its worker (`MemoryBudget.Service.RefreshWorkerBudget`,
  `MemoryBudget.Service.RefreshAll`).
- Automatic placement ignores an empty device type, a fixed placement compares it
  and so always refuses (`Placement.EmptyTypeNeverFixed`).
- When a lost reply is noticed after the deploy timeout, the stuck-instance pass
  has written ERROR first; the deployment's own ERROR write with the ambiguity
  flag is then refused, and none of the three passes modelled ever frees the
  capacity. No start is stranded
  so exactly when preparation, the client's start timeout and the write fit into
  the deploy timeout, the ERROR write does not fail and ownership is not lost
  (`AmbiguousStart.StrandedExactly`, `AmbiguousStart.StrandedForGood`). The
  deployed client waits a minute longer than the deploy timeout
  (`AmbiguousStart.DeployedStrands`).
- A write of the runner's endpoint that throws leaves a live runner whose id is
  not recorded and whose hold is released. Every live runner has its hold or its
  id on record exactly when that write does not throw and requests do not outlive
  the grace period (`AmbiguousStart.AddressableExactly`).
- Overlapping eviction cycles exceed the single-cycle rate bound by a full cycle
  each (`Eviction.BoundAttained`).

## Assumptions

- Move: the two instances have different addresses; listing a model's instances
  and storing a runner's endpoint are single steps. Other actors leave the
  source's record, its endpoint and the routing entry alone, and create the
  replacement's record at most once. On the operation they may report READY or
  CLEANUP once that record was created, and remove it in any phase but
  CUTTING_OVER and SOURCE_DRAINING. So a forced delete, an eviction or a stop of
  the source, and a second move of the same model before the first executor has
  returned are excluded. For the uptime theorem an ACTIVE replacement is left
  alone too: whoever activates it has registered its endpoint; one that is
  PENDING or STARTING keeps its endpoint's traffic, so a pass that has failed it
  has also removed its endpoint before an executor takes it up again; and nobody
  but the executor restarts one that has failed. `MoveOneSide` needs none of this.
- Leader election: a process's timers fire in deadline order, a renewal settles
  before the next one is due, all replicas use the same lease duration, and the
  graceful release on shutdown does not happen.
- Ambiguous start: a request reaches its worker within a bound or never, and a
  definite HTTP rejection means that the worker did not and will not start the
  runner. The bound is compared with the grace period, exactly.
- Placement and budgets: memory is an exact rational; a report does not list a
  device index twice; worker ids are unique in the pool; the tensor parallelism
  is an integer of at least 1; the move route refuses repeated device indices.
- Eviction: for the rate bound the clock does not go back. The engine itself is
  modelled for any clock, and `Eviction.PruningAgrees` says what a step back loses.
- Startup log: a JSON parser and printer that undo each other; no line of what
  the printer emits starts with white space, and it emits no carriage return.
- Timestamps are integers throughout; the source compares ISO strings and
  milliseconds.

## Model

| member | source | states |
|---|---|---|
| `Lifecycle.ServesAgainOnlyAfterRestart` | control-plane/src/services/model-lifecycle.ts:7-28 | along every path of accepted transitions an instance that began to drain or stop serves again only after it slept or failed and then started |
| `Lifecycle.StopIsNeverAbrupt` | control-plane/src/services/model-lifecycle.ts:7-28 | every accepted path from ACTIVE to STOPPED passes through DRAINING and STOPPING, or through ERROR |
| `Lifecycle.AggregateIsHighest` | control-plane/src/services/model-lifecycle.ts:34-63 | the aggregate outranks every instance state and is one of them, or STOPPED when there is none |
| `Lifecycle.AggregateUnique` | control-plane/src/services/model-lifecycle.ts:34-63 | it is the only state that does |
| `Lifecycle.AggregateConcat` | control-plane/src/services/model-lifecycle.ts:34-63 | aggregation is a monoid homomorphism: the aggregate of a concatenation is the higher of the two, STOPPED is the identity |
| `Lifecycle.ActiveMasksEverything` | control-plane/src/services/model-lifecycle.ts:34-63 | a model is ACTIVE exactly when one of its instances is |
| `Lifecycle.AggregateIgnoresStopped` | control-plane/src/services/model-lifecycle.ts:53-63 | STOPPED instances never change the aggregate |
| `Lifecycle.DashboardAgrees` | dashboard/server/clients/redis.ts:92-113 | the dashboard copy agrees if and only if some instance is not STOPPED |
| `Lifecycle.RoutesActiveExactly` | control-plane/src/services/sleep-wake.ts:22-64 | the routing entry is ACTIVE exactly when an instance is |
| `Lifecycle.RoutableInstanceKeepsEntry` | control-plane/src/services/sleep-wake.ts:22-64 | a model with an instance that starts, serves, drains or sleeps keeps a routing entry, and not as ERROR |
| `MoveProtocol.PhaseAdvances` | control-plane/src/services/model-lifecycle.ts:430-466 | a phase write is accepted if and only if it names the operation and the present phase, the next one, or the cleanup from any phase before the terminal ones; those have no exit |
| `MoveSafety.StepKeepsMoveInv` | control-plane/src/services/move-orchestration.ts:50-222 | the move invariant survives every step of the executor at every await, every crash, every call that fails before or after taking effect, and every admitted step of other actors |
| `MoveSafety.WriteAheadAndRollback` | control-plane/src/services/move-orchestration.ts:118-205 | in every state of every run: the source is without traffic only if CUTTING_OVER was persisted, not ACTIVE only if the barrier returned, and serves again whenever the move is cleaned up or given up |
| `MoveUptime.MoveWithoutDowntime` | control-plane/src/services/move-orchestration.ts:50-222 | every state of every run has the model routed ACTIVE with an instance serving; a move finishes with exactly one of the two records left, unless it found no replacement and one may still be created |
| `MoveLimits.ServedExactly` | control-plane/src/routes/models.ts:1091-1123 | every state of every run is served if and only if an ACTIVE replacement is left alone and no failure report arrives in CUTTING_OVER |
| `MoveLimits.RollbackExactly` | control-plane/src/routes/models.ts:1098-1103 | the source serves throughout every cleanup if and only if no failure report arrives in CUTTING_OVER |
| `MoveLimits.CleanupInterrupts` | control-plane/src/routes/models.ts:1098-1103 | a run from the admission of the move in which such a report makes the next executor interrupt service |
| `MoveLimits.FinishExactly` | control-plane/src/services/move-orchestration.ts:57-65 | every finish of every run leaves exactly one record if and only if no record is created while an executor finishes |
| `MoveLimits.LateCreationLeavesBoth` | control-plane/src/services/move-orchestration.ts:57-65 | a run in which the move finishes with both records left |
| `MoveLimits.DemotesExactly` | control-plane/src/services/move-orchestration.ts:241-258 | no run ever comes to fail a replacement that serves if and only if nobody activates it between the lookup of its runner and the write |
| `MoveLimits.AbsentRunnerDemotesActive` | control-plane/src/services/move-orchestration.ts:241-258 | otherwise a run in which an executor demotes a replacement that serves, and goes on to clean it up |
| `MoveOneSide.DestroysAtMostOneSide` | control-plane/src/services/move-orchestration.ts:104-205 | with any number of interleaving executors and arbitrary other actors, no operation ever tears down both instances, and each only in its terminal phase |
| `MoveOneSide.TerminalPhasesExclude` | control-plane/src/services/model-lifecycle.ts:430-466 | an operation that reached SOURCE_DRAINING never reaches REPLACEMENT_CLEANUP, and the other way round |
| `MoveCompletes.TearsDown` | control-plane/src/services/move-orchestration.ts:310-387 | from every lifecycle state, an ambiguous start included, an undisturbed teardown forgets its instance and its endpoint and leaves the operation and the other instance alone |
| `MoveCompletes.UndisturbedMoveCompletes` | control-plane/src/services/move-orchestration.ts:118-222 | from any READY or CUTTING_OVER store with both instances whole, an executor to which nothing happens ends with the source gone, its endpoint and the operation removed and the replacement serving |
| `MoveResumes.ResumedMoveCompletes` | control-plane/src/services/move-orchestration.ts:50-222 | from every idle state of every run in which the move is STARTING or READY with an ACTIVE replacement, cutting over or draining its source, whatever stage was reached before, such an executor removes the operation and every trace of the source and leaves the replacement serving alone |
| `MoveResumes.ResumedRollbackCompletes` | control-plane/src/services/move-orchestration.ts:57-116 | from every idle state of every run in cleanup, or STARTING or READY with the replacement failed or gone, it removes the operation and the replacement and leaves the source serving alone |
| `MoveResumes.ResumedStartCompletes` | control-plane/src/services/move-orchestration.ts:67-102 | from every idle state of every run in which the replacement is still being launched: a worker that reports the runner ready ends the move with the replacement alone, one that reports it absent with the source alone |
| `MoveResumes.UndecidedWaits` | control-plane/src/services/move-orchestration.ts:57-160 | while somebody else is still at work on the replacement, so that neither way is open, executors come and go and leave everything as it is |
| `MoveAnswers.FailsOnlyTheAbsent` | control-plane/src/services/move-orchestration.ts:229-258 | over all runs, an executor is about to fail a replacement only after its worker answered that the runner is absent, past the grace period |
| `MoveAnswers.OtherAnswersWait` | control-plane/src/services/move-orchestration.ts:229-327 | no worker, a runner still starting and one absent within the grace period change nothing and end the pass, in the recovery and in a teardown |
| `MoveAnswers.ErrorOnlyFromAnswer` | control-plane/src/services/move-orchestration.ts:241-387 | a step of the executor turns the replacement to ERROR only by the write that follows such an answer, or while it tears the replacement down |
| `MoveAnswers.GivesUpOnlyTheFailed` | control-plane/src/services/move-orchestration.ts:57-102 | a move still starting is given up only after its replacement was seen in ERROR |
| `MoveAnswers.StopsOnlyWhenCleared` | control-plane/src/services/move-orchestration.ts:310-343 | a teardown stops an ambiguous start only after the worker was asked and said that there is no runner, or named it |
| `MoveAnswers.DropsOnlyTheStopped` | control-plane/src/services/move-orchestration.ts:339-358 | an executor drops a record only at the end of a teardown of that side in which the worker confirmed that the runner it named is stopped, or when it named none |
| `MoveAnswers.DrainsBeforeStopping` | control-plane/src/services/move-orchestration.ts:339-343 | over all runs, an executor takes the endpoint, the state, the runner or the record of an instance with a known runner away only after, in the same teardown, it was answered that the runner has drained or found a record neither ACTIVE nor DRAINING |
| `MoveRecovers.ForeignOperationKept` | control-plane/src/services/model-lifecycle.ts:430-485 | no step of an executor, failed or not, touches an operation other than its own |
| `MoveRecovers.RefusedIsSettled` | control-plane/src/services/move-orchestration.ts:251-304 | a start that the old leader completed meanwhile counts as recovered, and after a refused ACTIVE the routing entry is refreshed; otherwise everything is left as it is |
| `MoveRecovers.ThrownIsSettled` | control-plane/src/services/move-orchestration.ts:251-304 | a last write of the recovery that throws is followed up in the same way, so that an activation of which only the reply was lost is not lost |
| `MoveRecovers.RelapseIsRolledBack` | control-plane/src/services/move-orchestration.ts:136-158 | from any store in CUTTING_OVER whose replacement failed or vanished while the source is ACTIVE, the source gets its traffic back and serves alone |
| `MoveRecovers.HopelessIsLeft` | control-plane/src/services/move-orchestration.ts:136-158 | with the replacement lost and the source no longer ACTIVE, or its endpoint unknown after the cutover, nothing is touched |
| `MoveRecovers.UnfitSourceIsLeft` | control-plane/src/services/move-orchestration.ts:161-189 | a source that neither serves at a recorded endpoint nor drains is not cut over |
| `MoveRecovers.NothingLeftToMove` | control-plane/src/services/move-orchestration.ts:123-134 | without a source, and with the replacement serving or gone too, only the operation is removed |
| `MoveRecovers.BothLostAreForgotten` | control-plane/src/services/move-orchestration.ts:123-134 | without a source and with the replacement failed, the replacement is torn down before the operation goes |
| `MoveRecovers.FailedTeardownIsRetained` | control-plane/src/services/move-orchestration.ts:359-386 | a stop that threw ends with its record kept, ERROR and published so; a failure after it turns a STOPPED record into ERROR and leaves any other |
| `MoveRecovers.ThrownStopIsRecorded` | control-plane/src/services/sleep-wake.ts:286-293 | whatever throws between the first read of a stop and its end, the record is kept, ERROR, and published so |
| `MoveRecovers.FailedPollIsRecorded` | control-plane/src/services/sleep-wake.ts:300-318 | a runner that reports ERROR while it drains has its record failed and published at once, and is asked again |
| `LeaderElection.NeverTwoLeaders` | control-plane/src/services/leader-election.ts:64-140 | with clocks skewed by at most the margin, no state of any run, with lost replies, conflicts, slow requests and restarts, has two leaders |
| `LeaderElection.StepKeepsInv` | control-plane/src/services/leader-election.ts:190-277 | every lease step keeps the invariant that ties a leader to the lease it last renewed |
| `LeaderElection.DeployedIsSafe` | control-plane/src/index.ts:143-149 | the deployed constants leave the margin for 5000 ms of skew and not for 5001 |
| `LeaderElection.TwoLeaders` | control-plane/src/services/leader-election.ts:226-277 | without the margin, and with two request timeouts in a renewal interval, there is a run with two leaders |
| `LeaderTenure.TermsBeginAndEnd` | control-plane/src/services/leader-election.ts:108-140 | with the margin, in every run a process begins to lead only by the reply that its write was applied, and stops only because its own request threw or it restarted: its renewals always find its own lease and are accepted |
| `LeaderTenure.CycleDecides` | control-plane/src/services/leader-election.ts:108-140 | an undisturbed cycle ends with leadership and a freshly stamped lease if and only if the process led, there was no lease or its clock had the lease expired, and changes nothing else |
| `LeaderElection.MutualExclusionExactly` | control-plane/src/services/leader-election.ts:64-277 | when two request timeouts fit into a renewal interval, mutual exclusion holds over all runs if and only if the constants leave the margin |
| `RoutingMap.ScriptsActOnWeights` | control-plane/src/services/routing-map.ts:144-349 | the scripts act on an entry as updates of a map from addresses to weights |
| `RoutingMap.AfterWellFormed` | control-plane/src/services/routing-map.ts:91-349 | every script keeps at most one endpoint per address |
| `RoutingMap.RunWellFormed` | control-plane/src/services/routing-map.ts:91-349 | and so does every sequence of scripts |
| `RoutingMap.CutoverSilencesAddress` | control-plane/src/services/routing-map.ts:358-406 | whatever ran before, after a successful cutover no endpoint at the address has traffic |
| `RoutingMap.RemovalForgetsEndpoints` | control-plane/src/services/routing-map.ts:129-142 | an entry that was removed comes back, after any operations, only with endpoints added since |
| `RoutingMap.UpdatesKeepTheRest` | control-plane/src/services/routing-map.ts:91-349 | a script touches one model; state, health and weight updates keep every other endpoint, the order and the other fields |
| `RoutingMap.PresentExactly` | control-plane/src/services/routing-map.ts:91-349 | after any sequence of scripts a model has an entry if and only if its last setting of a state or endpoint came after its last removal |
| `RoutingMap.StateIsLastSet` | control-plane/src/services/routing-map.ts:91-127 | and the state and protocol of that entry are those last set, or the ones an added endpoint starts with |
| `RoutingMap.RequiredProxies` | control-plane/src/services/routing-map.ts:411-429 | the loop collects exactly the proxies serving before the cutover, each once |
| `RoutingMap.AwaitProxies` | control-plane/src/services/routing-map.ts:431-460 | the wait passes if and only if nobody is required or in some poll everybody required is settled |
| `RoutingMap.BarrierSound` | control-plane/src/services/routing-map.ts:411-460 | when the wait passes, every proxy that served before the cutover has acknowledged it, or was seen with a later or unreadable connect time |
| `RoutingMap.Service.SetModelState` | control-plane/src/services/routing-map.ts:91-127 | the entry gets the state and protocol and keeps its endpoints; other models are untouched |
| `RoutingMap.Service.AddEndpoint` | control-plane/src/services/routing-map.ts:144-194 | the endpoint replaces any at its address and comes last, the state is kept |
| `RoutingMap.Service.RemoveEndpoint` | control-plane/src/services/routing-map.ts:196-237 | the entry loses exactly the endpoints at the address; an unknown model is left unknown |
| `RoutingMap.Service.UpdateEndpointHealth` | control-plane/src/services/routing-map.ts:239-286 | only the health of the first endpoint at the address changes |
| `RoutingMap.Service.UpdateEndpointWeight` | control-plane/src/services/routing-map.ts:297-349 | only its weight changes; a weight outside 0 to 100 is refused and an unknown endpoint reported, both without effect |
| `RoutingMap.Service.CutoverEndpointAndWait` | control-plane/src/services/routing-map.ts:358-460 | the weight is 0 exactly if the endpoint exists, and success means a poll in which every proxy of the scan is settled |
| `Holds.NumberInvertsDecimal` | control-plane/src/services/memory-budget.ts:600-613 | reading a device index back from a key inverts writing it |
| `Holds.KeyRoundTrip` | control-plane/src/services/memory-budget.ts:153-155 | decoding a hold key at its last colon inverts its encoding for every worker id, colons included |
| `Holds.KeyInjective` | control-plane/src/services/memory-budget.ts:153-155 | different devices have different keys |
| `Holds.PrefixMeansWorker` | control-plane/src/services/memory-budget.ts:675-684 | without colons in worker ids the prefix test selects exactly the keys of the worker |
| `MemoryBudget.ExactIsUnique` | control-plane/src/services/memory-budget.ts:686-696 | the exactness of the figures determines them |
| `MemoryBudget.HeldAfterReserve` | control-plane/src/services/memory-budget.ts:581-593 | a reservation changes the sum held on its device by exactly the new amount less the instance's old one, and no other device |
| `MemoryBudget.ReserveIsIdempotent` | control-plane/src/services/memory-budget.ts:581-593 | reserving again replaces |
| `MemoryBudget.HeldAfterRelease` | control-plane/src/services/memory-budget.ts:600-613 | a release takes the instance's amount off every device |
| `MemoryBudget.ReleaseUndoesReserve` | control-plane/src/services/memory-budget.ts:581-613 | releasing a new reservation restores every sum |
| `MemoryBudget.HeldAfterClear` | control-plane/src/services/memory-budget.ts:675-684 | a clear takes exactly the sums of the worker and of those whose ids continue its id behind a colon to zero, and no other |
| `MemoryBudget.NoColonsNoClash` | control-plane/src/services/memory-budget.ts:675-684 | with colon-free worker ids no key is swept up by another worker |
| `MemoryBudget.ClashExactly` | control-plane/src/services/memory-budget.ts:675-684 | for every pair of workers, some exact books of the one become stale by the clear of the other if and only if the other's id and a colon begin the one's |
| `MemoryBudget.Service.GetReservation` | control-plane/src/services/memory-budget.ts:157-165 | the sum of the holds on a device |
| `MemoryBudget.Service.RecomputeDeviceBudget` | control-plane/src/services/memory-budget.ts:686-696 | one device's figure is made exact, nothing else changes |
| `MemoryBudget.Service.ReserveCapacity` | control-plane/src/services/memory-budget.ts:581-593 | the hold is stored and all figures are exact again |
| `MemoryBudget.Service.ReleaseInstanceReservations` | control-plane/src/services/memory-budget.ts:600-613 | the loop removes exactly the instance's holds, drops emptied devices, and all figures are exact again |
| `MemoryBudget.Service.ClearWorkerReservations` | control-plane/src/services/memory-budget.ts:675-684 | exactly the keys with the prefix go; figures stay exact when no other worker clashes |
| `MemoryBudget.Service.ParseReport` | control-plane/src/services/memory-budget.ts:344-434 | a report is accepted if and only if every field has the right type and range, and the budget reflects it device by device |
| `MemoryBudget.Service.RefreshWorkerBudget` | control-plane/src/services/memory-budget.ts:446-463 | a missing report drops the worker and its holds, an invalid one its budget, a valid one replaces the budget with exact figures |
| `MemoryBudget.Service.DropVanished` | control-plane/src/services/memory-budget.ts:515-522 | exactly the workers not seen are dropped with their holds |
| `MemoryBudget.Service.RefreshAll` | control-plane/src/services/memory-budget.ts:474-526 | a failed read changes nothing, an empty listing drops everything; otherwise the budgets are exactly those of the reporting workers, exact, and vanished workers lose their holds |
| `Placement.Select` | control-plane/src/services/placement.ts:31-41 | the loop finds the first candidate with the most memory |
| `Placement.FilterByRunnerType` | control-plane/src/services/placement.ts:148-162 | the nested loop pairs each worker with its first capability of the runner type |
| `Placement.FilterByCapacity` | control-plane/src/services/placement.ts:179-213 | the loop keeps the matches with a fresh budget and enough eligible devices |
| `Placement.Place` | control-plane/src/services/placement.ts:46-80 | the pipeline answers null if and only if no candidate survives, else the best candidate's first devices |
| `Placement.PlacementSound` | control-plane/src/services/placement.ts:46-131 | every automatic placement is accepted unchanged as a fixed placement, on distinct devices of an eligible worker |
| `Placement.PlacementComplete` | control-plane/src/services/placement.ts:46-131 | if any fixed placement on distinct devices is acceptable, automatic placement finds one |
| `Placement.NormalAnswers` | control-plane/src/services/placement.ts:164-213 | automatic placement cannot tell an empty device type from an absent one |
| `Placement.EmptyTypeNeverFixed` | control-plane/src/services/placement.ts:106-121 | a fixed placement with an empty device type is always refused |
| `Placement.PlacementExact` | control-plane/src/services/placement.ts:46-131 | automatic placement answers null if and only if no fixed placement of the request, an empty device type dropped, would be accepted |
| `Hosting.NullExactly` | control-plane/src/services/placement.ts:46-80 | automatic placement answers null if and only if no online worker with the runner type, the hardware and a fresh budget has as many devices as shares, each with its share of the memory free |
| `Hosting.PlacedExactly` | control-plane/src/services/placement.ts:46-80 | else it names, of the workers able to host the request, the first with the most free memory on hosting devices, and its first hosting devices, as many as the shares |
| `Hosting.FixedSound` | control-plane/src/services/placement.ts:82-131 | an accepted fixed placement is on an online worker with the runner type, the hardware and a fresh budget, one listed device per share, each with its share free |
| `Hosting.FixedComplete` | control-plane/src/services/placement.ts:82-131 | and every such placement is accepted |
| `Hosting.EligibleExactly` | control-plane/src/services/placement.ts:133-146 | the eligible workers are exactly the online ones with the runner type and the hardware |
| `Hosting.TotalIsFreeMemory` | control-plane/src/services/placement.ts:179-213 | what candidates are compared by is the free memory of their hosting devices |
| `Hosting.DeploymentHoldsAll` | control-plane/src/routes/models.ts:343-373 | the holds of one deployment add up to exactly the memory the model requires |
| `Hosting.DeploymentFitted` | control-plane/src/routes/models.ts:343-373 | each device of a deployment had, before it, at least an equal share of that memory free |
| `Overbooking.ReserveDevices` | control-plane/src/routes/models.ts:365-373 | the loop reserves the share of the request on every selected device |
| `Overbooking.HeldAfterAll` | control-plane/src/routes/models.ts:365-373 | every selected device holds exactly one share more, all others what they held |
| `Overbooking.StepKeepsFit` | control-plane/src/routes/models.ts:343-373 | a deployment, release or clear never overbooks a device, and a selected device is not overbooked whatever it was before |
| `Overbooking.NeverOverbooked` | control-plane/src/routes/models.ts:343-373 | over every run between two reports, used plus held never exceeds what a device has |
| `Overbooking.RollbackRestores` | control-plane/src/routes/models.ts:640-650 | the rollback of a failed deployment restores the holds of every device |
| `Overbooking.PlaceAndReserve` | control-plane/src/routes/models.ts:343-373 | placement and reservation with nothing between them are one admitted step of such a run |
| `AmbiguousStart.StepKeepsInv` | control-plane/src/services/deploy-orchestration.ts:66-224 | every step of the deployment, the worker and the reconciliation passes keeps the accounting invariant |
| `AmbiguousStart.NoRunnerForgotten` | control-plane/src/services/reconciliation.ts:688-758 | while no request travels longer than the grace period, a runner that is or may become live keeps its record in every run, and its hold until a reply names it; a pass drops a record only when the runner is gone |
| `AmbiguousStart.GraceTooShort` | control-plane/src/services/reconciliation.ts:694-718 | a longer-travelling request can lose its record while on its way |
| `AmbiguousStart.ForgottenExactly` | control-plane/src/services/reconciliation.ts:694-758 | the accounting holds over all runs if and only if requests travel no longer than the grace period |
| `AmbiguousStart.FlaggedIsRecovered` | control-plane/src/services/reconciliation.ts:694-758 | wherever a flagged start has come to nothing, an undisturbed pass drops it and frees its hold |
| `AmbiguousStart.AddressableExactly` | control-plane/src/services/deploy-orchestration.ts:117-142 | every live runner has its hold or its recorded id in every run if and only if the endpoint write does not throw and requests do not outlive the grace period |
| `AmbiguousStart.EndpointWriteLost` | control-plane/src/services/deploy-orchestration.ts:133-142 | when it throws, a run that ends with a live runner of unrecorded id and no hold |
| `AmbiguousStart.StrandedExactly` | control-plane/src/services/reconciliation.ts:297-320 | no run strands a start if and only if a lost reply is recorded within the deploy timeout, that write does not fail and ownership is not lost |
| `AmbiguousStart.TimedOutStart` | control-plane/src/services/reconciliation.ts:297-320 | otherwise a run in which the stuck pass demotes first and the ambiguity is never recorded |
| `AmbiguousStart.DeployedStrands` | control-plane/src/index.ts:134-138 | with the deployed start timeout there is such a run |
| `AmbiguousStart.StrandedForGood` | control-plane/src/services/reconciliation.ts:694-704 | a stranded start stays so: no step of the deployment or of the three passes modelled frees the capacity |
| `DeployOutcome.DeploymentSucceeds` | control-plane/src/services/deploy-orchestration.ts:117-193 | from every stage after the reply, in every run, an undisturbed deployment ends with the record ACTIVE and identified, the hold released and the runner untouched |
| `DeployOutcome.FreshDeploymentSucceeds` | control-plane/src/services/deploy-orchestration.ts:66-193 | and so does one from the start when the worker is up |
| `DeployOutcome.FailsOnlyForCause` | control-plane/src/services/deploy-orchestration.ts:66-224 | over all runs a deployment turns to failure only because a step threw, the reply was an error, or the record was gone or refused ACTIVE; the capacity is kept exactly after a lost reply, a conflict or a server error |
| `DeployOutcome.ComesToFail` | control-plane/src/services/deploy-orchestration.ts:66-224 | and each of these causes does fail it |
| `DeployOutcome.ActivatesOnlyActive` | control-plane/src/services/deploy-orchestration.ts:160-181 | it takes itself for activated if and only if the record was STARTING or already ACTIVE, and the record is then ACTIVE |
| `DeployOutcome.FailureIsRecorded` | control-plane/src/services/deploy-orchestration.ts:194-224 | left alone it writes ERROR, flagged when the fate of the runner is in doubt, and releases the hold otherwise |
| `DeployOutcome.StampFollowsState` | control-plane/src/services/reconciliation.ts:297-320 | over all runs a record that keeps its state keeps its time stamp, so that the passes measure the age of the state |
| `DeployOutcome.FlaggedRunnerIsStopped` | control-plane/src/services/reconciliation.ts:694-758 | a flagged start whose runner is up is stopped, dropped and freed |
| `DeployOutcome.FlaggedStartIsLeft` | control-plane/src/services/reconciliation.ts:694-758 | one still booting, or unseen within the grace period, is left alone |
| `DeployOutcome.MissingRunnerIsDropped` | control-plane/src/services/reconciliation.ts:582-680 | an identified record whose runner is missing is dropped and freed |
| `DeployOutcome.PresentRunnerIsLeft` | control-plane/src/services/reconciliation.ts:582-680 | with its runner there, or STARTING within the grace period, it is left alone |
| `DeployOutcome.OverdueStartIsFailed` | control-plane/src/services/reconciliation.ts:297-320 | a start is failed by the stuck pass if and only if it is older than the deploy timeout |
| `StopTeardown.EndsUnique` | control-plane/src/services/sleep-wake.ts:356-395 | every list of poll answers has exactly one drain outcome |
| `StopTeardown.ForgettingStopped` | control-plane/src/services/sleep-wake.ts:50-64 | dropping a STOPPED record leaves the routing entry that the remaining instances call for |
| `StopTeardown.EntryUnique` | control-plane/src/services/sleep-wake.ts:50-64 | the instances determine the routing entry |
| `StopTeardown.DropIsDue` | control-plane/src/services/sleep-wake.ts:50-64 | a refresh during a stop drops the entry only when the other instances call for none |
| `StopTeardown.StopPathValid` | control-plane/src/services/sleep-wake.ts:222-294 | the path prescribed for each state is accepted and ends STOPPED |
| `StopTeardown.Plane.Transition` | control-plane/src/services/model-lifecycle.ts:252-368 | a state is written only along an accepted edge, and surely when the store answers; without an answer it may or may not have been |
| `StopTeardown.Plane.Refresh` | control-plane/src/services/sleep-wake.ts:50-64 | the published entry is the one of the instances' aggregate; on failure that or nothing has been published |
| `StopTeardown.Plane.WaitForDrain` | control-plane/src/services/sleep-wake.ts:356-395 | drained means idle before any three failures in a row, unavailable means such a streak came first, timed out means neither came |
| `StopTeardown.Plane.Settle` | control-plane/src/services/sleep-wake.ts:258-284 | the remaining edges to STOPPED from every state but ACTIVE |
| `StopTeardown.Plane.StopModel` | control-plane/src/services/sleep-wake.ts:222-294 | whatever fails: STOPPED along the prescribed path, through ERROR if and only if the runner reported it while draining, as long as no call failed, with endpoint and hold released, or ERROR unless the store does not answer the first read or the last write; only accepted edges; STOPPING from a serving state with a runner client only after an idle poll; other records untouched; settled, the endpoints are the old ones without its own, or none when the others call for no entry; while another instance starts, serves, drains or sleeps, only its own endpoint can go, whatever fails; when no call fails, it settles if and only if the instance exists and drains |
| `StopTeardown.Plane.TeardownInstance` | control-plane/src/routes/models.ts:105-213 | either the record is gone, with its runner confirmed gone, its endpoint and hold released and the routing entry right, or it is retained; success means gone, failure retained unless only the reply to the removal was lost; a retained record is not STOPPED unless the store did not answer at the end; endpoints as for the stop; no runner but its own is told to stop; when no call to the stores fails, it succeeds if and only if the instance exists, drains, and its worker is known and confirms |
| `Eviction.SortCorrect` | control-plane/src/services/eviction.ts:21-27 | the order is sorted by last use with never-used first, a permutation, and stable |
| `Eviction.SortedUnique` | control-plane/src/services/eviction.ts:21-27 | being sorted and stable determines the order |
| `Eviction.SelectLeastRecent` | control-plane/src/services/eviction.ts:29-39 | the loop takes the shortest prefix that frees enough, or everybody |
| `Eviction.CappedIsFair` | control-plane/src/services/eviction.ts:20-40 | cut at the cap it spares nobody used less recently than a victim, takes nobody needlessly, and frees too little only at the cap or with nobody left |
| `Eviction.CandidateMembers` | control-plane/src/services/eviction.ts:76-112 | the candidates are exactly the eligible instances of positive size |
| `Eviction.CandidatesInOrder` | control-plane/src/services/eviction.ts:76-112 | each of them once, in listing order |
| `Eviction.PruningAgrees` | control-plane/src/services/eviction.ts:128-133 | pruning loses nothing for a later cutoff if and only if no timestamp lies between the two |
| `Eviction.Engine.IsCircuitBreakerOpen` | control-plane/src/services/eviction.ts:128-133 | the pruned list decides as the whole history would; after a step back of the clock it is open only if the history says so |
| `Eviction.Engine.RecordEviction` | control-plane/src/services/eviction.ts:119-122 | the eviction is added and the list stays as good as the history |
| `Eviction.Engine.SelectVictims` | control-plane/src/services/eviction.ts:62-117 | nobody with the breaker open, unless the clock has stepped back; any victims are the first of the sorted candidates, fair, eligible and at most the cap |
| `Eviction.RateBound` | control-plane/src/services/eviction.ts:62-133 | over all runs with at most n overlapping cycles, every window holds at most threshold - 1 + n * maxPerCycle evictions |
| `Eviction.BoundAttained` | control-plane/src/services/eviction.ts:62-133 | some run fills a window exactly to that bound |
| `StartupLog.FirstBlankStable` | control-plane/src/services/startup-log-capture.ts:92-93 | more text neither moves nor lengthens the first frame separator |
| `StartupLog.SplitAppend` | control-plane/src/services/startup-log-capture.ts:87-93 | splitting a longer text is splitting the shorter one and then its rest with what came after |
| `StartupLog.LinesLaid` | control-plane/src/services/startup-log-capture.ts:96-107 | cutting a frame into lines undoes laying them out, for every mixture of line breaks |
| `StartupLog.JoinLines` | control-plane/src/services/startup-log-capture.ts:101-107 | a text sent as one data field per line is put together again |
| `StartupLog.FrameRead` | control-plane/src/services/startup-log-capture.ts:95-117 | each written frame is read back as its line, and comments and end events as nothing, for every mixture of line breaks, any white space about the values and data over several lines |
| `StartupLog.RoundTrip` | runners/dev-worker/src/routes/logs.ts:34-81 | reading a stream as the worker writes it, or in any other allowed layout, gives exactly the lines written, whatever pings and end events lie between, and leaves nothing over |
| `StartupLog.Repository.Consume` | control-plane/src/services/startup-log-capture.ts:83-122 | for every chunking the stored lines are those of the whole text |
| `StartupLog.Repository.Capture` | control-plane/src/services/startup-log-capture.ts:41-81 | a completed capture holds exactly the lines of one stream, whatever earlier attempts left; whenever the log is marked complete its lines are those of one stream, and stay so unless that mark failed after taking effect; when no call fails, it completes with the first stream it gets |
| `Reaping.LiveIsNeverReaped` | control-plane/src/services/reconciliation.ts:453-473 | in every interleaving with any number of deployments the pass drops only instances whose model row was deleted after their deployment found it |
| `Reaping.GoesOnlyForCause` | control-plane/src/services/reconciliation.ts:453-520 | whatever the step, an instance disappears only by its own removal or because the pass drops it after its row was deleted |
| `Reaping.LiveIsNeverJudged` | control-plane/src/services/reconciliation.ts:453-460 | reading instances before models, it does not even judge any other an orphan |
| `Reaping.FalseOrphan` | control-plane/src/services/reconciliation.ts:425-437 | reading in the other order misjudges a live deployment |
| `Reaping.OrderMatters` | control-plane/src/services/reconciliation.ts:456-460 | the reads alone suffice if and only if the instances are read first |
| `Reaping.OrphanIsReaped` | control-plane/src/services/reconciliation.ts:462-520 | an undisturbed pass does drop an instance without a row |

## Left out

- The proxy, the runners and the workers themselves: only their replies appear.
- LeaderElection.MutualExclusionExactly: renewal intervals shorter than two request timeouts, in which renewals of one process overlap, are not modelled.
- sleepModel and wakeModel: they use the drain and transition steps of stopModel and would add easy members.
- Dead-worker handling, the instance-table repair and the legacy-key pruning of the reconciliation loop: straight-line clean-up.
- The route handlers around these services (validation, authorisation, in-flight claims) beyond the steps cited above.
- Fairness: the results about undisturbed actors say what they come to, not that they are ever left undisturbed.
- Floating-point rounding of memory shares and locale-dependent string comparison.
- The number of database rows behind the startup log: one instance's log is modelled, and its guard against two captures at a time is not.
- MemoryBudget.Service.RefreshAll: the order in which reports arrive is not modelled, since they are read in one pipeline.
- RoutingMap.Service.SetModelState: metrics and the publication of changes to the proxies are not modelled.
- StopTeardown.Plane.TeardownInstance: a failure does not promise to keep the record, because the source reports failure when only the reply to its removal is lost.
- StopTeardown.Plane.StopModel: operations that overlap on the same instance are modelled only in the move protocol.
- StartupLog.Repository.Capture: a mark of completion that fails after taking effect leaves the completion flag set while the next attempt runs; the contract says so and promises nothing about the lines until that attempt completes.
- AmbiguousStart.NoRunnerForgotten: the hold of a runner that a reply has named is not promised, because the source releases it.
- Overbooking.NeverOverbooked: a report may itself show a device overbooked; the run starts at the report.
