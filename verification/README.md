# Verified model of the project supervisor's persisted state machines

This project models four connected parts of the supervisor and proves what they keep over whole runs.

1. **Bootstrap lifecycle** (`bootstrap/lifecycle.py`). Plans of dependent steps, the reconciliation loop
   that promotes steps, results recorded under idempotency keys, and the hash-chained audit log.
   `BootstrapPlan` holds plans and promotion, `AuditChain` the chain, `BootstrapStore` the store as
   functions and as a class updated in place, `BootstrapRuns` the invariant of every sequence of
   operations, `BootstrapTheorems`, `BootstrapProgress` and `BootstrapEvidence` the results.
2. **Leases and bounded recovery** (`autonomous_host.py`, `node_recovery.py`). `Leases` has both lease
   tables, `RecoveryProcess` the control flow of one recovery as a small-step machine, `RecoveryLoop` the
   same as the loop it is written as, `RecoveryProtocol` any number of recoveries interleaved with a
   clock, crashes and takeovers, `RecoveryStore` the transactions in place.
3. **Autonomous goal engine** (`autonomy.py`). `GoalRows` has the rows and transactions, `GoalStore` the
   same in place, `GoalJournal` the rule that every journal event obeys, `GoalHistory` what that rule means
   for whole journals, `GoalInvariant` and `GoalSteps` what controls and engine transactions keep,
   `GoalEngine` the engine itself, `GoalRuns` a goal from its creation on, `GoalTheorems` and
   `GoalFailures` the results, and `GoalFences` what holds when several engines work on one goal at once.
4. **Routing** (`scheduler.py`, `resource_usage.py`, `runtime.py`). `Ordering` has stable sorting,
   `Scheduler` and `QuotaGuard` the two deciders, `Routing` their composition, `Capacity` the capacity
   probe; `SchedulerTheorems`, `Preferences`, `QuotaGuardTheorems` and `RoutingTheorems` the results, and
   `Deferral` what the probe foretells of the next decision, with `DeferralExamples` under the default
   weights of `DefaultScores`.

How the surroundings are represented:

- A store transaction is one atomic step. Hashes and digests are arbitrary functions; injectivity is
  assumed only where a statement names it. Times are integer microseconds. Scores are reals, and their
  rounding is an arbitrary function.
- In the bootstrap model a run is any finite sequence of operations on any number of runs. In the lease
  model any number of owners act in any order with clock values of their own. In the recovery model a
  clock value may have been read before the transaction that uses it.
- In the goal model one engine works at a time, `GoalFences` apart. Before each of its store accesses any list of human
  controls may reach the store, and the process may die at any access, which also covers every exception
  and the loss of ownership; `Serve` then continues with the next process. Evaluator, planner, verifier,
  dispatcher, clock and budget meter answer arbitrarily. Every statement about the state after `Serve`
  therefore holds at every moment of every interleaving. The statements about termination assume that
  nobody interferes, that answers are well formed, and that from some moment on actions have finished and
  the goal's own tasks are idle (`Quiet`).
- In `GoalFences` any number of engines commit their transactions in any order, each with whatever it read
  at any time before; nothing but the tests inside the transactions restrains them.
- The goal journal carries `basis`, the steer version of the context that a decision was computed from.
  The stored `steerVersion` is a separate field, and rows of an older build may lack it.

Where the code does something other than its texts or its names suggest, the model follows the code:

- A bootstrap step may depend on itself although the refusal speaks of earlier steps
  (`SelfDependencyIsAdmitted`); such a run never completes (`NeverCompletes`), and `CompletableExactly`
  gives the exact condition under which a run can complete.
- A goal lease that has lapsed can be renewed, and so can a recovery lease whose owner read the clock
  before the lapse; `RevivalExactly` gives the exact condition.
- A recovery request created later than the margin left by the adapter bound can be overtaken before its
  deadline (`LateRequestsCanBeOvertaken`); within ten seconds it cannot.
- The failures of one iteration can be added to the goal's failure counter again after each restart in a
  certain window (`RestartedReplan`, `FailuresCanCountTwice`); the counter counts each of them once exactly
  if no iteration with failures was replanned twice (`FailuresAreCountedOnceExactly`).
- The capacity probe takes the pool of a busy worker for unknown. A task for a primary and a reviewer can
  therefore be blocked although it becomes dispatchable, and a task can be deferred in vain;
  `BlockedReviewExactly` and `WaitingPaysOffExactly` give the exact conditions, `DeferralExamples` the
  workers. For the other topologies blocking is sound (`BlockingIsSound`).
- The goal lease is asserted outside the engine's transactions, so a process may go on beside its successor.
  What SUCCESS rests on survives that (`OverlappingSuccessWasVerified`); the iteration budget can be overrun by
  one iteration for each further engine (`OverrunIsBounded`, `OverrunIsReached`).
- A stalled goal left by a build that stored no versions beside its checkpoints is evaluated once more if
  anybody ever steered it (`StalledOlderStoresAreEvaluatedAgain`); `OlderStoresFit` gives the exact condition.
- A plan is always computed from current guidance, but the evaluation that it answers may be older, exactly
  if somebody steered between the two commits (`PlanMatchesItsEvaluation`, `PlansCanOutrunEvaluations`).
- A list of preferred workers that repeats an entry can lose an eligible listed worker to one that nobody
  listed (`PreferencesDecideExactly`, an if-and-only-if).
- A panel size of zero never selects anybody, and a negative one drops workers from the end of the ranking
  (`PanelIsFilled`).

## Model

| member | source | states |
|---|---|---|
| `BootstrapPlan.ValidatePlan` | bootstrap/lifecycle.py:627-665 | the one-pass check accepts exactly the admissible plans: schema 2, dry run, fail-closed, no automatic actions, well-formed distinct ids, dependencies that name the step itself or an earlier one, a capability exactly for mutating steps |
| `BootstrapPlan.SelfDependencyIsAdmitted` | bootstrap/lifecycle.py:654-659 | a plan whose step depends on itself is admitted |
| `BootstrapPlan.PromoteStaysBelow` | bootstrap/lifecycle.py:694-733 | a promotion never overshoots a settled state above the start |
| `BootstrapPlan.LeastSettledIsUnique` | bootstrap/lifecycle.py:686-734 | there is at most one least settled state |
| `BootstrapPlan.AnySettlingOrderIsLeast` | bootstrap/lifecycle.py:686-734 | any visiting order that ends settled has reached the least settled state above the start |
| `BootstrapPlan.VisitingOrderIsIrrelevant` | bootstrap/lifecycle.py:686-734 | two visiting orders that end settled agree on every step |
| `BootstrapPlan.EnabledLooksBack` | bootstrap/lifecycle.py:655-684 | whether a step can be promoted depends only on steps at or before it |
| `BootstrapPlan.SweepSettles` | bootstrap/lifecycle.py:655-734 | one left-to-right sweep leaves nothing to promote |
| `BootstrapPlan.SweepIsLeast` | bootstrap/lifecycle.py:655-734 | one sweep in ordinal order computes the least settled state |
| `BootstrapPlan.SweepDrainsPending` | bootstrap/lifecycle.py:692-734 | a pass that changes anything lowers the number of pending steps |
| `BootstrapStore.PromotedStates` | bootstrap/lifecycle.py:694-733 | promoting with audit entries changes the step states exactly as the sweep does, and only in its own run |
| `BootstrapStore.PromotedTwice` | bootstrap/lifecycle.py:692-734 | a second pass changes nothing |
| `BootstrapStore.LifecycleStore.AppendAudit` | bootstrap/lifecycle.py:781-829 | one event is added, chained to the last event of its own run |
| `BootstrapStore.LifecycleStore.ReconcilePass` | bootstrap/lifecycle.py:694-733 | one pass is one sweep, and it reports a change exactly if there was one |
| `BootstrapStore.LifecycleStore.Reconcile` | bootstrap/lifecycle.py:686-765 | the loop terminates and leaves the store in the swept, concluded state |
| `BootstrapStore.LifecycleStore.InitializeRun` | bootstrap/lifecycle.py:360-439 | creates a run, recognises an existing one, or refuses; the store is that of the specification in all three cases |
| `BootstrapStore.LifecycleStore.RecordResult` | bootstrap/lifecycle.py:441-535 | records, replays or refuses a result; the store is that of the specification in every case, unchanged unless recorded |
| `BootstrapRuns.InvAlways` | bootstrap/lifecycle.py:360-535 | the store invariant holds after any sequence of operations from the empty store |
| `BootstrapRuns.InitializeKeepsInv` | bootstrap/lifecycle.py:360-439 | opening a run keeps the store invariant |
| `BootstrapRuns.RecordKeepsInv` | bootstrap/lifecycle.py:441-535 | recording a result keeps the store invariant |
| `BootstrapTheorems.HistoryOnlyGrows` | bootstrap/lifecycle.py:441-535 | over any operations satisfied, failed and blocked steps never change, failed and complete runs stay so, accepted results and receipts are never rewritten, and the log only grows |
| `BootstrapTheorems.RunInvariant` | bootstrap/lifecycle.py:686-765 | after any operations every step that is neither pending nor blocked has its dependencies satisfied; COMPLETE means every step is satisfied, FAILED that some step failed |
| `BootstrapTheorems.SatisfiedMutationsWereAuthorised` | bootstrap/lifecycle.py:767-779 | a satisfied mutating step was planned as not needed or carries a successful, externally executed result with the planned capability |
| `BootstrapTheorems.OneResultPerStep` | bootstrap/lifecycle.py:441-535 | a step has at most one receipt over any run, whose digest is that of the result stored with the step |
| `BootstrapTheorems.ReplayIsIdempotent` | bootstrap/lifecycle.py:445-459 | submitting a recorded result again after any other operations changes nothing |
| `BootstrapTheorems.KeysAnswerForOneResult` | bootstrap/lifecycle.py:445-459 | with collision-free digests a key is replayed only for the very result it was used for |
| `BootstrapTheorems.AuditTellsTheStates` | bootstrap/lifecycle.py:601-624 | after any interleaving every run's chain verifies, and replaying the chain gives the state of every step |
| `BootstrapEvidence.RunsAttestTheirPlans` | bootstrap/lifecycle.py:400-439 | after any operations the first event of every run carries the digest of the plan that its steps come from |
| `BootstrapEvidence.LastHashPinsTheRun` | bootstrap/lifecycle.py:781-829 | with collision-free hashes, two stores in which a run has the same last hash agree on its history, its plan and the state of every step |
| `BootstrapProgress.FirstUnsatisfiedIsActionable` | bootstrap/lifecycle.py:736-765 | in a completable run that is not complete the first unsatisfied step can take a result |
| `BootstrapProgress.SuccessAdvances` | bootstrap/lifecycle.py:441-535 | a successful result for an actionable step is accepted, leaves fewer unsatisfied steps and keeps the run completable |
| `BootstrapProgress.Drive` | bootstrap/lifecycle.py:441-535 | at most one successful result for each unsatisfied step completes a completable run |
| `BootstrapProgress.NeverCompletes` | bootstrap/lifecycle.py:668-734 | a run with a failed step, a blocked first step or a self-dependency never completes |
| `BootstrapProgress.CompletableExactly` | bootstrap/lifecycle.py:668-765 | some operations complete a run if and only if it is completable |
| `AuditChain.VerifyProjection` | bootstrap/lifecycle.py:604-624 | the verifier accepts exactly the chains in which every event points at its predecessor and carries its own hash |
| `AuditChain.AppendVerifies` | bootstrap/lifecycle.py:781-829 | an append for any run keeps the chain of every run verifying |
| `AuditChain.ChainsAgree` | bootstrap/lifecycle.py:604-624 | with an injective hash, two verifying chains of one run with equal length and equal last hash are identical |
| `AuditChain.LastHashFixesHistory` | bootstrap/lifecycle.py:604-624 | if moreover nothing hashes to the genesis value, the last hash fixes the chain and its length |
| `AuditChain.HashesAreDistinct` | bootstrap/lifecycle.py:781-829 | no two events of a verifying chain share a hash |
| `AuditChain.RunsNeverShareHashes` | bootstrap/lifecycle.py:781-829 | nor do events of two runs |
| `Leases.GenerationCountsAcquires` | src/project_supervisor/autonomous_host.py:254-357 | over any run each successful acquire raises the generation by one and nothing else changes it |
| `Leases.SuccessorFences` | src/project_supervisor/autonomous_host.py:254-450 | once a successor is issued, no heartbeat, assert or release of an older claim ever succeeds |
| `Leases.OnlyTheLastClaimIsHonoured` | src/project_supervisor/node_recovery.py:413-582 | of all claims issued for a resource at most the last is honoured, at any instant |
| `Leases.LapsedStaysLapsed` | src/project_supervisor/node_recovery.py:548-582 | with the clock read at each step, a lapsed recovery claim is never honoured again |
| `Leases.RevivalExactly` | src/project_supervisor/autonomous_host.py:359-383 | a heartbeat revives a lapsed claim if and only if the row still names it and, for recovery leases, the clock was read before the lapse |
| `Leases.LapsedClaimsCanRevive` | src/project_supervisor/autonomous_host.py:359-383 | concrete revivals of both kinds |
| `Leases.GoalLeaseRepository.TryAcquireGoal` | src/project_supervisor/autonomous_host.py:254-357 | grants the next generation exactly if goal, host and an unheld or lapsed lease are there, tells a stale takeover, and changes nothing otherwise |
| `Leases.GoalLeaseRepository.HeartbeatGoal` | src/project_supervisor/autonomous_host.py:359-383 | renews the row exactly if it still names the claim, lapsed or not |
| `Leases.GoalLeaseRepository.AssertGoalLease` | src/project_supervisor/autonomous_host.py:385-398 | succeeds exactly if the row names the claim and has not lapsed |
| `Leases.GoalLeaseRepository.ReleaseGoal` | src/project_supervisor/autonomous_host.py:400-450 | ends the lease exactly if the row names the claim |
| `RecoveryProcess.TraceInvAlways` | src/project_supervisor/node_recovery.py:885-1141 | at every point of a recovery the attempt number, the calls made, the clearance obtained and the last observation agree with the trace |
| `RecoveryProcess.ReturnedOutcomes` | src/project_supervisor/node_recovery.py:885-1277 | a returned outcome counts the adapter calls exactly and within max_attempts; READY means the current generation was acknowledged and the last observation meets the policy |
| `RecoveryProcess.CallsAreCleared` | src/project_supervisor/node_recovery.py:958-1032 | each adapter call follows an authorization and then a successful heartbeat made since the previous call |
| `RecoveryLoop.Recovery.Open` | src/project_supervisor/node_recovery.py:885-957 | from the first observation to the degraded attempt row, or the end of the recovery |
| `RecoveryLoop.Recovery.Clear` | src/project_supervisor/node_recovery.py:958-1012 | reaches the adapter only with a grant and a renewed lease |
| `RecoveryLoop.Recovery.Settle` | src/project_supervisor/node_recovery.py:1033-1110 | what follows an adapter call: fencing check, verification, retry below the bound, or the end |
| `RecoveryLoop.Recovery.RecoverClaimed` | src/project_supervisor/node_recovery.py:885-1141 | the retry loop is a run of the small-step process and reports the outcome at which that process ends |
| `RecoveryLoop.Recovery.Recover` | src/project_supervisor/node_recovery.py:885-1141 | the loop makes at most max_attempts adapter calls, its outcome counts them exactly, and READY is backed by the last answer and the last observation |
| `RecoveryProtocol.InvAlways` | src/project_supervisor/node_recovery.py:413-631 | the system invariant holds in every reachable state of any number of owners |
| `RecoveryProtocol.OneOpenAttempt` | src/project_supervisor/node_recovery.py:429-507 | in every reachable state a policy has at most one unfinished attempt, and it bears the lease's current generation |
| `RecoveryProtocol.FinishedRowsAreFinal` | src/project_supervisor/node_recovery.py:1159-1228 | a finished attempt row never changes again, even if its lapsed owner goes on running |
| `RecoveryProtocol.CallsAreBoundedAndCounted` | src/project_supervisor/node_recovery.py:1197-1228 | returned, overtaken or crashed, in the middle of a call or not, a recovery never starts more than max_attempts calls, and the stored attempt_count is never behind the calls started and at most one ahead of those answered |
| `RecoveryProtocol.RenewalDispatches` | src/project_supervisor/node_recovery.py:1013-1032 | the adapter is only reached by a heartbeat that has just set the expiry |
| `RecoveryProtocol.NoTakeoverBeforeDeadline` | src/project_supervisor/node_recovery.py:845-848 | a request created within the margin keeps its lease until its deadline, whatever the others do |
| `RecoveryProtocol.LateRequestsCanBeOvertaken` | src/project_supervisor/node_recovery.py:436-443 | any request created later can be overtaken before its deadline |
| `RecoveryProtocol.TenSecondsAreSafe` | src/project_supervisor/node_recovery.py:55-75 | for an admitted policy ten seconds are within the margin |
| `RecoveryStore.Tables.TryAcquire` | src/project_supervisor/node_recovery.py:413-546 | refuses a bad TTL, an unknown policy or a live lease; otherwise takes the next generation and closes whatever attempt was open, so that none is |
| `RecoveryStore.Tables.Heartbeat` | src/project_supervisor/node_recovery.py:548-565 | renews exactly a lease that is held and has not lapsed |
| `RecoveryStore.Tables.AssertOwned` | src/project_supervisor/node_recovery.py:571-582 | holds exactly for the honoured claim |
| `RecoveryStore.Tables.Release` | src/project_supervisor/node_recovery.py:584-631 | ends the lease exactly if the row names the claim |
| `RecoveryStore.Tables.CreateAttempt` | src/project_supervisor/node_recovery.py:1159-1195 | writes the attempt row, if the lease is held in the same transaction |
| `RecoveryStore.Tables.UpdateAttempt` | src/project_supervisor/node_recovery.py:1197-1228 | updates the row by id, keeping what is not given, if the lease is held in the same transaction |
| `RecoveryStore.Tables.Transact` | src/project_supervisor/node_recovery.py:885-1141 | at each fenced point the tables become those of the protocol's step |
| `GoalStore.Store.constructor` | src/project_supervisor/autonomy.py:279-322 | a goal is created with no iterations, no steers and one event |
| `GoalStore.Store.PauseGoal` | src/project_supervisor/autonomy.py:345-378 | pauses, leaves a goal already paused in that mode alone, or refuses an ended goal |
| `GoalStore.Store.ResumeGoal` | src/project_supervisor/autonomy.py:380-406 | resumes exactly a paused goal and keeps its first start time |
| `GoalStore.Store.SteerGoal` | src/project_supervisor/autonomy.py:408-465 | adds the next steer and raises the version, or refuses a blank instruction, a bad priority or an ended goal |
| `GoalStore.Store.StopGoal` | src/project_supervisor/autonomy.py:467-497 | stops a goal that has not ended, with reason and finish time |
| `GoalStore.Store.RecordEvaluation` | src/project_supervisor/autonomy.py:1261-1299 | commits the evaluation and counts no progress, or interrupts the iteration if guidance is newer |
| `GoalStore.Store.RecordPlan` | src/project_supervisor/autonomy.py:1301-1362 | commits the plan with one action row for each key, or interrupts the iteration if guidance is newer |
| `GoalStore.Store.RecordVerification` | src/project_supervisor/autonomy.py:1364-1395 | commits the verification, or interrupts the iteration if guidance is newer |
| `GoalStore.Store.InterruptStalePhase` | src/project_supervisor/autonomy.py:1397-1430 | interrupts the iteration exactly if the steer version is another |
| `GoalStore.Store.CompleteReplan` | src/project_supervisor/autonomy.py:1432-1468 | moves the fingerprint, adds the failures and marks the iteration |
| `GoalStore.Store.TerminateGoal` | src/project_supervisor/autonomy.py:1470-1504 | terminates a goal that has not ended |
| `GoalStore.Store.TerminatePhaseIfCurrent` | src/project_supervisor/autonomy.py:1506-1557 | terminates the goal and completes the iteration only under the expected steer version |
| `GoalJournal.SummariesAreSound` | src/project_supervisor/autonomy.py:921-928 | whatever a journal sums up to respects the budgets, and a stalled goal can only have been terminated as NO_PROGRESS |
| `GoalHistory.DecisionsAreCurrent` | src/project_supervisor/autonomy.py:1261-1430 | every evaluation, plan and verification is committed under the steer version of its own context, steers are numbered in order, and an interruption means that guidance is really newer |
| `GoalHistory.PlanMatchesItsEvaluation` | src/project_supervisor/autonomy.py:668-747 | a plan rests on an evaluation of the same steer version if and only if nobody steered between the two commits |
| `GoalHistory.DecisionsAreMadeOnce` | src/project_supervisor/autonomy.py:642-776 | across any restarts an iteration is evaluated, planned and verified at most once, in the order of iterations |
| `GoalHistory.EndsAreFinal` | src/project_supervisor/autonomy.py:513-517 | no start, pause, resume, steer, stop or termination follows a stop or a termination |
| `GoalHistory.SuccessIsCurrent` | src/project_supervisor/autonomy.py:1037-1076 | a SUCCESS event follows a satisfied verification computed from a context with the final steer version, and nobody steered after it |
| `GoalHistory.StreakCountsTheSuffix` | src/project_supervisor/autonomy.py:1261-1299 | the count kept is the number of evaluations, the first entry apart, in the longest suffix with a constant fingerprint |
| `GoalHistory.PlansAreBelowTheLimit` | src/project_supervisor/autonomy.py:698-708 | no plan is ever committed at or above the no-progress limit |
| `GoalHistory.TheLimitEndsTheGoal` | src/project_supervisor/autonomy.py:698-708 | unless somebody steers, nothing is evaluated, planned or replanned after an incomplete evaluation at the limit, and only NO_PROGRESS can terminate the goal |
| `GoalHistory.EvaluationsWithoutProgressAreBounded` | src/project_supervisor/autonomy.py:698-708 | while the fingerprint stays the same, the goal stays incomplete and nobody steers, there are at most no_progress_limit + 1 evaluations |
| `GoalHistory.BudgetsHold` | src/project_supervisor/autonomy.py:730-747 | at any moment at most max_tasks actions were planned in at most max_iterations iterations, numbered without a gap |
| `GoalInvariant.FreshGoalFits` | src/project_supervisor/autonomy.py:279-322 | a new goal satisfies the invariant of rows and journal |
| `GoalInvariant.ControlKeepsInv` | src/project_supervisor/autonomy.py:345-497 | every control at any moment keeps the invariant, the engine's rows and counters, and ended goals |
| `GoalSteps.BeginKeepsInv` | src/project_supervisor/autonomy.py:1232-1259 | beginning an iteration keeps the invariant when none is active and the iteration and failure budgets are not used up |
| `GoalSteps.EvaluationKeepsInv` | src/project_supervisor/autonomy.py:1261-1299 | committing an evaluation keeps the invariant |
| `GoalSteps.PlanKeepsInv` | src/project_supervisor/autonomy.py:1301-1362 | committing a plan keeps the invariant, within the task budget and below the no-progress limit |
| `GoalSteps.VerificationKeepsInv` | src/project_supervisor/autonomy.py:1364-1395 | committing a verification keeps the invariant, after every action has settled |
| `GoalSteps.ReplanKeepsInv` | src/project_supervisor/autonomy.py:1432-1468 | replanning after an unmet verification keeps the invariant |
| `GoalSteps.PhaseEndKeepsInv` | src/project_supervisor/autonomy.py:1506-1557 | ending the goal from a phase keeps the invariant; SUCCESS needs the phase's own satisfied verification of the expected version |
| `GoalSteps.RestoredVersionFences` | src/project_supervisor/autonomy.py:658-665 | a reloaded checkpoint is fenced with the version of its own context, or with one that no fence lets through |
| `GoalSteps.OlderStoresFit` | src/project_supervisor/autonomy.py:1012-1022 | a store whose checkpoints lack versions satisfies the invariant if and only if it was not left with a stalled evaluation waiting in a goal that has not ended |
| `GoalEngine.BudgetGuard` | src/project_supervisor/autonomy.py:921-945 | an iteration begins only below the iteration, task and failure budgets and with nothing overspent, and no guard reports SUCCESS |
| `GoalEngine.Engine.Reach` | src/project_supervisor/autonomy.py:345-497 | any controls before a store access leave the engine's rows, its counters and the invariant as they were |
| `GoalEngine.Engine.PhaseIsCurrent` | src/project_supervisor/autonomy.py:977-992 | a phase goes on only under the expected version; giving it up never hides a stalled goal |
| `GoalEngine.Engine.Evaluate` | src/project_supervisor/autonomy.py:642-666 | asks for or reloads the evaluation together with the version that fences it |
| `GoalEngine.Engine.ActOnPlan` | src/project_supervisor/autonomy.py:715-747 | just this plan is committed, not empty and under the version of its context, or the goal has ended or the iteration has finished |
| `GoalEngine.Engine.VerificationCheckpoint` | src/project_supervisor/autonomy.py:994-1035 | asks for or reloads the verification together with the version of the context that it was computed from |
| `GoalEngine.Engine.ApplyVerificationOutcome` | src/project_supervisor/autonomy.py:1037-1092 | the outcome of a stored verification ends the goal or finishes the iteration, unless the last store access found tasks of the goal alive; a SUCCESS follows an idle look of this run with nothing but controls journalled in between |
| `GoalEngine.Engine.DispatchAndCollect` | src/project_supervisor/autonomy.py:787-919 | none of the actions is left in flight, settled ones, plan and evaluation are as they were, and if nobody interferes all are settled; the goal ends if a budget runs out meanwhile |
| `GoalEngine.Engine.Poll` | src/project_supervisor/autonomy.py:842-913 | one poll of the collection loop goes on waiting for exactly the actions still in flight, and for none once they have finished |
| `GoalEngine.Engine.AdvanceIteration` | src/project_supervisor/autonomy.py:642-785 | keeps the invariant at every store access and never returns with the goal stalled and not ended; if nobody interferes it finishes the iteration, ends the goal or has just found its tasks alive |
| `GoalEngine.Engine.RunOnce` | src/project_supervisor/autonomy.py:624-640 | one round keeps the invariant and extends history; if nobody interferes it ends the goal, finishes one more iteration or has just found its tasks alive |
| `GoalEngine.Engine.RunGoal` | src/project_supervisor/autonomy.py:612-622 | rounds until the goal is paused or over keep the invariant; if nobody interferes and from some moment on actions finish and tasks are idle, the goal terminates within that moment plus (38 + 7 max_tasks)(max_iterations + 2) store accesses of one process |
| `GoalEngine.Engine.Serve` | src/project_supervisor/autonomy.py:612-785 | any number of engine processes, each dying at any store access, keep the invariant and extend every earlier moment; a new SUCCESS follows a look of these runs that found the tasks idle, with nothing but controls journalled in between |
| `GoalRuns.ServeNewGoal` | src/project_supervisor/autonomy.py:279-785 | a goal created and served by any number of dying processes satisfies the invariant and extends its creation; SUCCESS is vouched for by a satisfied verification of the final guidance, then an idle look, then nothing but controls; in quiet surroundings the goal terminates |
| `GoalRuns.LookFollowsVerification` | src/project_supervisor/autonomy.py:1050-1076 | the verification behind a SUCCESS was recorded before the idle look that precedes it |
| `GoalTheorems.SuccessWasVerified` | src/project_supervisor/autonomy.py:994-1076 | a goal with reason SUCCESS has a satisfied verification on record whose context carried the goal's final steer version |
| `GoalTheorems.CountersAreBounded` | src/project_supervisor/autonomy.py:624-640 | iteration_count and task_count are the rows there are and within budget, sequences are 1..iteration_count, and at most one iteration is active |
| `GoalTheorems.NoProgressCountsTheSuffix` | src/project_supervisor/autonomy.py:1261-1299 | no_progress_count is the number of evaluations, the first entry apart, in the longest constant-fingerprint suffix on record |
| `GoalTheorems.StalledGoalsEndInNoProgress` | src/project_supervisor/autonomy.py:698-708 | a stalled goal ends as NO_PROGRESS or by its user, and until then no other iteration can begin |
| `GoalTheorems.StalledOlderStoresAreEvaluatedAgain` | src/project_supervisor/autonomy.py:658-668 | a stalled goal of an older build that was ever steered is interrupted and evaluated once more although nobody steers |
| `GoalTheorems.StalledStoresExist` | src/project_supervisor/autonomy.py:1012-1022 | such a stalled goal can be reached |
| `GoalTheorems.LifecycleIsExact` | src/project_supervisor/autonomy.py:345-517 | reason and finish time are set exactly in the ended states, the pause mode exactly in the matching paused state, and steer_version is the number of steers, numbered 1..n |
| `GoalFailures.FailuresAreThoseReported` | src/project_supervisor/autonomy.py:1432-1468 | failure_count is the sum of the failures in the replan events |
| `GoalFailures.IterationsBeginBelowTheLimit` | src/project_supervisor/autonomy.py:927-928 | no iteration ever begins once the failures reported have reached max_failures |
| `GoalFailures.ReplanReportsTheFailures` | src/project_supervisor/autonomy.py:765-783 | every replan on record belongs to a verified iteration and reports exactly its actions without a successful result |
| `GoalFailures.FailuresAreCountedPerReplan` | src/project_supervisor/autonomy.py:1432-1468 | at every moment of every run failure_count is the sum over the iterations of replans times unsuccessful actions |
| `GoalFailures.FailuresAreCountedOnceExactly` | src/project_supervisor/autonomy.py:1086-1092 | failure_count counts each unsuccessful action of the replanned iterations once if and only if no iteration with such actions was replanned twice, and is never less |
| `GoalFailures.RestartedReplan` | src/project_supervisor/autonomy.py:787-788 | any number of restarts between the replan and the end of an iteration keeps the invariant, and each repeats the addition to failure_count and nothing else in the goal row |
| `GoalFailures.FailuresCanCountTwice` | src/project_supervisor/autonomy.py:787-788 | a goal with one failed action whose failure_count is any number of at least two |
| `GoalTheorems.PlansCanOutrunEvaluations` | src/project_supervisor/autonomy.py:709-747 | a concrete goal whose committed plan answers an evaluation of older guidance |
| `GoalTheorems.EndedGoalsStayEnded` | src/project_supervisor/autonomy.py:1470-1557 | a stopped or terminated goal keeps state, reason, finish time and steers, and finished iterations keep every column |
| `GoalFences.OverlappingDecisionsAreCurrent` | src/project_supervisor/autonomy.py:1261-1430 | with any number of engines at once every evaluation, plan and verification is committed under the steer version of its own context, and steers are numbered in order |
| `GoalFences.OverlappingSuccessWasVerified` | src/project_supervisor/autonomy.py:1397-1557 | with any number of engines at once a goal in SUCCESS carries a satisfied verification whose context had the final steer version |
| `GoalFences.OverlappingEndsAreFinal` | src/project_supervisor/autonomy.py:1470-1557 | with any number of engines at once no start, control or termination follows a stop or a termination |
| `GoalFences.OverrunIsBounded` | src/project_supervisor/autonomy.py:921-926 | n engines at once run at most n - 1 iterations beyond max_iterations |
| `GoalFences.OverrunIsReached` | src/project_supervisor/autonomy.py:1232-1259 | under a limit of one iteration n engines at once can begin n iterations |
| `Ordering.SortedUnique` | src/project_supervisor/scheduler.py:74-86 | without ties there is exactly one sorted arrangement |
| `Ordering.SortIgnoresOrder` | src/project_supervisor/scheduler.py:74-86 | sorting untied elements forgets the order in which they came |
| `Scheduler.HardConstraints` | src/project_supervisor/scheduler.py:165-204 | there is no reason against a worker exactly if it meets the task, and every reason names that worker |
| `Scheduler.BetterWorkersScoreHigher` | src/project_supervisor/scheduler.py:206-247 | a worker nowhere worse never scores lower, with any monotone rounding and non-negative weights |
| `Scheduler.ResourceEvidence` | src/project_supervisor/scheduler.py:249-258 | duplicates are refused, and otherwise the dictionary is exactly what was reported |
| `Scheduler.Screen` | src/project_supervisor/scheduler.py:74-79 | separates the eligible workers from the reasons against the others |
| `Scheduler.Schedule` | src/project_supervisor/scheduler.py:62-137 | raises exactly on duplicate evidence or on weights summing to zero with somebody to score, and decides as specified otherwise |
| `SchedulerTheorems.ListingOrderIsIrrelevant` | src/project_supervisor/scheduler.py:74-112 | the decision is the same for every order of workers with distinct ids |
| `SchedulerTheorems.RankingIsByScore` | src/project_supervisor/scheduler.py:81-86 | the ranking is by score and then by id, without ties |
| `SchedulerTheorems.OneWorkerIsTheBest` | src/project_supervisor/scheduler.py:269-293 | single, fallback and cheap-first select nobody exactly if nobody is eligible, and otherwise the unique best by their own order |
| `SchedulerTheorems.PreferencesAreHonoured` | src/project_supervisor/scheduler.py:271-283 | the dictionary of preferences ranks every listed worker before every unlisted one if and only if none is listed twice |
| `Preferences.ListedAreSelected` | src/project_supervisor/scheduler.py:271-283 | without a repeated entry, fallback selects a listed worker whenever one is eligible |
| `Preferences.UnlistedCanWin` | src/project_supervisor/scheduler.py:271-283 | for every list with a repeated entry there are two eligible workers, one of them listed, of which the other is selected |
| `Preferences.PreferencesDecideExactly` | src/project_supervisor/scheduler.py:271-283 | under the default weights fallback honours a list for all workers if and only if no entry is repeated |
| `SchedulerTheorems.PanelIsTheTop` | src/project_supervisor/scheduler.py:101-112 | a panel of at least one is the top panel_size of the ranking, or empty |
| `SchedulerTheorems.PrimaryAndReviewer` | src/project_supervisor/scheduler.py:294-304 | empty exactly if nobody but the top worker can review; otherwise the top worker and the best other reviewer |
| `Capacity.PanelIsFilled` | src/project_supervisor/scheduler.py:305-306 | when a panel is filled, for any integer size |
| `Capacity.SelectionSurvivesGrowth` | src/project_supervisor/scheduler.py:260-307 | more eligible workers never empty a selection, in any topology |
| `Capacity.ProbeCoversSubsets` | src/project_supervisor/runtime.py:1309-1331 | for the scheduler alone, under fixed evidence, the probe with all busy workers idle answers for every set of them |
| `Deferral.ProbeCoversRouting` | src/project_supervisor/runtime.py:1119-1124 | whoever the next routing decision may choose from, the probe was shown |
| `Deferral.BlockingIsSound` | src/project_supervisor/runtime.py:1118-1142 | single, fallback, cheap-first and panel: a task blocked instead of deferred stays undispatchable whichever busy workers become idle, with the guard consulted again |
| `Deferral.BlockedReviewExactly` | src/project_supervisor/runtime.py:1118-1142 | primary and reviewer: such a task becomes dispatchable if and only if the probe's top worker is its only reviewer and fresh evidence puts another cleared worker ahead of it |
| `Deferral.NobodyProbedStaysBlocked` | src/project_supervisor/runtime.py:1118-1142 | if the probe finds nobody eligible, the task stays undispatchable in every topology |
| `Deferral.WaitingPaysOffExactly` | src/project_supervisor/runtime.py:1118-1133 | single, fallback and cheap-first: with all busy workers idle the task can be dispatched if and only if some worker eligible in the probe has a pool not known to be exhausted |
| `Deferral.PanelIsRoutedExactly` | src/project_supervisor/runtime.py:1083-1111 | a panel is routed if and only if the guard clears enough workers for it |
| `Deferral.ReviewIsRoutedExactly` | src/project_supervisor/runtime.py:1083-1111 | a primary and a reviewer are routed if and only if, of two cleared workers, the one behind can review |
| `DefaultScores.MarginDecides` | src/project_supervisor/scheduler.py:22-33 | under the default weights and any rounding within a thousandth, a margin in quality and health decides between otherwise equal workers |
| `DeferralExamples.BlockedReviewCanBecomePossible` | src/project_supervisor/runtime.py:1309-1331 | concrete workers whose task is blocked and not deferred although both are selected once one of them is idle |
| `DeferralExamples.DeferralCanBeInVain` | src/project_supervisor/runtime.py:1309-1331 | a concrete worker whose task is deferred although nobody is selected whoever becomes idle |
| `QuotaGuard.EvidenceIsTrusted` | src/project_supervisor/resource_usage.py:1326-1378 | a quota state counts if and only if a dated, matching, known and trusted observation reports it; unknown always names its doubt |
| `QuotaGuard.HealthScore` | src/project_supervisor/resource_usage.py:1139-1155 | the health score lies between zero and one, so routing evidence is never refused for it |
| `QuotaGuard.Evaluate` | src/project_supervisor/resource_usage.py:1234-1325 | the loop computes the specified listing, avoidances and evidence |
| `QuotaGuard.GuardLeavesSomebody` | src/project_supervisor/resource_usage.py:1259-1282 | somebody is left exactly if some capable candidate's pool is not exhausted |
| `QuotaGuardTheorems.AvoidedForCause` | src/project_supervisor/resource_usage.py:1254-1282 | the entry of a candidate is the objection to that candidate, if there is one |
| `QuotaGuardTheorems.ListedExactly` | src/project_supervisor/resource_usage.py:1259-1289 | a candidate is listed exactly if there is no objection to it |
| `QuotaGuardTheorems.ListedByRank` | src/project_supervisor/resource_usage.py:1283-1289 | the listing goes from available over warned and unknown to critical pools, the healthier evidence first |
| `QuotaGuardTheorems.NobodyListedIsExhausted` | src/project_supervisor/resource_usage.py:1259-1282 | nobody listed is incapable or has an exhausted pool |
| `QuotaGuardTheorems.SomebodyIsListed` | src/project_supervisor/resource_usage.py:1259-1282 | one capable candidate with a pool not exhausted is enough for somebody to be listed |
| `QuotaGuardTheorems.AvoidanceIsMonotone` | src/project_supervisor/resource_usage.py:1260-1282 | whoever is avoided among fewer capable candidates is avoided among more |
| `QuotaGuardTheorems.OwnHealth` | src/project_supervisor/resource_usage.py:1306-1324 | the health reported for a candidate is its own if it was capable and that of an unknown pool if it was not |
| `QuotaGuardTheorems.GuardOrderIsIrrelevant` | src/project_supervisor/resource_usage.py:1242-1289 | the verdict is the same for every order of distinct candidates |
| `Routing.ApplyQuotaGuard` | src/project_supervisor/runtime.py:1261-1307 | the workers passed on, the quota rejections and the evidence are those of the guard's verdict |
| `Routing.Route` | src/project_supervisor/runtime.py:1083-1111 | guard and scheduler together decide as specified, and the guard's evidence never makes the scheduler raise |
| `RoutingTheorems.ScoredExactlyIfCleared` | src/project_supervisor/runtime.py:1298-1303 | the workers scored are exactly those that meet the task and that the guard allows |
| `RoutingTheorems.RejectedExactlyIfNotCleared` | src/project_supervisor/runtime.py:1293-1303 | the workers rejected, by scheduler or guard, are exactly the others |
| `RoutingTheorems.ScoredOrRejected` | src/project_supervisor/runtime.py:1261-1307 | every candidate is scored or rejected and never both |
| `RoutingTheorems.SelectedIsCleared` | src/project_supervisor/scheduler.py:260-307 | no selected worker has a pool known to be exhausted, and each was scored |
| `RoutingTheorems.FoundExactlyIfAvailable` | src/project_supervisor/scheduler.py:269-293 | single, fallback and cheap-first find a worker if and only if some candidate meets all constraints with a pool not known to be exhausted |
| `RoutingTheorems.RoutingOrderIsIrrelevant` | src/project_supervisor/runtime.py:1261-1307 | the whole routing decision is the same for every order of workers with distinct ids |

## Left out

- SQLite itself, JSON texts, redaction and truncation of texts, UUIDs and SHA-256: rows are values, ids are given, hashes are functions.
- UNIQUE constraints of the audit table: they could refuse only on hash collisions, which `HashesAreDistinct` and `RunsNeverShareHashes` rule out for injective hashes.
- Validation inside the constructors of bootstrap results and authorizations: the model starts from well-formed results.
- Columns that nothing reads back: created and updated times, row versions, details and summaries, previous owners and recovery states of leases, the effective intent of a goal.
- Policies being configured or changed while a recovery runs, and the node and worker rows that a recovery marks degraded or ready.
- The bounded machine identity that a lease owner must have, and the blank-text checks of the quota guard's candidates.
- Host registration, the host's polling loop and shutdown (easy members beside the lease protocol).
- Task, failure and no-progress counts, and decisions made only once, under several engines at once: the lease rules that out while it is held, so these counters are stated for one engine at a time.
- BlockingIsSound: takes the next routing decision at the same moment and with the same ledger; observations that arrive or expire in between are not modelled.
- Elapsed-time, token and cost budgets: one arbitrary answer stands for all three.
- Dispatch references, task ids and cancellation grace periods: an action row keeps whether it was dispatched and how it ended.
- Blank: treats the ASCII white-space characters as blank, not every Unicode one.
- DispatchAndCollect: waits for finished actions in the order of ordinals, because which order asyncio reports makes no difference to what is proved.
- RunGoal: a process runs for a given number of store accesses, because an endless loop has no final state; the number is arbitrary. Termination is stated in store accesses, not in time.
- Floating point: scores and costs are reals, so NaN, signed zeros and the order of additions are not modelled.
- Route: requires distinct worker ids, as the primary key of the worker table guarantees; `Scheduler.Schedule` and `QuotaGuard.Evaluate` themselves accept any list.
- The rest of the runtime (claims, reconciliation, cancellation, contracts with adapters), provider adapters, bridge and local workers, command line, configuration, release and acceptance scripts.
- State-machine tables, telemetry sums, resource economics and back-off arithmetic: they would only add easy members.
