# A verified model of the production optimizer's control plane

The control plane runs an optimization case as a graph of small nodes. Each node goes through an
idempotent runtime: its result is recorded under a derived key, and a later call on that key replays the
record. The shared workflow drives S01 (select) and S02 (plan), then the phase loop S03 (implement), S04
(verify), S05 (remeasure) and S06 (decide), and S07 (report). This project models that core in Dafny and
proves what every run of it keeps, including where the code does not do what its documentation says.

The files, bottom up:

- `Text`, `Keys`, `KeyStrings`: the key and artifact-id strings, and that they determine what they name.
- `Ordering`, `Reducers`, `Channels`, `RouteLog`, `Resume`: the state reducers, nesting a stage as a
  subgraph, the route history encoded in dictionary keys, and what a resume does to the references.
- `Ledger`, `Store`, `Runtime`, `Protocol`: the two intent ledgers, the content-addressed store, one
  runtime call with its crash points, and any number of workers interleaved at every port call.
- `Phases`, `Checks`, `Remeasure`, `Decide`: the pure rules and the loops of S03.10, S04, S05 and S06.
- `Machine`: the whole workflow as a state machine. One step runs one node through the ledger, commits
  its result and follows the graph's edge. The outside world (policy, workspace, exit codes, readings,
  git, clock) answers through an `Env` that is arbitrary at every step.
- `Bookkeeping`, `Passes`, `Evidence`, `Progress`, `Repeats`, `Invariant`, `Planning`, `Measurements`,
  `Outcomes`, `Reporting`, `History`, `Reachable`: the invariant of that machine, kept by every step.
- `Recovery`, `PhaseLoop`, `Termination`, `Delivery`, `Witness`: what follows for whole runs, and runs
  that reach each situation in which the code departs from its documentation.
- `Compose`, `AgentLoop`: the Compose evaluation worker and the S03.50 agent loop with S03.60's scope check.

## Where the code and its documentation differ

The model follows the code. For each difference the theorem named first gives the exact condition, for
every run or input, and the member named last gives a run or an input that shows it.

- Bounded loops (`orchestration/shared_workflow.py`, module docstring). When S04.10 of any pass but the
  first finds no workspace, the outer edge takes the `revision` route without a new pass: every node from
  S03.10 to S04.10 then replays, and nothing in the graph ends it; LangGraph's recursion limit, which is
  not modelled, stops such a run with an error. All other runs stop
  (`Termination.RepetitionStartsWhen`, `StopsUnlessRepeating`, `Witness.RepetitionHappens`).
- `REVERT` selecting another strategy. It never does: S01's keys carry no pass, so S01 replays its first
  selection and S02.10 raises (`Termination.RevertAborts`, `Witness.RevertHappens`).
- `FIX_ONE_PART` re-implementing the active phase. It never does: the phase's tasks were promoted when its
  verification passed, so a later pass never works on it; with no phase left the run raises at S04.10
  (`PhaseLoop.FixNeverRepairsItsPhase`, `FixWithNoPhaseLeftAborts`, `Witness.FixWithNothingLeftHappens`).
- A stop inside S03 or S05 ending the run. In S03 it does in the first pass only, in S05 only until some
  pass was measured; afterwards the run goes on to the next stage, which raises
  (`PhaseLoop.S03StopAborts`, `S05StopAborts`, `Witness.FixWithNothingLeftHappens`, `RejectionAborts`).
- `KEEP` applying the change and publishing the report. The pass after a `FIX_ONE_PART` finds S06.90's key
  taken by a result that applied nothing, and S07.50 then raises; every other KEEP that reaches S07 has
  an apply result and is reported (`PhaseLoop.KeptChangeIsApplied`, `Delivery.PublishedUnlessFixed`,
  `Witness.KeptButNotApplied`).
- The report keeping every judged pass visible. It reports every earlier pass as it ended exactly when none
  was judged `FIX_ONE_PART` (`PhaseLoop.AccountIsRight`, `Witness.DecisionHidden`).
- S02.90 halting for the owner. It never does: the outer edge asks only whether S02.90 completed
  (`PhaseLoop.PlanApprovalDoesNotHalt`, `Witness.ApprovalIgnored`).
- A completed intent keeping its output. It does exactly as long as no attempt in flight completes with
  another one, and for good once none is in flight (`Protocol.CompletedOutputChangesIff`,
  `Protocol.QuietForever`, `Protocol.RaceRewritesOutput`).
- The in-memory ledger standing in for the table. The two agree on every series of calls of one
  runtime (`Runtime.LedgersAgree`); marking an intent unknown agrees exactly when it is absent or pending
  (`Ledger.MarkUnknownAgrees`, `Ledger.MemoryForgetsCompletion`).
- Resuming without a checkpoint. The resumed route is read back exactly when the node's history has one
  entry or the new route repeats the stale one (`RouteHistory.RestartedRoute`,
  `RouteHistory.StaleRouteSurvives`).
- Resuming on a checkpoint dropping the halted node's reference. The merge brings it back, so the node
  seals again exactly when its content is unchanged (`Resume.CheckpointedSeal`,
  `Resume.ResealedOnCheckpoint`).
- Reads staying within a tenant. The check is a prefix test on keys: they do exactly when no other tenant
  with objects in the store has an id that continues the reader's with a slash (`Store.ReadsOwnWhen`,
  `Store.PrefixTenantReads`).
- S03.60 reporting every change outside the scope. It does exactly when nothing outside the scope was
  deleted (`AgentLoop.ReportsAllWhen`, `AgentLoop.CommandDeletes`).
- An executor that writes only where it is allowed passing S03.60's path check. It always does exactly when
  the allowed paths are closed under normalising; `a/../b` is written as `b` and then reported
  (`AgentLoop.ScopeHoldsWhen`, `AgentLoop.WritesThere`).

## Model

| member | source | states |
|---|---|---|
| `PhaseLoop.ReportRestsOnEvidence` | src/production_optimizer/orchestration/shared_workflow.py:97-131 | in every run S07 is entered only on a KEEP over this pass's own documents: a verification that passed with its checks, an in-scope isolated patch, a comparable measurement citing this pass's isolation, comparability and statistics, effects computed from the treatment S05.40 recorded in this pass, whose means come from the readings of a step of that pass, meet every target and hold every guardrail |
| `PhaseLoop.DecisionsAreJustified` | src/production_optimizer/application/s06_handlers.py:318-419 | every decision ever sealed follows from its own pass's statistics and checks, each of the four exactly on its condition: REVERT when this pass's rollback report found the original untouched, ESCALATE when it found it touched; that report is cited exactly on REVERT |
| `PhaseLoop.GateSettlesThePass` | src/production_optimizer/application/s04_handlers.py:391-489 | the recorded gate, the sealed verdict, the promotion of tasks, the counter and the edge taken agree at every reachable S04.90 |
| `PhaseLoop.PassesAccountedFor` | src/production_optimizer/application/s04_handlers.py:474-487 | the repair counter is at most five and every earlier pass ended in exactly one of a failed verification and FIX_ONE_PART |
| `PhaseLoop.HandlersRunAfresh` | src/production_optimizer/application/node_runtime.py:385-408 | outside a repeating pass every node S03.10 to S06.80 runs its handler instead of replaying |
| `PhaseLoop.LookupsStayInThePass` | src/production_optimizer/application/s04_handlers.py:593-616 | an artifact found under the current pass was sealed by its own producer under the current pass's key |
| `PhaseLoop.MergesNeverConflict` | src/production_optimizer/contracts/state.py:11-21 | no step of any run fails on merging artifact references |
| `PhaseLoop.FixNeverRepairsItsPhase` | src/production_optimizer/application/s04_handlers.py:474-480 | no patch after a sealed decision is for the phase that decision was about |
| `PhaseLoop.FailureRetriesItsPhase` | src/production_optimizer/application/s03_handlers.py:201-216 | a pass not opened by FIX_ONE_PART picks again the phase whose verification failed in the pass before |
| `PhaseLoop.FixWithNoPhaseLeftAborts` | src/production_optimizer/application/s03_handlers.py:201-222 | with every phase done, S03.10 of a later pass stops, the graph goes on to S04.10, and S04.10 raises |
| `PhaseLoop.S03StopAborts` | src/production_optimizer/orchestration/shared_workflow.py:171-171 | a stop at S03.10, S03.60 or S03.70 ends the run exactly in the first pass; in a later one the run goes on to S04.10 and raises, for want of this pass's patch |
| `PhaseLoop.S05StopAborts` | src/production_optimizer/orchestration/shared_workflow.py:175-175 | a rejection at S05.30 or S05.70 ends the run exactly when S05.90 never completed; otherwise the run goes on to S06.10 and raises, for want of this pass's measurement |
| `PhaseLoop.KeptChangeIsApplied` | src/production_optimizer/application/s06_handlers.py:425-449 | in S07 an apply result for this pass exists exactly when the pass before did not end in FIX_ONE_PART |
| `PhaseLoop.ReportRaisesAfterFix` | src/production_optimizer/application/s07_handlers.py:358-375 | S07.50 raises exactly when the pass before ended in FIX_ONE_PART |
| `PhaseLoop.ChainNeverBroken` | src/production_optimizer/application/s07_handlers.py:208-256 | S07.10 never rejects: the digest chain from the selection and the plan to the final pass's decision is intact |
| `PhaseLoop.OnePlan` | src/production_optimizer/application/s02_handlers/nodes/s02_81_deterministically_validate_and_seal_plan_and_tasklist.py:126-150 | S02.81 is only reached without a sealed plan, so a run seals at most one; from S02.90 on it is there with its own task list, for the selected solution, and every patch and provenance cites it |
| `PhaseLoop.EarlierPassesAsReported` | src/production_optimizer/application/s07_handlers.py:282-305 | an earlier pass is reported as a failed verification, and so as it ended, exactly when neither it nor any pass up to the reported one was judged FIX_ONE_PART; otherwise as without a decision |
| `PhaseLoop.AccountIsRight` | src/production_optimizer/application/s07_handlers.py:183-205 | every earlier pass is reported as it ended exactly when none was judged FIX_ONE_PART |
| `PhaseLoop.ReportIsComplete` | src/production_optimizer/application/s07_handlers.py:652-669 | the report S07.90 reads back covers every criterion and every earlier pass |
| `PhaseLoop.CostCountsEveryPass` | src/production_optimizer/application/s07_handlers.py:391-415 | the reported tokens are those of every provenance on file for the phase; looking at more passes finds no more |
| `PhaseLoop.PlanApprovalDoesNotHalt` | src/production_optimizer/orchestration/shared_workflow.py:170-170 | after S02.90 a run goes on to S03 whatever route S02.90 returned |
| `Delivery.PublishedUnlessFixed` | src/production_optimizer/application/s07_handlers.py:543-674 | from S07.10 on, without an outside failure, nine steps end the run with a sealed report holding this pass's decision, an entry for every earlier pass and criterion and the tokens of every pass, exactly when the pass before did not end in FIX_ONE_PART; otherwise they raise |
| `Termination.StopsUnlessRepeating` | src/production_optimizer/orchestration/shared_workflow.py:97-131 | a run longer than a fixed bound is still going exactly when a pass of it repeats itself |
| `Termination.RepetitionStartsWhen` | src/production_optimizer/application/s04_handlers.py:159-193 | a repetition starts exactly when S04.10 of a later pass finds the patch but no workspace |
| `Termination.RepetitionNeverEnds` | src/production_optimizer/orchestration/shared_workflow.py:97-105 | a pass that repeats itself goes on doing so whatever the world answers, recording nothing and leaving the counter alone |
| `Termination.RankDrops` | src/production_optimizer/orchestration/shared_workflow.py:168-191 | a rank over plan revisions, repair passes and position falls at every step that starts no repetition |
| `Termination.AtMostFourRepairs` | src/production_optimizer/orchestration/shared_workflow.py:94-131 | over both failure classes a run goes back to S03 for a new pass at most four times |
| `Termination.RevertAborts` | src/production_optimizer/application/s06_handlers.py:864-876 | back at S01 after a revert, every continuation of ten steps or more has raised |
| `Termination.RevertLeadsToS01` | src/production_optimizer/orchestration/shared_workflow.py:176-186 | once a strategy is excluded the loop is never entered again |
| `Witness.RepetitionHappens` | src/production_optimizer/orchestration/shared_workflow.py:97-105 | every case with a phase to work on has a run that ends in a repetition |
| `Witness.RevertHappens` | src/production_optimizer/application/s06_handlers.py:864-876 | a treatment meeting no target leads back to S01, and every continuation raises |
| `Witness.FixWithNothingLeftHappens` | src/production_optimizer/application/s03_handlers.py:210-222 | a partly met treatment of the only phase leads to a pass that raises |
| `Witness.KeptButNotApplied` | src/production_optimizer/application/s06_handlers.py:425-449 | a partly met treatment followed by a fully met one is kept without being applied, and every continuation without an outside failure raises before a report is sealed |
| `Witness.DecisionHidden` | src/production_optimizer/application/s07_handlers.py:282-305 | FIX_ONE_PART, a failed verification and a KEEP in turn end in a published report that says of the first pass that no decision was sealed |
| `Witness.RejectionAborts` | src/production_optimizer/orchestration/shared_workflow.py:175-175 | a pass that loses its workspace at S05.30 after a judged one goes on to S06.10 and raises |
| `Witness.ApprovalIgnored` | src/production_optimizer/application/s02_handlers/nodes/s02_90_approve_and_seal_or_halt_for_owner_decision.py:27-77 | every case has a run in which S02.90 asks for the owner's approval and the next node is S03.10 |
| `Witness.AllHappen` | src/production_optimizer/orchestration/shared_workflow.py:168-191 | a concrete two-criterion case with concrete readings reaches each of these situations |
| `Recovery.ReplayRetracesTheRun` | src/production_optimizer/application/node_runtime.py:371-408 | restarted from scratch on a ledger holding at least its record, a run reaches the same node and state in as many steps, running no handler, whatever the world answers |
| `Recovery.CrashIsInvisible` | src/production_optimizer/application/node_runtime.py:371-438 | a restart after a crash and its continuation end where the uninterrupted run ends |
| `Recovery.LedgerGrowsAlways` | src/production_optimizer/application/node_runtime.py:385-438 | no step of a run replaces a recorded result |
| `Recovery.RecordsComeFromTheRun` | src/production_optimizer/application/node_runtime.py:393-438 | whatever is on a run's ledger was returned by that key's own handler at some step of the run |
| `Reachable.InvAlways` | src/production_optimizer/orchestration/shared_workflow.py:134-192 | the invariant behind these results holds in every configuration of every run |
| `Bookkeeping.NeverClashes` | src/production_optimizer/contracts/state.py:11-21 | a replay brings back what is on file and a handler that runs seals ids nobody sealed before |
| `Bookkeeping.HandlerShape` | src/production_optimizer/application/s06_handlers.py:806-878 | each handler writes only its own fields, seals only its own kinds for its own pass, and routes only as declared |
| `Evidence.SealsS04` | src/production_optimizer/application/s04_handlers.py:433-473 | the sealed verification cites this pass's patch and provenance and passes exactly with its checks |
| `Measurements.StatisticsSealed` | src/production_optimizer/application/s05_handlers.py:520-565 | the sealed statistics are the effects of the treatment S05.40 recorded in this pass, which had the required quality |
| `Measurements.SampledStep` | src/production_optimizer/application/s05_handlers.py:301-353 | every step keeps that all sealed statistics are computed from their own pass's record |
| `Evidence.SealsS06_80` | src/production_optimizer/application/s06_handlers.py:806-863 | the sealed decision cites this pass's measurement and verification, and its rollback report exactly on REVERT, and is the verdict on their contents with that report's finding |
| `Progress.IntakeNeverRejects` | src/production_optimizer/application/s06_handlers.py:171-195 | whenever S06.10 does not raise, every criterion was measured and it continues |
| `Progress.RollbackIsChecked` | src/production_optimizer/application/s06_handlers.py:378-419 | after S06.60 a pending REVERT has a rollback report of this pass saying what was found |
| `Progress.DecisionIsSealed` | src/production_optimizer/application/s06_handlers.py:806-878 | S06.80 moves the counter only on FIX_ONE_PART and extends the exclusions only on REVERT |
| `Repeats.LoopGoesOn` | src/production_optimizer/application/node_runtime.py:385-408 | in a repeating pass a step replays, records nothing and stays between S03.10 and S04.10 |
| `Outcomes.NeverAgainStep` | src/production_optimizer/application/s03_handlers.py:201-216 | every step keeps that a phase which passed verification gets no later patch |
| `Outcomes.ApplyKeyStep` | src/production_optimizer/application/s06_handlers.py:864-866 | every step keeps that S06.90's key for the current pass is taken exactly after a FIX_ONE_PART |
| `Reporting.RetryStep` | src/production_optimizer/application/s04_handlers.py:406-432 | every step keeps that a pass opened by a failure works on the phase that failed |
| `History.RetriedStep` | src/production_optimizer/application/s03_handlers.py:201-216 | every step keeps that the pass after a failed verification patches the phase that failed |
| `Reporting.CountTokens` | src/production_optimizer/application/s07_handlers.py:391-415 | the loop over passes sums the tokens of every provenance on file |
| `Reporting.ListOutcomes` | src/production_optimizer/application/s07_handlers.py:282-320 | one entry per earlier pass in order, then one per criterion by its sealed evaluation |
| `Phases.PickActivePhase` | src/production_optimizer/application/s03_handlers.py:201-216 | the stable sort by sequence and the scan return the first phase with an unfinished task |
| `Phases.ActiveMeaning` | src/production_optimizer/application/s03_handlers.py:201-216 | the pick is the unfinished phase earliest by sequence, then by position; there is none exactly when every phase is done |
| `Phases.FinishedNeverActive` | src/production_optimizer/application/s04_handlers.py:474-480 | a phase whose tasks are all done is never picked again, whatever else gets done |
| `Phases.SortBySequence` | src/production_optimizer/application/s03_handlers.py:204-204 | a stable ascending order that holds every phase |
| `Checks.RunChecks` | src/production_optimizer/application/s04_handlers.py:241-307 | one result per kind in order, passed exactly on exit code 0; a lost worker fails |
| `Checks.GateMeaning` | src/production_optimizer/application/s04_handlers.py:391-403 | the gate opens exactly when a mandatory kind ran and every kind that ran exited 0 |
| `Checks.ReportAgreesWithGate` | src/production_optimizer/contracts/s04.py:54-61 | the sealed report, synthetic check included, always satisfies its own validator |
| `Checks.AttributeFailures` | src/production_optimizer/application/s04_handlers.py:348-388 | every failed check is blamed on the patch unless its kind already failed in the baseline |
| `Checks.AttributionsMeaning` | src/production_optimizer/application/s04_handlers.py:348-388 | nothing is blamed exactly when all passed; every failure is blamed, with the right cause, and nothing else |
| `Remeasure.RemeasureAll` | src/production_optimizer/application/s05_handlers.py:301-397 | the loop over criteria computes the specified treatment: samples and unmeasurable ids, or a raise |
| `Remeasure.RaisesWhen` | src/production_optimizer/application/s05_handlers.py:356-397 | that treatment raises exactly when some criterion's measurement does |
| `Remeasure.TreatmentCovers` | src/production_optimizer/application/s05_handlers.py:328-353 | every criterion ends up measured or declared unmeasurable |
| `Remeasure.SamplesAreMeasured` | src/production_optimizer/application/s05_handlers.py:356-397 | every sample on file is what a criterion of that id measured |
| `Remeasure.QualityReasons` | src/production_optimizer/application/s05_handlers.py:429-465 | quality passes exactly when every criterion is measured, has a baseline and enough samples; the reasons name exactly the others |
| `Remeasure.ComputeEffects` | src/production_optimizer/application/s05_handlers.py:520-555 | the loop computes the effect of every criterion that has a sample and a baseline |
| `Remeasure.QualityGivesEveryEffect` | src/production_optimizer/application/s05_handlers.py:429-555 | if S05.60 passes, S05.80 skips nothing: effect i is criterion i's, on its own sample and baseline |
| `Remeasure.EffectIsTheChange` | src/production_optimizer/application/s05_handlers.py:544-555 | the absolute and relative change each take the baseline mean to the treatment mean |
| `Decide.DecisionMeaning` | src/production_optimizer/application/s06_handlers.py:318-375 | each of the four outcomes exactly on its condition over targets, guardrails and rollback |
| `Decide.EvaluateTargetsMeaning` | src/production_optimizer/application/s06_handlers.py:198-234 | S06.20 raises exactly when an effect is missing, and else evaluates each criterion on its own effect |
| `Decide.TargetsUseTheTreatment` | src/production_optimizer/application/s06_handlers.py:198-234 | after a quality-checked measurement no evaluation is missing and each is on the measured mean |
| `Decide.GuardrailFailsClosed` | src/production_optimizer/application/s06_handlers.py:237-315 | a guardrail passes exactly on an observed value that satisfies it; effects take precedence over checks; no evidence fails |
| `Protocol.ReachableSafe` | src/production_optimizer/application/node_runtime.py:371-457 | under any interleaving of workers and crashes, outputs are set exactly on completed intents and each loads as an execution validated for its node |
| `Protocol.CompletedForever` | src/production_optimizer/adapters/production/postgres_intent_ledger.py:110-216 | no interleaving takes a completed intent out of completed |
| `Protocol.CompletedOutputChangesIff` | src/production_optimizer/adapters/production/postgres_intent_ledger.py:160-195 | a completed row changes exactly when an attempt still in flight completes with a different output |
| `Protocol.QuietForever` | src/production_optimizer/application/node_runtime.py:371-438 | once no attempt is in flight the output is fixed and every later lookup commits it |
| `Protocol.RaceRewritesOutput` | src/production_optimizer/adapters/production/postgres_intent_ledger.py:160-195 | from the initial state two workers can complete one intent with two different executions in turn |
| `Runtime.ExecuteIdempotent` | src/production_optimizer/application/node_runtime.py:371-438 | the runtime's call on a ledger and a store object is the specified transition |
| `Runtime.InvokeKeepsIntact` | src/production_optimizer/application/node_runtime.py:371-457 | crash or not, a call leaves every completed intent loadable as a validated execution |
| `Runtime.HandlerSucceedsOnce` | src/production_optimizer/application/node_runtime.py:371-438 | in any series of calls a key's handler succeeds at most once and later calls commit the same execution |
| `Runtime.OnceCompletedAllReplay` | src/production_optimizer/application/node_runtime.py:385-391 | every call on a completed key replays it |
| `Runtime.LedgersAgree` | scripts/_lane1_common.py:120-149 | for every series of calls both ledgers give the same replies and hold the same records |
| `Ledger.PrepareAgrees` | src/production_optimizer/adapters/production/postgres_intent_ledger.py:110-146 | preparing a fresh intent keeps outputs on completed rows only and matches the dictionary |
| `Ledger.CompleteAgrees` | src/production_optimizer/adapters/production/postgres_intent_ledger.py:160-195 | completing raises in both or in neither and matches the dictionary |
| `Ledger.MarkUnknownAgrees` | src/production_optimizer/adapters/production/postgres_intent_ledger.py:197-216 | marking unknown agrees exactly on absent and pending intents |
| `Ledger.MemoryForgetsCompletion` | scripts/_lane1_common.py:145-149 | on a completed intent the dictionary forgets the completion where the table refuses |
| `Ledger.PostgresIntentLedger.Prepare` | src/production_optimizer/adapters/production/postgres_intent_ledger.py:110-146 | the row transition and the returned record |
| `Ledger.LookupAfterComplete` | src/production_optimizer/adapters/production/postgres_intent_ledger.py:148-195 | what is completed is what the next lookup returns, with its output, on this intent and on no other |
| `Ledger.PostgresIntentLedger.Complete` | src/production_optimizer/adapters/production/postgres_intent_ledger.py:160-195 | raises exactly without a row, else completes it with the output |
| `Ledger.PostgresIntentLedger.MarkUnknown` | src/production_optimizer/adapters/production/postgres_intent_ledger.py:197-216 | raises exactly unless the row is pending |
| `Ledger.MemoryIntentLedger.Prepare` | scripts/_lane1_common.py:124-130 | keeps a completed record, else overwrites |
| `Ledger.LookupAgrees` | scripts/_lane1_common.py:132-133 | a lookup answers with an output exactly on completed intents, and the same from either ledger |
| `Ledger.MemoryIntentLedger.Complete` | scripts/_lane1_common.py:135-143 | raises exactly without a record, else completes it |
| `Ledger.MemoryIntentLedger.MarkUnknown` | scripts/_lane1_common.py:145-149 | raises exactly without a record, else marks it unknown |
| `Store.PutThenRead` | src/production_optimizer/adapters/production/s3_artifact_store.py:88-142 | what is put reads back as itself, nothing stored changes, and every object stays under its own digest |
| `Store.S3ArtifactStore.PutJson` | src/production_optimizer/adapters/production/s3_artifact_store.py:88-108 | put-if-absent under the content's digest |
| `Store.S3ArtifactStore.ReadJson` | src/production_optimizer/adapters/production/s3_artifact_store.py:131-142 | returns the content whose digest the URI names, of the tenant's own object when no tenant in the store lies below it; raises on another bucket, a foreign key or a missing object |
| `Store.ReadsOwnWhen` | src/production_optimizer/adapters/production/s3_artifact_store.py:138-139 | a tenant reads only objects stored for it exactly when no tenant with objects in the store has an id that continues its own with a slash |
| `Store.ReadReturns` | src/production_optimizer/adapters/production/s3_artifact_store.py:131-150 | a successful read is of the URI's digest whatever digest the reference claims; `verify` adds exactly that the two agree |
| `Store.PrefixTenantReads` | src/production_optimizer/adapters/production/s3_artifact_store.py:138-142 | tenant `a` reads an object put for tenant `a/b` |
| `Keys.DeriveIdempotencyKey` | src/production_optimizer/application/node_runtime.py:187-258 | the loop over the counters derives the specified key and raises without a case id |
| `Keys.KeyDetermines` | src/production_optimizer/application/node_runtime.py:243-258 | a key determines case, node, version, pass and resume, colons in the case id included |
| `Keys.ProductionVersions` | src/production_optimizer/application/s03_handlers.py:107-123 | the declared versions cannot be mistaken for a suffix |
| `Keys.VersionCollision` | src/production_optimizer/application/node_runtime.py:243-258 | with a version of the suffix form two different calls share a key |
| `Keys.ResumeKeyFresh` | src/production_optimizer/application/resume.py:117-139 | a resume gives the halted node a key no earlier call used |
| `Keys.ResumeKeyChanges` | src/production_optimizer/application/resume.py:117-139 | a resume changes the keys of its target and of the previous one only, and the previous one falls back to its halt key |
| `Keys.StageArtifactIdDetermines` | src/production_optimizer/application/s04_handlers.py:567-576 | within a node and type an artifact id determines phase and pass |
| `KeyStrings.IntentKeysMatch` | src/production_optimizer/application/node_runtime.py:243-258 | two node calls share a key string exactly when the machine gives them one key |
| `KeyStrings.ArtifactIdsMatch` | src/production_optimizer/application/s05_handlers.py:162-171 | two artifacts of a type share an id string exactly when the machine gives them one key |
| `RouteHistory.LogRecordsHistory` | src/production_optimizer/application/node_runtime.py:261-318 | for every sequence of commits no merge conflicts and each node's keys are `id`, `id#2`, ... without a gap, holding its routes with repeats removed |
| `RouteHistory.RouteForIsLastCommit` | src/production_optimizer/application/node_runtime.py:489-497 | `route_for` returns the last committed route, and continue before any |
| `RouteHistory.LatestRouteKey` | src/production_optimizer/application/node_runtime.py:307-318 | the counting loop finds the last key of the node's gapless run |
| `RouteHistory.NextRouteKey` | src/production_optimizer/application/node_runtime.py:261-304 | the counting loop returns the specified next key |
| `RouteHistory.KeyInjective` | src/production_optimizer/application/node_runtime.py:261-304 | numbered keys of ids without `#` never coincide |
| `RouteHistory.RestartedRoute` | src/production_optimizer/application/resume.py:90-91 | after a restart the new route is read back exactly when the history had one entry or the new route repeats the stale one |
| `RouteHistory.StaleRouteSurvives` | src/production_optimizer/application/resume.py:90-91 | a node that continued once, asked for approval and is resumed to continue still reads as asking |
| `RouteHistory.CheckpointKeepsHistory` | src/production_optimizer/application/resume.py:117-128 | on a checkpoint the popped entry comes back through the merge |
| `RouteHistory.CheckpointedRoute` | src/production_optimizer/application/resume.py:117-128 | on a checkpoint the resumed node's new route is the one read back |
| `Resume.RestartedSeal` | src/production_optimizer/application/resume.py:85-89 | after a restart the halted node can seal again under its old id whatever its content; any other id on file conflicts unless the digest is the same or was the interrupt's |
| `Resume.CheckpointedSeal` | src/production_optimizer/application/resume.py:117-128 | on a checkpoint the dropped reference comes back through the merge, and sealing again conflicts exactly when the content changed |
| `Resume.ResealedOnCheckpoint` | src/production_optimizer/application/resume.py:85-128 | one stale reference and a changed one under its id: a restart merges them, a checkpoint does not |
| `Reducers.MergeArtifactRefs` | src/production_optimizer/contracts/state.py:11-21 | the dict-filling loop and the sort compute the specified merge |
| `Reducers.MergeMeaning` | src/production_optimizer/contracts/state.py:11-21 | it raises exactly when two inputs share type and id with different digests, else lists the union |
| `Reducers.MergedList` | src/production_optimizer/contracts/state.py:11-21 | the result is strictly sorted with one reference per key and nothing foreign |
| `Reducers.Represented` | src/production_optimizer/contracts/state.py:11-21 | every input reference is represented with its key and digest |
| `Reducers.MergeAssociative` | src/production_optimizer/contracts/state.py:11-21 | grouping never matters, failures included |
| `Reducers.MergeAbsorbs` | src/production_optimizer/contracts/state.py:11-21 | handing an accumulated list back to its accumulator adds nothing |
| `Reducers.MergeIdempotent` | src/production_optimizer/contracts/state.py:11-21 | a produced list merges into itself unchanged |
| `Reducers.MergeOrderFree` | src/production_optimizer/contracts/state.py:11-21 | argument order changes neither failure nor any key's digest |
| `Reducers.MergeNodeRoutes` | src/production_optimizer/contracts/state.py:30-39 | the loop raises exactly on a changed value, else unites the logs |
| `Reducers.LatestNodeAssociative` | src/production_optimizer/contracts/state.py:42-51 | the progress marker is associative and idempotent |
| `Channels.NestedIsFlat` | src/production_optimizer/contracts/state.py:234-281 | running stages as subgraphs that return absolute states equals running their nodes flat, however often they are revisited, failures included |
| `Channels.VisitIsFlat` | src/production_optimizer/contracts/state.py:234-281 | the same for one visit |
| `Channels.SummingBreaks` | src/production_optimizer/contracts/state.py:256-280 | a summing reducer counts right exactly while nothing was counted before the last visit |
| `Channels.RecordedIncident` | src/production_optimizer/contracts/state.py:256-280 | the recorded double count |
| `Compose.RunComposeEvaluation` | src/production_optimizer/application/a2_worker_capabilities.py:304-433 | `down` is invoked exactly once and last on every path; no lifecycle error exactly when start-up, every warmup, every run and cleanup went through; attempts are those of a prefix of the plan, of all of it without an error |
| `Compose.StartUp` | src/production_optimizer/application/a2_worker_capabilities.py:340-361 | config, build and up in order until one fails; a refused configuration is not caught |
| `Compose.RunEvaluation` | src/production_optimizer/application/a2_worker_capabilities.py:364-410 | the inner loop runs warmups then repetitions and stops at the first run that breaks |
| `Compose.RunPlan` | src/production_optimizer/application/a2_worker_capabilities.py:363-410 | the outer loop runs the whole plan or stops at its first broken run |
| `Compose.AttemptsAreTheRepetitions` | src/production_optimizer/application/a2_worker_capabilities.py:363-410 | a plan that went through has exactly repetitions 1 to r of each evaluation, in order |
| `Compose.OutputsAreUsable` | src/production_optimizer/application/a2_worker_capabilities.py:378-410 | an attempt carries output exactly when its run exited 0 with all expected metrics and the right feature |
| `AgentLoop.RunAgentLoop` | src/production_optimizer/application/s03_agent_loop.py:64-136 | at most `max_steps` model calls, records numbered 1 to k by kind, exact token sums, the workspace of the calls made, and each stop reason exactly on its cause |
| `AgentLoop.OnlyAllowedTargetsChange` | src/production_optimizer/application/s03_agent_loop.py:184-208 | when the command leaves the tree alone a file changes only if an allowed path leads to it, and none disappears |
| `AgentLoop.DiffChangedFiles` | src/production_optimizer/application/s03_handlers.py:638-653 | the scan finds exactly the unignored workspace files the source lacks or has differently |
| `AgentLoop.ScopeHoldsWhen` | src/production_optimizer/application/s03_handlers.py:545-552 | a loop whose command leaves the tree alone always passes the path check, for all replies, exactly when the allowed paths are closed under normalising |
| `AgentLoop.CheckScope` | src/production_optimizer/application/s03_handlers.py:545-563 | `in_scope` exactly when every changed file is allowed and keeps its undeclared symbols, as far as both versions parse |
| `AgentLoop.PlainPathsAreClosed` | src/production_optimizer/application/s03_agent_loop.py:184-193 | normalised allowed paths meet that condition |
| `AgentLoop.DeletionsGoUnreported` | src/production_optimizer/application/s03_handlers.py:638-653 | deleting a file only removes it from the report |
| `AgentLoop.ReportsAllWhen` | src/production_optimizer/application/s03_handlers.py:638-653 | every unignored difference outside the allowed paths is reported exactly when no unignored source file outside them is gone |
| `AgentLoop.CommandDeletes` | src/production_optimizer/application/s03_agent_loop.py:64-136 | a loop that ends normally, deletes a file outside the scope by its command, and passes the path check |
| `AgentLoop.SymbolScope` | src/production_optimizer/application/s03_handlers.py:575-610 | nothing is reported exactly when no undeclared definition differs, as far as both versions parse |

## Left out

- Handlers of A1 to C0 and the inner choices of S01 and S02: S01's eligibility and selection and S02's plan verdict are answers of the outside world; the phases and tasks of whichever plan passes are fixed for a case, and the plan's quality report is not modelled.
- `Machine` does not model `resume_command`: a run that asks for approval ends there; resuming is covered by `Keys`, `RouteHistory` and `Resume`, apart from the machine.
- `authorize_resume`: one conjunction of eleven equality checks.
- `Reporting.ListOutcomes`: the report's narrative, chronology and evidence tables are not modelled.
- `AgentLoop.RunAgentLoop`: symbolic links, absolute request paths, observation texts and a refused write that leaves a partial file are not modelled.
- `AgentLoop.ScopeHoldsWhen`: about the path check; what the symbol check adds to the verdict is in `AgentLoop.CheckScope`.
- `AgentLoop.DiffChangedFiles`: returns the set; the sorting of its list and files that cannot be read are not modelled.
- `Compose.RunComposeEvaluation`: error texts, output tails and the rules of the configuration check are abstract.
- S06.90's git sequence: only whether it applied; S03.20 and S05.40's workspace handling: only whether the workspace exists.
- S02.10's `rejected` route and S01.90's route after a rejected approval: the first is on an unconditional edge, the second needs a resume.
- S03.40, S03.70 and S04.60: their results feed no decision modelled here beyond their route.
- Floating point is modelled over `real`, digests as collision-free, JSON as an abstract encoding, and timestamps as a stamp that makes two seals differ.
- `merge_node_ids` is modelled as set union, without its sorting.
- Parsing of store URIs, Unicode white space in tenant ids, object-store and database client behaviour, telemetry and manifests.
