# Durable agent runs, proved

This project models the part of the platform that keeps a long-running AI agent alive, and
proves what it promises. An agent's *run* alternates model turns and batches of tool calls.
No single server action lives long enough to finish one, so a run saves one checkpoint, hands
over to a scheduled continuation, parks while people decide about risky calls, is resumed,
cancelled, killed, swept up and revived. None of these actors can see the others; they meet
only in database rows, and in time.

`RunRecords` says what each mutation does to a run's rows, `RunStore` performs the same
mutations in place, and `RunProtocol` is the step system: the rows, the live actions, the
scheduler's queue, a clock, and every step the loop, a continuation, the sweeper, an operator
or an approver can take, interleaved at every await. `ObjectiveLoop` is the loop as the
program has it, over local variables and rows. It is proved to perform a run of the step system
while the clock, the sweeper, an operator, approvers and any number of resume actions of the same
run act at its awaits, so the theorems about runs are theorems about the loop.

| file | what it is about |
|---|---|
| `Common`, `ToolGate` | JSON values; what happens to a call before anything runs |
| `Transcript` | writing a batch into the conversation, pairing, trimming to fit a checkpoint |
| `RefusalKey` | the canonical key of a refused call and the bounded list of them |
| `RunRecords`, `RunStore`, `RunProtocol` | rows, mutations, the step system |
| `RowByRow`, `StepByStep` | what each mutation and each step leaves, to the last row and field |
| `ObjectiveLoop` | the loop itself, refining the step system |
| `LeaseExclusion` | exclusion by timing |
| `TranscriptInvariant`, `RunBudgets`, `RunTermination`, `RunOutcome` | pairing, budgets, termination and success over whole runs |
| `ForgottenRevivals`, `BackstopRun`, `TurnBegunTwice` | three runs: past the tool budget over all lives, ended by the segment backstop, answered with two attempts' rows |
| `ApprovalSafety`, `RefusalMemory` | what a decision allows, and what a refusal forbids from then on |
| `Parking`, `BatchToPark` | a parked batch under any interleaving; from the model's request to the park and back, against inline execution |
| `EarlyDecision`, `MissingCall` | decisions taken before the park: a run that goes on without a call of its batch, and exactly when one can |
| `Cancellation`, `CallsAfterCancel`, `RehearsalSafety` | stopping a run, what still starts afterwards, and drills |
| `MemoryOutcomes`, `RateLimiter`, `ModelCost`, `RunLimits`, `VersionStore`, `LogGrouping` | the data structures beside the protocol |

Assumptions are stated where they are used. `Config.startSlack` and `Config.handoverDelay` bound
how long a scheduled continuation waits and how long an action takes between saving its
position and scheduling its successor; no code bounds either. An action lives at most ten
minutes, which is the platform's rule (`MayTick`).

## What the proofs found

Each of these is a lemma below; the model follows the code.

- **Exclusion needs a margin the code does not mention.** A handover saves the checkpoint and
  schedules the continuation in two mutations. One holder at a time is guaranteed if and only if
  the start delay and that gap together stay within the two minutes between an action's longest
  life and the stall threshold (`LeaseExclusion.ExclusionExactly`).
- **Some runs nobody ends.** A run that is not over, with nothing under way and nobody asked, is
  ended or taken up again if and only if it is RUNNING with an ACTIVE checkpoint
  (`RunTermination.RecoveredExactly`). Three reachable runs are not: killed before the first save,
  with no checkpoint to be found by, which the comments at `convex/agentRunCheckpoints.ts:147-150`
  say the sweeper ends; the last approval given and its resume killed, RUNNING with a checkpoint the
  sweeper does not look at; and answered while its batch was still being written down, parked with
  nobody left to ask (`KilledBeforeFirstSave`, `ResumeKilledAfterLastApproval`,
  `AnsweredBeforeThePark`).
- **Three revivals are not always all.** A decision or an expiry that cancels the run deletes its
  checkpoint; if an action still holds the run and a later approval or save brings it back, the
  revivals on record are forgotten, and the lives together charge more than four limits' worth of
  calls (`ForgottenRevivals.MoreThanFourLimits`). None does without passing through that position
  (`RunBudgets.PastFourLimitsForgets`).
- **A cancellation is not always final.** It is final exactly when nothing was in flight: three
  mutations on the approval side write the status without reading it
  (`Cancellation.LeavesCancelledExactly`, `Cancellation.CancelIsFinalExactly`).
- **Approved calls outlive a cancellation.** `cancelRun` closes what waits, and while the run stays
  cancelled at most one call of any kind starts (`CallsAfterCancel.CancelRunStopsCalls`). A cancelling decision or an expiry leaves approved calls behind, and their
  resumes never look at the run: with nobody deciding anything more, a handler can start on the
  cancelled run exactly when, before the step, another approved call's row is still PENDING and its
  resume queued (`CallsAfterCancel.HandlerFollowsExactly`; `CallsAfterCancel.TwoHandlersAfterCancel`
  runs two). With people deciding on, `CallsAfterCancel.HandlerStartsCancelledExactly`.
- **Settlement looks at approvals, not results.** The last decision on a parked batch can settle it
  with "no recorded result" for some call exactly when another approved call's row is still PENDING,
  or it approves while a refusal waits in the queue (`Parking.LosesAResultExactly`). The run
  then goes on, and the real result, arriving while it no longer waits, ends it
  (`Parking.SecondSettlementEndsTheRun`).
- **An approval decided before the park can answer for the whole batch.** With two calls of one batch
  waiting, the first decided while the batch is still being written down, the run goes on with the
  second undecided and absent from the conversation, with no crash and no cancellation
  (`EarlyDecision.GoesOnWithSomebodyUndecided`). Read at the decision: taken last while an action is in
  the batch, it can end in an answer that leaves out a call exactly when a call of the batch is still to
  be written down, whether it will wait, run or be refused, and no malformed one stops the batch first
  (`MissingCall.LeavesOutExactly`).
- **Waiting for a person counts against the run's clock.** A run answered later than its runtime
  limit after it started can only fail or be cancelled, whatever the model would have said
  (`RunOutcome.AnsweredInTimeExactly`).
- **A turn begun twice is answered with both attempts' rows.** An action that dies inside a turn
  leaves its rows under the turn's index, the continuation begins the same turn again, and a
  settlement by turn index returns both (`TurnBegunTwice.BothAttemptsAnswered`, a run of it;
  `Parking.SettlementIsExactly`).
- **A triggered run closes on its approval.** With no conversation to return to, the last approved
  call ends the run in SUCCESS without the model seeing its result
  (`RunOutcome.ApprovalClosesTriggeredRun`, `RunOutcome.OutcomeOfOther`).
- **Trimming twice is not trimming once** when the first trim could keep nothing but a tool
  result whose request it dropped (`Transcript.OrphanThatStillFits`, `Transcript.TrimComposes`).
- **A `__proto__` argument is invisible to the refusal key** (`RefusalKey.ProtoMemberIsInvisible`).
- **A fractional limit below one runs as zero but is stored as "use the default"**, although
  clamping on the way in is there "so the stored record says what will run"
  (`RunLimits.StoredRecordSaysWhatRuns`).
- **The spend ceiling forgets.** A resumed action forgets the cached count, which overstates spend
  only if cached input is no dearer than fresh input (`ModelCost.SpendIsNeverUnderstated`). A revived
  one forgets every turn since the last save, so any model that costs anything can be understated
  (`ModelCost.CrashesHideSpendExactly`), by at most the greatest figure shown for each life, times the
  factor between tiers (`ModelCost.CrashesHideAtMostALifeEach`).
- **A snapshot hash has easy collisions**, and the version handed out then holds another
  configuration (`VersionStore.CollidingSnapshots`, `VersionStore.SnapshotIsFaithfulExactly`).
- **A memory's counters miss a run exactly when it had already consulted 500 other memories**
  (`MemoryOutcomes.MissedByItsRun`, `MemoryOutcomes.CountersAreTheRuns`).
- **Enough approvals exhaust a run.** Approved thirty times, a run is failed by the segment backstop
  though its clock has hardly moved (`BackstopRun.ThirtyApprovalsFail`).

## Model

| member | source | states |
|---|---|---|
| ToolGate.UnattendedWrite | convex/agentRuntimeTurnService.ts:93-115 | a tool that can change something runs with nobody asked if and only if the agent is autonomous, the tool is the platform's own, it is no rehearsal, the call is sound and the caller entitled |
| ToolGate.AsksExactlyForConfirmation | convex/agentRuntimeService.ts:447-470 | a person is asked if and only if their confirmation is the only thing missing |
| ToolGate.EachFateHasItsCause | convex/agentRuntimeService.ts:437-558 | the seven fates of a call, each if and only if its cause: refused before, malformed, a drill of a change, put to a person, denied with its reason, unknown, executed |
| ToolGate.NoOtherFate | convex/agentRuntimeService.ts:492-558 | and there is no eighth |
| ToolGate.EachDenialHasItsReason | convex/aiToolExecutionService.ts:343-395 | each denial if and only if its own cause, in terms of the caller's role and tenant, the tool and the agent's autonomy |
| ToolGate.ConfirmationExactly | convex/agentRuntimeTurnService.ts:93-115 | when the loop's own tool record wants a confirmation |
| Transcript.BatchKeepsPairing | convex/agentRuntimeService.ts:401-432 | appending a batch's turns keeps every function turn answering the model turn before it, same names, same order |
| Transcript.TurnsTellTheCalls | convex/agentRuntimeService.ts:401-432 | the turns written for a batch are the only ones that tell it: one request each with its own name, arguments and non-empty signature, and one result each with the name and payload of the same call, in order; nothing for no calls |
| Transcript.TrimConversationForCheckpoint | convex/agentRunContinuationService.ts:160-181 | the nested loops compute the trim, the size of what they kept, and whether anything was dropped |
| Transcript.TrimIsFirstFit | convex/agentRunContinuationService.ts:160-181 | the cut is a permitted place, its remainder fits or is one turn, and every earlier permitted cut leaves too much |
| Transcript.FirstFitIsTrim | convex/agentRunContinuationService.ts:160-181 | only the trim meets that description |
| Transcript.StorableExactly | convex/agentRunContinuationService.ts:160-190 | a conversation can be stored if and only if what follows some permitted cut fits |
| Transcript.EveryCharacterCounts | convex/agentRunContinuationService.ts:160-181 | a turn adds its own size and nothing else changes: every character said, asked for and answered counts |
| Common.SizesAddUp | convex/agentRunContinuationService.ts:160-181 | the size of an argument or result is that of its parts and the marks around them |
| Transcript.TrimIsIdempotent | convex/agentRunContinuationService.ts:160-181 | trimming a trimmed transcript changes nothing |
| Transcript.TrimKeepsPairing | convex/agentRunContinuationService.ts:150-159 | a trim keeps pairing and, unless it reaches a single turn, never leaves a leading tool result |
| Transcript.TrimComposes | convex/agentRunContinuationService.ts:160-181 | saving trimmed and trimming again later equals one trim of the whole, if and only if the first trim did not keep just an orphaned result that still fits |
| Transcript.OrphanThatStillFits | convex/agentRunContinuationService.ts:160-181 | a paired conversation, a next turn and a cap for which the two differ |
| RefusalKey.KeyDecidesSeen | convex/agentRuntimeService.ts:313-337 | two calls of one tool have the same key if and only if their arguments say the same thing, member order aside at every depth, among the members the key sees |
| RefusalKey.KeyIsTheArguments | convex/agentRuntimeService.ts:313-337 | without `__proto__` members the key is equal exactly for equal arguments |
| RefusalKey.KeyIsTheCall | convex/agentRuntimeService.ts:313-337 | keys agree if and only if the tool is the same and the arguments say the same, or cannot be read and are the same text |
| RefusalKey.ProtoMemberIsInvisible | convex/agentRuntimeService.ts:313-337 | adding a `__proto__` member to an object leaves its key unchanged |
| RefusalKey.RefusalIsRemembered | convex/agentRuntimeService.ts:352-365 | a key newly refused stays on the list through fewer than fifty further distinct refusals |
| RefusalKey.FiftyNewRefusalsForget | convex/agentRuntimeService.ts:352-365 | fifty new distinct refusals displace everything before them |
| RunStore.Store.SaveCheckpointInternal | convex/agentRunCheckpoints.ts:46-88 | the upsert replaces the position, keeps the revivals already spent and touches no other row |
| RunStore.Store.RecoverStalledRuns | convex/agentRunCheckpoints.ts:156-228 | one sweep discards, revives or fails exactly the stalled run, claiming it in the same mutation |
| RowByRow.SweepRowByRow | convex/agentRunCheckpoints.ts:156-228 | which of nothing, dropping, reviving and failing a sweep does to a run, if and only if, with every field |
| RunStore.Store.CancelRunByAdmin | convex/agentRuns.ts:985-1054 | accepted only while cancelable; the first 500 undecided approvals and unfinished calls are cancelled with the run, the checkpoint stays |
| Cancellation.CancelledRowByRow | convex/agentRuns.ts:985-1054 | row by row: an open request or unfinished call with fewer than 500 such before it becomes CANCELLED and keeps the rest of itself; every other row, the position and the queues stay |
| RunStore.Store.DecideApprovalByAdmin | convex/agentRunApprovals.ts:148-346 | unknown and already decided requests change nothing; otherwise the rows become what the decision says |
| RowByRow.ApprovalRowByRow | convex/agentRunApprovals.ts:204-232 | an approval makes its own call PENDING and queues one resume; the run is RUNNING exactly when nobody else is asked; every other row stays |
| RowByRow.RejectionRowByRow | convex/agentRunApprovals.ts:240-300 | a rejection answers its own call DENIED in the rejecter's words, remembers the request and queues one resume that runs nothing |
| RowByRow.CancellingDecisionRowByRow | convex/agentRunApprovals.ts:303-346 | a cancelling decision closes its own request and call, cancels the run and drops its position; every other row stays |
| RunStore.Store.GetSettlementAfterDecisionInternal | convex/agentRunApprovals.ts:710-746 | settled if and only if no approval is undecided; then all rows of the call's turn in order, at most 500 |
| RowByRow.SettlementRowByRow | convex/agentRunApprovals.ts:710-746 | settled if and only if nobody is asked; then each row of the turn stands where as many of the turn came before it, up to 500 |
| RowByRow.RowIsTold | convex/agentObjectiveLoopService.ts:98-115 | what the model is told of a row: its arguments unless they are no object, its result or that there is none |
| RunStore.Store.RecordApprovedToolResultInternal | convex/agentRunApprovals.ts:437-520 | the call's row takes the outcome, and the settlement is judged after it |
| RowByRow.ResultRowByRow | convex/agentRunApprovals.ts:437-483 | the approved call's row alone becomes SUCCESS or FAILED with the payload |
| RunStore.Store.ContinueRunAfterApprovalInternal | convex/agentRunApprovals.ts:748-788 | only a parked run resumes; otherwise nothing is written |
| RunStore.Store.SettleBatch | convex/agentObjectiveLoopService.ts:72-135 | an unsettled batch writes nothing; a settled one resumes the conversation when it can be stored, and closes the run otherwise |
| RowByRow.AnswerRowByRow | convex/agentObjectiveLoopService.ts:72-135 | acting on a settlement: nothing, the conversation with the turns that tell the batch and one continuation, or a run that is over, each if and only if, with every field |
| RunStore.Store.ExpireStalePendingApprovals | convex/agentRunApprovals.ts:592-700 | expiry closes a parked run's waiting approvals and calls, cancels it and drops its position; any other run is left alone |
| RowByRow.ExpiryRowByRow | convex/agentRunApprovals.ts:592-700 | row by row: the first 500 open requests EXPIRED, exactly the calls they are about CANCELLED, the run CANCELLED without a position |
| RowByRow.CancelledOrExpiredExactly | convex/agentRuns.ts:985-1010 | an operator can cancel exactly a run that is not over, and exactly a run PENDING_APPROVAL with somebody asked can expire |
| ObjectiveLoop.ObjectiveAction.OtherActs | convex/agentObjectiveLoop.ts:224-240 | the clock, the sweeper, an operator, an approver, an expiry or a resume action of the same run takes its step at an await exactly when the step system lets it, and the loop still agrees with the rows |
| ObjectiveLoop.ObjectiveAction.Await | convex/agentObjectiveLoopService.ts:351-395 | at an await everything the others offer is taken, in order, as far as each step may then happen; the action then goes on, or is gone, killed or failed without a checkpoint |
| ObjectiveLoop.ObjectiveAction.SaveCheckpoint | convex/agentObjectiveLoop.ts:184-222 | the position is saved exactly when the trimmed transcript can be stored; otherwise no row changes |
| ObjectiveLoop.ObjectiveAction.StopBeforeCall | convex/agentObjectiveLoop.ts:531-536 | a stopped run executes no further call of the batch; the status is left as it was found |
| ObjectiveLoop.ObjectiveAction.RunToolCall | convex/agentObjectiveLoop.ts:538-817 | each call is charged once, writes one row under the turn's index, and is queued, answered or executed as the step system says |
| ObjectiveLoop.ObjectiveAction.RunBatch | convex/agentObjectiveLoop.ts:500-892 | a turn that goes on adds to the conversation exactly the turns that tell every call, in request order, what its own moment gave - the gate's answer or the handler's; one that concludes has used up the tool budget; one that parks or stops leaves the conversation as it was; it dies only of a moment that kills it or of a malformed call |
| ObjectiveLoop.ObjectiveAction.BeginTurn | convex/agentObjectiveLoop.ts:286-311 | before a turn the action stops exactly when the run is over, and goes on exactly when it is not and no handover is due; it dies only of a moment that kills it |
| ObjectiveLoop.ObjectiveAction.ExecuteObjectiveLoop | convex/agentObjectiveLoop.ts:240-960 | from any start, with any interference of the others and of resume actions, the loop terminates having taken a valid run of the step system that ends in exactly the rows, clock and resume actions it leaves, with no action live; it dies only if a moment kills it, it throws, a call is malformed or the world ends, and lives through every moment otherwise |
| ObjectiveLoop.WhatTheLoopLeaves | convex/agentObjectiveLoop.ts:184-960 | so the rows it leaves have at most one queued successor and a paired conversation |
| ObjectiveLoop.NoContinuationBesideTheLoop | convex/agentRunCheckpoints.ts:193-208 | within the margin no continuation of the run can start beside its live action, so the interference leaves nothing out |
| StepByStep.FreshRunExactly | convex/agentRuntime.ts:334-360 | where every run begins, drill or not |
| StepByStep.OthersMayActExactly | convex/agentRunApprovals.ts:148-203 | what people, the sweeper, the scheduler and crashes may do, and when: whatever the actions at work are doing |
| StepByStep.ActionMayActExactly | convex/agentObjectiveLoop.ts:500-536 | which step an action takes next, if and only if its phase, budget and call say so |
| StepByStep.TimeMayPassExactly | convex/agentRunContinuationService.ts:28-47 | time passes exactly as far as lifetimes, handover gap and start slack allow |
| StepByStep.TopExactly | convex/agentObjectiveLoop.ts:286-311 | before a turn: about to fail, gone, saved to hand over, or thinking, each if and only if, with every field |
| StepByStep.CheckExactly | convex/agentObjectiveLoop.ts:527-536 | before a call: gone exactly when the run is over |
| StepByStep.CallExactly | convex/agentObjectiveLoop.ts:538-817 | one call: its row, its request and what is kept for the answer, with its own name, arguments, status and payload |
| StepByStep.EndExactly | convex/agentObjectiveLoop.ts:820-892 | the end of a batch: parking, failing on calls left over, or the next turn, with the turns that tell the batch |
| StepByStep.ParkExactly | convex/agentObjectiveLoop.ts:840-876 | the park leaves the position waiting, one turn further, if and only if it can be stored |
| StepByStep.GoingExactly | convex/agentObjectiveLoop.ts:893-960 | what each way of going leaves: nothing, a continuation, FAILED, or the outcome, never over CANCELLED |
| StepByStep.EntryExactly | convex/agentObjectiveLoop.ts:240-246 | the refusals and clocks an action enters the loop with |
| StepByStep.ContinuationExactly | convex/agentRuntime.ts:399-470 | a continuation does nothing, drops, fails or starts one action, each if and only if, with every field of it |
| StepByStep.ResumeExactly | convex/agentRuntime.ts:985-1104 | a resume starts its handler, answers for its refusal or does nothing, each if and only if |
| StepByStep.DyingResumeExactly | convex/agentRuntime.ts:985-1104 | a resume action that dies changes no row |
| StepByStep.HandlerExactly | convex/agentRunApprovals.ts:437-520 | a handler that ends records its result and goes on to answer exactly when nobody is asked |
| StepByStep.RecordIsTrue | convex/agentObjectiveLoop.ts:538-545 | the counts the theorems speak of move with the steps they count and with no other |
| StepByStep.NothingBeginsOnceOver | convex/agentObjectiveLoop.ts:224-240 | within the margin, while a run stays over - succeeded, failed or cancelled - no turn and no action begin and at most one call, one already past its stop check |
| LeaseExclusion.LeaseSweep | convex/agentRunCheckpoints.ts:193-208 | a checkpoint the sweeper may claim has no live action and no queued continuation |
| LeaseExclusion.LeaseStep | convex/agentRunContinuationService.ts:37-47 | every step keeps the lease: whoever holds the run is younger than its checkpoint allows |
| LeaseExclusion.ExclusiveWithinMargin | convex/agentRunContinuationService.ts:28-47 | in every reachable state live actions and queued continuations together are at most one |
| LeaseExclusion.SharedOutsideMargin | convex/agentObjectiveLoop.ts:300-306 | past the margin a concrete run ends with two holders |
| LeaseExclusion.ExclusionExactly | convex/agentRunCheckpoints.ts:156-225 | exclusion over all reachable states holds if and only if start delay plus handover gap is at most two minutes |
| TranscriptInvariant.GoodStep | convex/agentObjectiveLoop.ts:531-536 | every step keeps every conversation paired |
| TranscriptInvariant.ConversationsStayPaired | convex/agentObjectiveLoop.ts:878-892 | over any run every live and stored conversation is paired, with a clean head unless a save's trim kept only an orphan |
| RunBudgets.BudgetStep | convex/agentRunCheckpoints.ts:72-85 | every step keeps the charge accounted for by revivals spent and the current life's counter |
| RunBudgets.ToolBudgetOverAllLives | convex/agentObjectiveLoop.ts:522-525 | within the timing margin, in every reachable state no life's counter passes `maxToolCalls`; all lives charge at most one limit for the start and one a revival; the revivals are those on record plus those forgotten, so with none forgotten at most four limits |
| RunBudgets.PastFourLimitsForgets | convex/agentRunApprovals.ts:329-346 | within the margin, no run charges past four limits without being revived a fourth time and cancelled, by decision or expiry, with somebody undecided while an action or queued continuation holds a run revived before |
| RunBudgets.NothingForgotten | convex/agentRunCheckpoints.ts:72-85 | over runs without such steps nothing is ever forgotten |
| ForgottenRevivals.MoreThanFourLimits | convex/agentRunCheckpoints.ts:79-85 | a reachable run with such a step is revived four times and charges more than four limits |
| RunBudgets.TimeStep | convex/agentObjectiveLoop.ts:452-459 | every step keeps handovers within the run's clock, one per three-minute segment |
| RunBudgets.BackstopStaysOutOfReach | convex/agentRunContinuationService.ts:58-73 | within the timing margin and with at most an hour: at most 20 handovers, a segment count from 1 to 24 plus resumes and forgotten revivals, and so below the backstop of 30 while those are fewer than six |
| RunBudgets.BackstopFiresExactly | convex/agentRuntime.ts:434-437 | within the margin and an hour, a continuation that could otherwise go on is failed by the backstop only after at least six resumes or forgotten revivals, and then if and only if thirty segments are on record |
| BackstopRun.ThirtyApprovalsFail | convex/agentRuntime.ts:434-437 | a reachable run, parked and approved thirty times, is failed by it |
| ApprovalSafety.OnceStep | convex/agentRunApprovals.ts:156-232 | every step keeps each approval to one call, each resume to one decision, each handler run to one approved call |
| ApprovalSafety.ApprovedCallsRunAtMostOnce | convex/agentRuntime.ts:985-1075 | in every reachable state, any number of actions at work: resumes never exceed parking saves; a parked call's handler runs at most once and only under an APPROVED approval |
| RefusalMemory.ListOverRun | convex/agentRunApprovals.ts:275-283 | over any run the stored list is exactly that run's rejections through the bounded append |
| RefusalMemory.RefusedCallRunsNothing | convex/agentObjectiveLoop.ts:583-591 | a call on the list is answered DENIED inline: no approval, no execution, one row |
| RefusalMemory.RefusalOutlivesSegments | convex/agentObjectiveLoop.ts:242-246 | after a first rejection, every later segment treats the same request as refused until fifty further distinct refusals |
| Cancellation.LoopStartsAtMostOneCall | convex/agentObjectiveLoop.ts:527-536 | within the timing margin, while a run is cancelled and whatever cancelled it, all calls started since but one are approved ones, started by their resumes |
| CallsAfterCancel.CancelRunStopsCalls | convex/agentRuns.ts:985-1054 | within the margin, for as long as a run cancelled by `cancelRun` (at most 500 open rows of each kind) stays cancelled, at most one call of any kind starts and no approved call's handler does |
| CallsAfterCancel.CancelRunStopsCallsForGood | convex/agentRuns.ts:985-1054 | with nothing in flight at the cancellation, the same over every future |
| CallsAfterCancel.HandlerFollowsExactly | convex/agentRunApprovals.ts:303-346 | after a cancelling decision or an expiry, some schedule without a further decision starts an approved handler if and only if, before it, another approved call's row is Pending and its resume queued |
| CallsAfterCancel.HandlerStartsCancelledExactly | convex/agentRuntime.ts:985-1000 | within the margin, from any reachable CANCELLED state and with people deciding on, a handler can start with the run cancelled throughout if and only if an approved call waits, two requests are undecided, or one is and the live action may still queue another |
| CallsAfterCancel.TwoHandlersAfterCancel | convex/agentRunApprovals.ts:303-346 | a reachable run: two of three waiting calls approved, the third decision cancels, and both handlers start on the cancelled run |
| Cancellation.LeavesCancelledExactly | convex/agentRuns.ts:1166-1170 | a step takes a run out of CANCELLED if and only if it is the last pending approval or rejection, or the answer to a settled batch |
| Cancellation.CancelIsFinalExactly | convex/agentRuns.ts:985-1054 | a cancellation is final over every future if and only if no resume is running, no refusal waits to be answered and no action is past its stop check with a call it may queue |
| Cancellation.ReachableResumes | convex/agentRuntime.ts:985-1104 | the side condition of that theorem holds in every reachable state |
| RehearsalSafety.RehearsalsOnlyRead | convex/agentRuntimeService.ts:472-558 | over any whole rehearsal nothing but reads executes, nobody is asked and no approved call runs, whatever access is granted |
| RunTermination.PotentialStep | convex/agentObjectiveLoop.ts:286-311 | within the margin, every working step lowers the potential, and a decision, resume, expiry or settlement raises it by no more than what forgotten revivals give back |
| RunTermination.ProgressIsBounded | convex/agentRunCheckpoints.ts:193-220 | from any sound state, people deciding as they like, the working steps still possible are at most the potential and a life's worth for each revival forgotten on the way |
| RunTermination.EveryScheduleIsFinite | convex/agentRunContinuationService.ts:130-146 | within the margin and whatever people decide, every schedule from a fresh start takes at most (4 + revivals forgotten)·(maxSteps+1)·(2·maxToolCalls+12) working steps |
| RunTermination.RecoveredExactly | convex/agentRunCheckpoints.ts:144-228 | a run that is not over, with nothing under way and nobody asked, is ended or taken up again on some schedule without an operator if and only if it is RUNNING with an ACTIVE checkpoint |
| RunTermination.StrandedForever | convex/agentRunCheckpoints.ts:156-192 | otherwise every schedule without an operator leaves it exactly as idle |
| RunTermination.KilledBeforeFirstSave | convex/agentRunCheckpoints.ts:144-155 | a reachable run killed before its first save is RUNNING and never recovers |
| RunTermination.ResumeKilledAfterLastApproval | convex/agentRunApprovals.ts:218-223 | a reachable run whose last approval was given and whose resume was killed is RUNNING with a parked checkpoint and never recovers |
| RunTermination.AnsweredBeforeThePark | convex/agentObjectiveLoop.ts:820-876 | a reachable run answered while its batch was being written down is PENDING_APPROVAL with nobody to ask and never recovers |
| RunTermination.ClearedForGood | convex/agentRunCheckpoints.ts:96-105 | once nobody holds a run and its checkpoint is cleared, no schedule starts an action of it again |
| RunOutcome.OutcomeOfAction | convex/agentObjectiveLoop.ts:452-495 | a step of an action starts a success if and only if it is a model turn asking for nothing, in time and within budget |
| RunOutcome.AnswerLeadsExactly | convex/agentObjectiveLoop.ts:452-520 | an answer leads to a batch, a success or a failure, each if and only if: time, tokens and money left, something asked for, tool budget left |
| RunOutcome.BudgetStopIsTheEnd | convex/agentObjectiveLoop.ts:452-479 | within the margin, after an answer that finds a budget spent the loop starts no call of the run again, and unless killed or throwing the action is not gone before it has written FAILED or found the run CANCELLED |
| RunOutcome.OutcomeOfOther | convex/agentRunApprovals.ts:790-832 | any other step does if and only if it closes a settled batch whose last call succeeded and which no stored conversation can take |
| RunOutcome.ApprovalClosesTriggeredRun | convex/agentRunApprovals.ts:790-832 | a reachable run without a thread ends in SUCCESS on its one approval, its conversation still empty |
| RunOutcome.SuccessIsEarned | convex/agentObjectiveLoop.ts:886-953 | no run is a success unless one of those two happened in it: no crash, sweep, budget stop or cancellation makes one |
| RunOutcome.ResumedInTimeExactly | convex/agentObjectiveLoop.ts:452-459 | a run waiting only for its continuation can still succeed, on some schedule and with some replies, if and only if the time since it started is inside its limit, a step is left and the continuation would be taken up |
| RunOutcome.AnsweredInTimeExactly | convex/agentRuntime.ts:466-469 | when a settled batch resumes the run, it can still succeed if and only if that moment is inside the runtime limit counted from the start of the run (and steps and segments are left) |
| Parking.SettlementIsTheBatch | convex/agentRunApprovals.ts:490-519 | the settlement hands back exactly the parked turn's rows in request order |
| Parking.SettlementIsExactly | convex/agentRunApprovals.ts:499-508 | that is so if and only if no earlier row of the run carries the same turn index |
| TurnBegunTwice.BothAttemptsAnswered | convex/agentRunApprovals.ts:499-508 | a reachable run: killed after one answered call of a turn, revived, parked on its one call and approved, settles with both attempts' rows |
| Parking.ReviewKeeps | convex/agentRunApprovals.ts:148-346 | under any interleaving of time, sweeps, decisions, resumes, handlers and their crashes a parked batch of any size keeps its shape: only the row concerned changes, and the position, the actions and the queue of continuations stay |
| Parking.HandlerSettlesExactly | convex/agentRunApprovals.ts:437-520 | a handler's result settles the batch exactly when nobody is undecided, hands back the batch as it stands, and misses a result exactly when another approved call has none yet |
| Parking.RefusalSettlesExactly | convex/agentRunApprovals.ts:710-746 | so does the resume of a refusal |
| Parking.LosesAResultExactly | convex/agentRunApprovals.ts:490-497 | some schedule after the last decision makes a settlement miss a result if and only if, before it, another approved call's row is Pending, or it is an approval with a refusal still queued |
| Parking.SecondSettlementEndsTheRun | convex/agentObjectiveLoopService.ts:98-135 | a settlement acted on when the run no longer waits gives it a final status and schedules nothing |
| Parking.NeverStuck | convex/agentRunApprovals.ts:204-232 | until the batch is answered a decision, resume, result or answer is always possible |
| Parking.AnyOrderGivesTheSameTurns | convex/agentRunApprovals.ts:490-519 | decided in any order, each carried through before the next, with any delays and sweeps between: the stored conversation is the parked one plus one model turn and one function turn that tell every call, in request order, its own result - recorded before, its approved handler's, or who refused it and why; one continuation is scheduled and nothing is left waiting |
| BatchToPark.BatchGrows | convex/agentObjectiveLoop.ts:593-817 | each call of a batch adds one row, with its result, or open with one approval |
| BatchToPark.EachBatchIsClean | convex/agentObjectiveLoop.ts:500-536 | in every orderly run from a fresh start each batch begins with no row of its turn and nobody asked, and at every point of it the run's last rows are exactly its calls so far, in order |
| BatchToPark.DeferredBatchEndsWaiting | convex/agentObjectiveLoop.ts:820-830 | so every orderly run brings its deferred batches to the state the next two theorems start from |
| BatchToPark.BatchParks | convex/agentObjectiveLoop.ts:820-876 | a batch with something deferred parks, after any delay, in exactly the state approvers start from, with its position and counters saved |
| BatchToPark.ParkedEqualsInline | convex/agentObjectiveLoop.ts:820-892 | parking, waiting and deciding in any order leaves the checkpoint - position, counters, revivals, conversation - that ending the same batch inline would have saved, only later, if and only if the park's trim did not keep just an orphaned result that still fits |
| EarlyDecision.GoesOnWithSomebodyUndecided | convex/agentRunApprovals.ts:490-497 | a run without crash or cancellation, one call decided before the park, begins its next batch with another call undecided and missing from the conversation |
| MissingCall.LeavesOutExactly | convex/agentObjectiveLoop.ts:518-876 | within the margin, with an action in its batch and this request of it the last one open: some schedule without crash or cancellation after the decision parks the run on a settlement that leaves out a call of the batch if and only if, before it, a call is still to be written down (or an earlier settlement is short already) and no malformed one stops the batch |
| MissingCall.ShortAnswerLeavesOut | convex/agentObjectiveLoopService.ts:86-135 | acting on such a settlement stores the parked conversation with the shorter batch alone and goes on, or closes the run |
| MemoryOutcomes.MemoryLedger.RecordUsageInternal | convex/agentMemories.ts:387-426 | one row per run and memory; a memory consulted again keeps its outcome, and no counter moves |
| MemoryOutcomes.MemoryLedger.UpdateMemoryUsageOutcomeForRun | convex/agentRunStateService.ts:96-162 | the first 500 rows of the run take the status and every counter equals the recount again; a rehearsal changes nothing |
| MemoryOutcomes.MemoryLedger.GroupByMemory | convex/agentRunStateService.ts:132-137 | the map groups exactly the rows of each memory, in order |
| MemoryOutcomes.MemoryLedger.CountOutcome | convex/agentRunStateService.ts:139-154 | the previous outcome is taken back exactly, the floor at zero never bites |
| MemoryOutcomes.RowsTellTheLog | convex/agentRunStateService.ts:96-162 | after any history the rows are exactly the pairs consulted, each with the run's last outcome since, within the first 500 of its run |
| MemoryOutcomes.CountersAreTheRuns | convex/agentRunStateService.ts:114-126 | a counter is the number of distinct non-rehearsal runs whose last ending is that status, if and only if all of them are within the query limit; it never exceeds it |
| MemoryOutcomes.MissedByItsRun | convex/agentRunStateService.ts:114-126 | a run that consults 501 memories and succeeds is counted by the 500th and not by the last |
| MemoryOutcomes.OrderOfRunsIsIrrelevant | convex/agentRunStateService.ts:114-126 | however endings of different runs interleave, the same runs are counted |
| MemoryOutcomes.LastEndingDecides | convex/agentRunStateService.ts:122-126 | a run that ends twice counts for its last ending alone |
| RateLimiter.BoundedReadDecides | convex/aiActionRequests.ts:24-34 | reading the newest `limit` rows refuses exactly when counting them all would |
| RateLimiter.ActionRequests.Reserve | convex/aiActionRequests.ts:22-42 | admitted if and only if the full count in the window is under the limit; a refusal inserts nothing |
| RateLimiter.EveryWindowIsBounded | convex/aiActionRequestService.ts:3-12 | with window and limit unchanged, no window of the limiter's length ever holds more than the limit, on any clock, even one that runs backwards |
| RateLimiter.RefusalsAreJustified | convex/aiActionRequestService.ts:3-12 | every refusal finds the window before it full |
| RateLimiter.SecondRequest | convex/aiActionRequestService.ts:7-9 | the window is half open: exactly one window later is late enough, and no sooner |
| ModelCost.InputIsNeverFree | convex/aiCostService.ts:42-69 | with a positive below-200k rate, positive input costs something in either tier however much was cached |
| ModelCost.CostIsTheBill | convex/aiCostService.ts:42-81 | a millionth of fresh input, cached input and output at the rate each tier charges, fallbacks included; nothing without rates |
| ModelCost.NonsenseIsNothing | convex/aiCostService.ts:60-75 | counts below zero count for nothing and no more is cached than was read |
| ModelCost.StopsAtTheCeiling | convex/agentObjectiveLoop.ts:472-479 | the ceiling itself stops a run and anything short of it does not |
| ModelCost.ForgettingOverstatesExactly | convex/aiCostService.ts:60-81 | counting less of the input as cached never lowers the figure, if and only if the cached rate in force is no dearer or the share forgotten is nothing |
| ModelCost.SpendIsNeverUnderstated | convex/agentRuntime.ts:461-464 | over all runs, wherever no turn has been lost to a crash, the compared figure is at least the true one if and only if neither tier prices cached input above fresh |
| ModelCost.NeverBelowTheTruth | convex/agentObjectiveLoop.ts:416-479 | so while no turn is lost the cost stop fires no later than it should |
| ModelCost.CrashesHideSpendExactly | convex/agentObjectiveLoop.ts:195-213 | with crashes some run spends more than its figure shows if and only if the model costs anything at all |
| ModelCost.CrashesHideAtMostALifeEach | convex/agentRuntime.ts:452-465 | the true spend is at most the greatest figure ever shown, times the factor between tiers, for each life: four times with three crashes |
| RunLimits.LimitsAreWorkable | convex/agentRuntimeService.ts:199-236 | every limit is within its ceiling, and at least one exactly when the override is not a fraction below one |
| RunLimits.OverridesAreHonoured | convex/agentRuntimeService.ts:113-240 | each limit, priced and unpriced: the override as the greatest whole number within it and the ceiling (money as it stands), or the default without a usable one; on an unpriced model only a lower budget counts |
| RunLimits.LimitsGrow | convex/agentRuntimeService.ts:199-240 | no limit falls when its override rises |
| RunLimits.StoredOverrides | convex/agentRuntimeService.ts:165-184 | what is stored for each field is what it comes to, and nothing unusable is stored |
| RunLimits.LimitsFitTheProtocol | convex/agentRuntimeService.ts:83-110 | a batch never outgrows a settlement query and no run gets more than an hour, as the protocol's theorems ask |
| RunLimits.StoredRecordSaysWhatRuns | convex/agentRuntimeService.ts:165-184 | clamping on the way in and resolving later equals resolving directly, if and only if no count in play is a fraction below one |
| VersionStore.HashString | convex/agentVersioningService.ts:11-18 | despite signed 32-bit wrapping at every turn, the loop computes 5381·33^n + Σ cᵢ·33^(n−1−i) modulo 2^32 |
| VersionStore.HashOfKnown | convex/agentVersioningService.ts:11-18 | known values of the hash |
| VersionStore.CollidingSnapshots | convex/agentVersioningService.ts:11-18 | two adjacent code units can be exchanged for others of equal weight anywhere without changing the hash |
| VersionStore.Versions.EnsureAgentVersionSnapshot | convex/agentVersioningService.ts:205-232 | the id returned is the agent's first version with the snapshot's hash, inserted with the next number only if there was none |
| VersionStore.NumberingHoldsExactly | convex/agentVersioningService.ts:211-219 | one more version keeps the numbering 1 to n if and only if the version made last is also the newest |
| VersionStore.VersionsAreNumbered | convex/agentVersioningService.ts:205-232 | on a clock that never runs backwards each agent's versions are numbered 1 to n with distinct hashes, over any history |
| VersionStore.EarlierVersionIsFoundAgain | convex/agentVersioningService.ts:205-209 | returning to an earlier snapshot after anything else finds its original version and adds none |
| VersionStore.SnapshotIsFaithfulExactly | convex/agentVersioningService.ts:205-209 | the version returned holds the snapshot asked for if and only if no different snapshot with the same hash came first |
| LogGrouping.GroupLogsByRun | convex/agentLogGroupingService.ts:68-104 | the map-and-list loop computes the groups the lemmas below describe |
| LogGrouping.SortIsStable | convex/agentLogGroupingService.ts:98-103 | sorting orders, keeps every element as often, and keeps the order of equal keys |
| LogGrouping.GroupingIsAPartition | convex/agentLogGroupingService.ts:60-67 | the groups together hold exactly the entries given, each as often |
| LogGrouping.GroupsAreTheJobs | convex/agentLogGroupingService.ts:60-104 | newest job first; entries ascend in time and `startedAt` and `lastAt` are the first and last; each run some entry names, the empty name aside, has one group with all its entries, each entry without a run one of its own |

## Left out

- Steps of the loop: one event covers a read and the write a few lines after it in the same action; a crash or another action strictly between the two (for example between inserting a gated call and its approval) is not a separate state.
- Timeline rows, step indices, audit rows, notifications, messages, streaming, prompt caches and retrieval: plumbing around the protocol, with no effect on it.
- Token and cost totals inside the step system: a model turn carries an arbitrary "over budget" answer; `ModelCost` treats the figures themselves, over reals instead of floating point.
- Wording: refusals, denials and errors are a datatype, not sentences, and denial reasons are not matched as text.
- JSON text: values are trees, an object's members keep the order they were written in, and transcript sizes follow the shape of the serialised form without escapes. JavaScript's reordering of integer-like keys is not modelled.
- Refusal keys across tools: a key is the tool's name and the canonical arguments as a pair, not one concatenated string.
- Approval expiry windows: a parked run with an undecided approval may expire at any moment; the hours are configuration.
- Sweeps over several runs: one run at a time, so the limits of 25 stalled runs and 100 expired approvals per sweep do not appear.
- The closing log entry and ledger row: an exception while writing them would mark a finished run FAILED, which no event does.
- The run row being deleted: a run exists throughout.
- `reactivateCheckpointInternal`: nothing calls it.
- Historical replay, workflow nodes, and what an action does before it first enters the loop: single-shot paths outside the protocol.
- The memory counters' place in the protocol: each terminal status write also stamps them; `MemoryOutcomes` takes the writes of any run in any order instead.
- Failure-key counts in the log screen: a single map increment.
- A second action of the same run beside the loop: `ObjectiveLoop` lets everything else act at each await, resume actions included; that no continuation can start there is `NoContinuationBesideTheLoop`, within the timing margin.
- Other runs of the same agent: they share no row of this run.
- ExclusiveWithinMargin: the ten-minute action lifetime is assumed of the platform, as the source says.
- ToolBudgetOverAllLives: assumes, as the source does, that limits stay the same across segments.
- EachBatchIsClean: orderly runs are those without crash, cancellation or expiry, whose decisions are each taken while nothing else is under way and whose conversation can be stored where it parks. `LeavesOutExactly` says what an earlier decision risks; after a crash a turn begun twice leaves the earlier attempt's rows under the same index (`SettlementIsExactly`); a park that could not be stored leaves an older position behind, which the sweeper may revive into the same turn.
- AnyOrderGivesTheSameTurns: decisions are carried through one at a time; `LosesAResultExactly` says what happens otherwise.
- ParkedEqualsInline: for a batch that the tool budget cut short the two differ, as its ensures says: inline the run ends, parked it goes on.
- LeavesOutExactly: for a conversation that can be stored where it parks and a turn of at most 500 rows, so for one begun once under the platform's ceilings.
- CancelRunStopsCalls: one cancellation reaches 500 open rows of each kind; a run with more keeps the rest.
- CrashesHideAtMostALifeEach: asks for prices that are not negative and a cached share within the input, as providers report it.
- SnapshotIsFaithfulExactly: the snapshot is a string of code units; how it is assembled from the agent's configuration is not modelled.
