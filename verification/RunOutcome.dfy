/** What it takes for a run to end in SUCCESS: an answer from the model, or an approved call
    that had no conversation to return to; and when no answer can bring one any more
    (convex/agentObjectiveLoop.ts:452-495 and 886-953, convex/agentRunApprovals.ts:790-841,
    convex/agentRuntime.ts:425-470). */
module RunOutcome {
  import opened Common
  import opened ToolGate
  import opened Transcript
  import opened RunRecords
  import opened RunProtocol
  import RunTermination
  import CallsAfterCancel
  import LeaseExclusion

  /** The run is marked SUCCESS, or a live action is about to mark it so. */
  predicate Succeeding(s: Sys) {
    s.db.run.status == RunSuccess
    || exists i :: 0 <= i < |s.execs| && s.execs[i].phase.Finishing? && s.execs[i].phase.outcome == RunSuccess
  }

  /** A model turn that asks for nothing, in time and within its budgets. */
  predicate IsAnswer(c: Config, s: Sys, e: Event) {
    e.ModelTurn? && e.i < |s.execs| && e.calls == [] && !e.overBudget && s.now - s.execs[e.i].clockFrom < c.maxRuntimeMs
  }

  /** The last answer of a settled batch that no stored conversation can take. */
  predicate ClosesWell(c: Config, s: Sys, e: Event) {
    e.Settle? && e.k < |s.jobs| && s.jobs[e.k].Settling?
    && s.jobs[e.k].settlement.settled && s.jobs[e.k].succeeded
    && SettledTranscript(s.db, s.jobs[e.k].settlement.batch, c.cap).None?
  }

  // ------------------------------------------------------------------ one model turn

  /** Time, tokens or money are spent when the answer comes. */
  predicate Overspent(c: Config, s: Sys, i: nat, overBudget: bool)
    requires i < |s.execs|
  {
    overBudget || s.now - s.execs[i].clockFrom >= c.maxRuntimeMs
  }

  /**
   * What an answer leads to: a batch, from its first call, exactly when nothing is spent, something is
   * asked for and tool budget is left; a success exactly when nothing is spent or asked for; a failure
   * in every other case. Nothing else of the run changes.
   */
  lemma AnswerLeadsExactly(c: Config, s: Sys, i: nat, calls: seq<Call>, overBudget: bool)
    requires Enabled(c, s, ModelTurn(i, calls, overBudget))
    ensures var s', spent := Apply(c, s, ModelTurn(i, calls, overBudget)), Overspent(c, s, i, overBudget);
            var e, e' := s.execs[i], s'.execs[i];
            && s' == s.(execs := s.execs[i := e.(phase := e'.phase)])
            && (e'.phase == Batch(calls, 0, false, [], 0) <==> !spent && calls != [] && e.toolCallCount < c.maxToolCalls)
            && (e'.phase == Finishing(RunSuccess) <==> !spent && calls == [])
            && (e'.phase == Finishing(RunFailed) <==> spent || (calls != [] && e.toolCallCount >= c.maxToolCalls))
  {
  }

  /** One action is about to fail the run, or has done with it and left nothing to take up. */
  predicate Failing(s: Sys) {
    && s.db.continuations == []
    && if s.execs == [] then s.db.checkpoint == None
       else |s.execs| == 1 && (s.execs[0].phase == Finishing(RunFailed) || s.execs[0].phase == Clearing)
  }

  /** The status it writes: FAILED, unless the run is found cancelled. */
  predicate WritesFailure(c: Config, s: Sys, e: Event)
    requires Enabled(c, s, e)
  {
    e.WriteFinal? && Apply(c, s, e).db.run.status == if s.db.run.status == RunCancelled then RunCancelled else RunFailed
  }

  ghost predicate FailureWritten(c: Config, s: Sys, run: seq<Event>)
    requires Valid(c, s, run)
    decreases |run|
  {
    run != [] && (WritesFailure(c, s, run[0]) || FailureWritten(c, Apply(c, s, run[0]), run[1..]))
  }

  lemma FailingStep(c: Config, s: Sys, e: Event)
    requires LeaseExclusion.MarginHolds(c) && LeaseExclusion.Lease(c, s) && Failing(s) && Enabled(c, s, e) && !e.Kill? && !e.Throw?
    ensures Failing(Apply(c, s, e)) && Apply(c, s, e).hist.charged == s.hist.charged
    ensures s.execs != [] && s.execs[0].phase.Finishing? ==>
              || WritesFailure(c, s, e)
              || (Apply(c, s, e).execs != [] && Apply(c, s, e).execs[0].phase.Finishing?)
  {
    hide Trim, Chars, LeftOrphan, TopStep, ModelTurnStep, CheckStopStep, RunCallStep, EndBatchStep, ParkSaveStep, GetSettlement, CallsOfRows,
         BuildToolInteractionTurns, ApproveCall, RejectCall, PatchCall, CancelWaiting, CloseApprovals, RowsOfTurn, TakeRows;
    if e.Sweep? {
      LeaseExclusion.LeaseSweep(c, s);
    }
    if OfAction(e) {
      assert s.execs == [s.execs[0]] && Remove(s.execs, 0) == [];
    }
  }

  lemma {:induction false} FailingToTheEnd(c: Config, s: Sys, run: seq<Event>)
    requires LeaseExclusion.MarginHolds(c) && LeaseExclusion.Lease(c, s) && Failing(s) && Valid(c, s, run)
    requires forall k :: 0 <= k < |run| ==> !run[k].Kill? && !run[k].Throw?
    ensures Failing(Replay(c, s, run)) && Replay(c, s, run).hist.charged == s.hist.charged
    ensures s.execs != [] && s.execs[0].phase.Finishing? && Replay(c, s, run).execs == [] ==> FailureWritten(c, s, run)
    decreases |run|
  {
    hide LeaseExclusion.Lease, Failing, WritesFailure, Apply, Enabled;
    if run != [] {
      FailingStep(c, s, run[0]);
      LeaseExclusion.LeaseStep(c, s, run[0]);
      FailingToTheEnd(c, Apply(c, s, run[0]), run[1..]);
    }
  }

  /**
   * A budget stop is the end: once an answer finds time, tokens or money spent - or asks for more with the
   * tool budget gone - the loop starts no call of the run again, whatever the answer asked for and whatever
   * anyone does; and when the action is gone it has written FAILED, or found the run CANCELLED.
   */
  lemma BudgetStopIsTheEnd(c: Config, s: Sys, calls: seq<Call>, overBudget: bool, run: seq<Event>)
    requires LeaseExclusion.MarginHolds(c) && Reachable(c, s) && Enabled(c, s, ModelTurn(0, calls, overBudget))
    requires Overspent(c, s, 0, overBudget) || (calls != [] && s.execs[0].toolCallCount >= c.maxToolCalls)
    requires Valid(c, Apply(c, s, ModelTurn(0, calls, overBudget)), run) && forall k :: 0 <= k < |run| ==> !run[k].Kill? && !run[k].Throw?
    ensures var s' := Apply(c, s, ModelTurn(0, calls, overBudget));
            && Replay(c, s', run).hist.charged == s.hist.charged
            && (Replay(c, s', run).execs == [] ==> FailureWritten(c, s', run))
  {
    hide Valid, Replay, FailureWritten, LeaseExclusion.Lease, Apply;
    var s' := Apply(c, s, ModelTurn(0, calls, overBudget));
    AnswerLeadsExactly(c, s, 0, calls, overBudget);
    CallsAfterCancel.LeaseHolds(c, s);
    LeaseExclusion.LeaseStep(c, s, ModelTurn(0, calls, overBudget));
    OneHolder(c, s');
    FailingToTheEnd(c, s', run);
  }

  lemma OneHolder(c: Config, s: Sys)
    requires LeaseExclusion.Lease(c, s) && s.execs != []
    ensures |s.execs| == 1 && s.db.continuations == []
  {
  }

  lemma OutcomeOfAction(c: Config, s: Sys, e: Event)
    requires !Succeeding(s) && Enabled(c, s, e) && OfAction(e)
    ensures Succeeding(Apply(c, s, e)) <==> IsAnswer(c, s, e)
  {
    hide FateOf, Trim, Chars, LeftOrphan, BuildToolInteractionTurns, StartContinuationStep, StartResumeStep, FinishHandlerStep,
         SettleStep, RecoverStalledRun, CancelRun, DecideApproval, ExpireApprovals;
    var s' := Apply(c, s, e);
    if e.ModelTurn? {
      assert s'.execs[e.i].phase.Finishing? && s'.execs[e.i].phase.outcome == RunSuccess <==> IsAnswer(c, s, e);
    }
  }

  lemma OutcomeOfOther(c: Config, s: Sys, e: Event)
    requires !Succeeding(s) && Enabled(c, s, e) && !OfAction(e)
    ensures Succeeding(Apply(c, s, e)) <==> ClosesWell(c, s, e)
  {
    hide CloseApprovals, CancelCalls, CancelWaiting, Trim, Chars, LeftOrphan, CallsOfRows, BuildToolInteractionTurns, RowsOfTurn,
         TakeRows, PatchCall, RememberRefusal, TopStep, RunCallStep, EndBatchStep, ParkSaveStep, SettledTranscript;
  }

  /** A run with no conversation to return to, parked on one call: its approval ends it in SUCCESS, and
      no conversation holds the call or its result. */
  lemma ApprovalClosesTriggeredRun(c: Config) returns (s: Sys, end: Sys)
    requires RunTermination.OneCallFits(c) && !c.threaded
    ensures Reachable(c, s) && s.jobs != [] && ClosesWell(c, s, Settle(0)) && Enabled(c, s, Settle(0))
    ensures end == Apply(c, s, Settle(0)) && Reachable(c, end) && end.db.run.status == RunSuccess
    ensures end.db.checkpoint == s.db.checkpoint && end.db.checkpoint.Some? && end.db.checkpoint.value.transcript == [] && |end.db.toolCalls| == 1
    ensures end.execs == [] && end.db.continuations == []
  {
    hide Trim, Chars, RowsOfTurn, TakeRows, BuildToolInteractionTurns, CallsOfRows;
    s := RunTermination.OneCallQueued(c);
    s := RunTermination.OneCallParks(c, s);
    s := RunTermination.ApprovedAndStarted(c, s);
    s := StepIsReachable(c, s, FinishHandler(0, true, RehearsedPayload));
    assert s.jobs[0].Settling? && s.jobs[0].settlement.settled;
    end := StepIsReachable(c, s, Settle(0));
  }

  ghost predicate Earned(c: Config, s: Sys, run: seq<Event>)
    requires Valid(c, s, run)
    decreases |run|
  {
    run != [] && (IsAnswer(c, s, run[0]) || ClosesWell(c, s, run[0]) || Earned(c, Apply(c, s, run[0]), run[1..]))
  }

  /** No run is a success unless somewhere in it the model answered, in time and within budget,
      or an approved call closed it: no crash, sweep, budget stop or cancellation makes one. */
  lemma {:induction false} SuccessIsEarned(c: Config, s: Sys, run: seq<Event>)
    requires !Succeeding(s) && Valid(c, s, run) && Succeeding(Replay(c, s, run))
    ensures Earned(c, s, run)
    decreases |run|
  {
    hide Succeeding, Apply, Enabled, IsAnswer, ClosesWell;
    if run != [] {
      if OfAction(run[0]) {
        OutcomeOfAction(c, s, run[0]);
      } else {
        OutcomeOfOther(c, s, run[0]);
      }
      if !Succeeding(Apply(c, s, run[0])) {
        SuccessIsEarned(c, Apply(c, s, run[0]), run[1..]);
      }
    }
  }

  // ------------------------------------------------------------------ answered too late

  /** Nothing of the run is left but a continuation waiting to go on from the saved position. */
  predicate Resumed(s: Sys) {
    && s.execs == [] && s.jobs == [] && s.db.resumes == [] && !StillPending(s.db.approvals)
    && s.db.continuations != [] && s.db.run.status == RunRunning
    && s.db.checkpoint.Some? && s.db.checkpoint.value.status == Active && s.db.checkpoint.value.segmentCount >= 1
  }

  /** Some schedule, whatever the model replies, ends the run well. */
  ghost predicate MaySucceed(c: Config, s: Sys) {
    exists run :: Valid(c, s, run) && Succeeding(Replay(c, s, run))
  }

  /** The continuation would be allowed to go on at all. */
  predicate TakesUp(k: Checkpoint) { k.segmentCount < AGENT_RUN_MAX_SEGMENTS && k.transcript != [] }

  /** A later segment, still on the run's own clock, with no batch in hand and no success to write. */
  predicate OnRunsClock(s: Sys, e: Exec) {
    && e.segmentCount > 1 && e.clockFrom == s.db.run.startedAt
    && match e.phase
       case Batch(_, _, _, _, _) => false
       case Parking => false
       case Finishing(outcome) => outcome == RunFailed
       case _ => true
  }

  predicate OutOfTime(c: Config, s: Sys) { s.now - s.db.run.startedAt >= c.maxRuntimeMs }

  predicate OutOfSteps(c: Config, s: Sys) {
    && (forall i :: 0 <= i < |s.execs| ==> s.execs[i].loopIndex >= c.maxSteps && !s.execs[i].phase.Thinking?)
    && (s.db.checkpoint.Some? ==> s.db.checkpoint.value.loopIndex >= c.maxSteps)
  }

  predicate NotTakenUp(s: Sys) {
    s.execs == [] && (s.db.checkpoint.Some? ==> !TakesUp(s.db.checkpoint.value))
  }

  predicate Hopeless(c: Config, s: Sys) {
    && s.jobs == [] && s.db.resumes == [] && !StillPending(s.db.approvals) && s.db.run.status != RunSuccess
    && (forall i :: 0 <= i < |s.execs| ==> OnRunsClock(s, s.execs[i]))
    && (s.db.checkpoint.Some? ==> s.db.checkpoint.value.segmentCount >= 1)
    && (OutOfTime(c, s) || OutOfSteps(c, s) || NotTakenUp(s))
  }

  lemma HopelessTop(c: Config, s: Sys, i: nat)
    requires Hopeless(c, s) && Enabled(c, s, LoopTop(i))
    ensures Hopeless(c, TopStep(c, s, i))
  {
    hide Trim, Chars, LeftOrphan;
  }

  /** An action goes, leaving the position as it is or deleting it. */
  lemma HopelessLeave(c: Config, s: Sys, i: nat, db: Db)
    requires Hopeless(c, s) && i < |s.execs|
    requires db.run.status != RunSuccess && db.run.startedAt == s.db.run.startedAt && db.approvals == s.db.approvals
    requires db.resumes == s.db.resumes && (db.checkpoint == s.db.checkpoint || db.checkpoint.None?)
    ensures Hopeless(c, s.(execs := Remove(s.execs, i), db := db))
  {
    var s' := s.(execs := Remove(s.execs, i), db := db);
    assert forall j :: 0 <= j < |s'.execs| ==> s'.execs[j] == s.execs[if j < i then j else j + 1];
  }

  lemma HopelessHandover(c: Config, s: Sys, i: nat)
    requires Hopeless(c, s) && Enabled(c, s, ScheduleHandover(i))
    ensures Hopeless(c, Apply(c, s, ScheduleHandover(i)))
  {
    HopelessLeave(c, s, i, s.db.(continuations := s.db.continuations + [s.now]));
  }

  lemma HopelessEntry(c: Config, s: Sys, i: nat)
    requires Hopeless(c, s) && Enabled(c, s, EnterLoop(i))
    ensures Hopeless(c, Apply(c, s, EnterLoop(i)))
  {
  }

  lemma HopelessFinal(c: Config, s: Sys, i: nat)
    requires Hopeless(c, s) && Enabled(c, s, WriteFinal(i))
    ensures Hopeless(c, Apply(c, s, WriteFinal(i)))
  {
  }

  lemma HopelessTurn(c: Config, s: Sys, i: nat, calls: seq<Call>, overBudget: bool)
    requires Hopeless(c, s) && Enabled(c, s, ModelTurn(i, calls, overBudget))
    ensures Hopeless(c, ModelTurnStep(c, s, i, calls, overBudget))
  {
  }

  lemma HopelessAction(c: Config, s: Sys, e: Event)
    requires Hopeless(c, s) && Enabled(c, s, e) && OfAction(e)
    ensures Hopeless(c, Apply(c, s, e))
  {
    hide Trim, Chars, LeftOrphan, TopStep, ModelTurnStep, RunCallStep, EndBatchStep, ParkSaveStep, CheckStopStep, StartContinuationStep, StartResumeStep,
         FinishHandlerStep, SettleStep, RecoverStalledRun, CancelRun, DecideApproval, ExpireApprovals;
    match e {
      case LoopTop(i) => HopelessTop(c, s, i);
      case Kill(i) => HopelessLeave(c, s, i, s.db);
      case Throw(i) => HopelessLeave(c, s, i, FailAndClear(s.db));
      case ClearFinal(i) => HopelessLeave(c, s, i, ClearCheckpoint(s.db));
      case ScheduleHandover(i) => HopelessHandover(c, s, i);
      case EnterLoop(i) => HopelessEntry(c, s, i);
      case WriteFinal(i) => HopelessFinal(c, s, i);
      case ModelTurn(i, calls, overBudget) => HopelessTurn(c, s, i, calls, overBudget);
    }
  }

  lemma HopelessSweep(c: Config, s: Sys)
    requires Hopeless(c, s)
    ensures Hopeless(c, Apply(c, s, Sweep))
  {
    hide Chars;
  }

  lemma HopelessStart(c: Config, s: Sys, k: nat)
    requires Hopeless(c, s) && k < |s.db.continuations|
    ensures Hopeless(c, StartContinuationStep(s, k))
  {
  }

  lemma HopelessCancel(c: Config, s: Sys)
    requires Hopeless(c, s) && IsCancelable(s.db.run.status)
    ensures Hopeless(c, Apply(c, s, Cancel))
  {
  }

  /** With nobody undecided, nothing queued and nothing running, no approver's step is possible. */
  lemma HopelessStep(c: Config, s: Sys, e: Event)
    requires Hopeless(c, s) && Enabled(c, s, e)
    ensures Hopeless(c, Apply(c, s, e))
  {
    hide TopStep, StartContinuationStep, RecoverStalledRun, CancelRun, DecideApproval, ExpireApprovals, StartResumeStep, FinishHandlerStep, SettleStep;
    if OfAction(e) {
      HopelessAction(c, s, e);
    } else {
      match e {
        case Sweep => HopelessSweep(c, s);
        case StartContinuation(k) => HopelessStart(c, s, k);
        case Cancel => HopelessCancel(c, s);
        case Tick(_) =>
        case _ =>
      }
    }
  }

  lemma {:induction false} HopelessForEver(c: Config, s: Sys, run: seq<Event>)
    requires Hopeless(c, s) && Valid(c, s, run)
    ensures !Succeeding(Replay(c, s, run))
    decreases |run|
  {
    hide Apply, Enabled;
    if run != [] {
      hide Hopeless, Succeeding;
      HopelessStep(c, s, run[0]);
      HopelessForEver(c, Apply(c, s, run[0]), run[1..]);
    }
  }

  /** In time and with a step left, the model's next answer ends the run well. */
  lemma AnswerAtOnce(c: Config, s: Sys)
    requires Resumed(s) && TakesUp(s.db.checkpoint.value) && !OutOfTime(c, s) && s.db.checkpoint.value.loopIndex < c.maxSteps
    ensures MaySucceed(c, s)
  {
    hide Trim, Chars, LeftOrphan, CheckStopStep, RunCallStep, EndBatchStep, ParkSaveStep, StartResumeStep, FinishHandlerStep,
         SettleStep, RecoverStalledRun, CancelRun, DecideApproval, ExpireApprovals;
    var s1 := Apply(c, s, StartContinuation(0));
    var s2 := Apply(c, s1, EnterLoop(0));
    var s3 := Apply(c, s2, LoopTop(0));
    var run := [StartContinuation(0), EnterLoop(0), LoopTop(0), ModelTurn(0, [], false)];
    assert run[1..] == [EnterLoop(0), LoopTop(0), ModelTurn(0, [], false)];
    assert run[2..] == [LoopTop(0), ModelTurn(0, [], false)];
    var s4 := Apply(c, s3, ModelTurn(0, [], false));
    assert s4.execs[0].phase == Finishing(RunSuccess);
    assert Valid(c, s4, []) && Replay(c, s4, []) == s4;
    assert Valid(c, s, run) && Replay(c, s, run) == s4;
  }

  /**
   * A run that waits only for its continuation can still succeed if and only if, at this moment, its
   * whole clock is inside its limit, it has a step left, and the continuation would be taken up.
   * Past any of these nothing helps: no reply of the model, no crash, revival or further handover.
   */
  lemma ResumedInTimeExactly(c: Config, s: Sys)
    requires Resumed(s)
    ensures MaySucceed(c, s) <==>
              !OutOfTime(c, s) && s.db.checkpoint.value.loopIndex < c.maxSteps && TakesUp(s.db.checkpoint.value)
  {
    if !OutOfTime(c, s) && s.db.checkpoint.value.loopIndex < c.maxSteps && TakesUp(s.db.checkpoint.value) {
      AnswerAtOnce(c, s);
    } else {
      forall run | Valid(c, s, run)
        ensures !Succeeding(Replay(c, s, run))
      {
        HopelessForEver(c, s, run);
      }
    }
  }

  /**
   * Waiting for people counts: when the answer that settles the batch comes, and nothing else of the
   * run is under way, the run can still succeed if and only if it comes inside the run's whole
   * runtime limit (and steps and segments are left). Answered later, it can only fail or be cancelled.
   */
  lemma AnsweredInTimeExactly(c: Config, s: Sys)
    requires s.execs == [] && s.db.resumes == [] && s.db.continuations == [] && !StillPending(s.db.approvals)
    requires |s.jobs| == 1 && s.jobs[0].Settling? && s.jobs[0].settlement.settled
    requires SettledTranscript(s.db, s.jobs[0].settlement.batch, c.cap).Some? && s.db.checkpoint.value.segmentCount >= 1
    ensures MaySucceed(c, Apply(c, s, Settle(0))) <==>
              && s.now < s.db.run.startedAt + c.maxRuntimeMs
              && s.db.checkpoint.value.loopIndex < c.maxSteps && s.db.checkpoint.value.segmentCount < AGENT_RUN_MAX_SEGMENTS
  {
    hide Chars, LeftOrphan, CallsOfRows, BuildToolInteractionTurns, MaySucceed;
    assert Remove(s.jobs, 0) == [];
    ResumedInTimeExactly(c, Apply(c, s, Settle(0)));
  }
}
