/** Budgets that outlive the action enforcing them: tool calls across every life of a run,
    and the number of segments it can be cut into. */
module RunBudgets {
  import opened Common
  import opened ToolGate
  import opened Transcript
  import opened RunRecords
  import opened RunProtocol
  import opened LeaseExclusion

  /** `n` lives' worth of a budget. */
  function Times(n: nat, m: nat): (r: nat)
    ensures n == 0 ==> r == 0
  {
    if n == 0 then 0 else Times(n - 1, m) + m
  }

  lemma {:induction false} TimesIsMonotone(a: nat, b: nat, m: nat)
    requires a <= b
    ensures Times(a, m) <= Times(b, m)
    decreases b
  {
    if a < b {
      TimesIsMonotone(a, b - 1, m);
    }
  }

  lemma TimesNext(n: nat, m: nat)
    ensures Times(n + 1, m) == Times(n, m) + m
  {
  }

  lemma {:induction false} TimesIsProduct(n: nat, m: nat)
    ensures Times(n, m) == n * m
  {
    if n > 0 {
      TimesIsProduct(n - 1, m);
      assert n * m == (n - 1) * m + m;
    }
  }

  // -------------------------------------------------------------------- tool budget

  /** Revivals on record: a run with neither checkpoint nor action has none left to spend. */
  function Attempts(s: Sys): nat {
    if s.db.checkpoint.Some? then s.db.checkpoint.value.resumeAttempts
    else if s.execs != [] then 0 else AGENT_RUN_MAX_RESUME_ATTEMPTS
  }

  predicate ActionWithinBudget(c: Config, s: Sys, e: Exec) {
    && e.toolCallCount <= c.maxToolCalls
    && (e.phase.Batch? && e.phase.cleared ==> e.toolCallCount < c.maxToolCalls)
    && s.hist.charged <= Times(s.hist.revivals, c.maxToolCalls) + e.toolCallCount
    && (e.phase.HandingOver? && s.db.checkpoint.Some? ==> s.db.checkpoint.value.toolCallCount == e.toolCallCount)
  }

  predicate WithinBudget(c: Config, s: Sys) {
    && Attempts(s) <= AGENT_RUN_MAX_RESUME_ATTEMPTS
    && (s.db.checkpoint.Some? || s.execs != [] ==> s.hist.revivals == Attempts(s) + s.hist.forgotten)
    && s.hist.revivals <= AGENT_RUN_MAX_RESUME_ATTEMPTS + s.hist.forgotten
    && s.hist.charged <= Times(s.hist.revivals + 1, c.maxToolCalls)
    && (s.execs != [] ==> ActionWithinBudget(c, s, s.execs[0]))
    && (s.db.checkpoint.Some? ==>
          var k := s.db.checkpoint.value;
          && k.toolCallCount <= c.maxToolCalls
          && (s.db.continuations != [] || k.status == AwaitingApproval ==>
                s.hist.charged <= Times(s.hist.revivals, c.maxToolCalls) + k.toolCallCount))
  }

  lemma BudgetTop(c: Config, s: Sys, i: nat)
    requires Lease(c, s) && WithinBudget(c, s) && i < |s.execs|
    requires s.execs[i].phase.Top?
    ensures WithinBudget(c, TopStep(c, s, i))
  {
    hide Trim, Chars, LeftOrphan, Times;
    assert s.execs == [s.execs[0]];
  }

  lemma BudgetCall(c: Config, s: Sys, i: nat, facts: CallFacts)
    requires Lease(c, s) && WithinBudget(c, s) && Enabled(c, s, RunCall(i, facts))
    ensures WithinBudget(c, RunCallStep(s, i, facts))
  {
    hide FateOf, Times;
    assert s.execs == [s.execs[0]];
    TimesNext(s.hist.revivals, c.maxToolCalls);
  }

  lemma BudgetEndBatch(c: Config, s: Sys, i: nat)
    requires Lease(c, s) && WithinBudget(c, s) && i < |s.execs| && s.execs[i].phase.Batch?
    ensures WithinBudget(c, EndBatchStep(c, s, i))
  {
    hide Trim, Chars, LeftOrphan, BuildToolInteractionTurns, Times;
    assert s.execs == [s.execs[0]];
  }

  lemma BudgetLeaving(c: Config, s: Sys, e: Event)
    requires Lease(c, s) && WithinBudget(c, s) && Enabled(c, s, e)
    requires e.CheckStop? || e.ParkSave? || e.ScheduleHandover? || e.ClearFinal? || e.Throw? || e.Kill?
    ensures WithinBudget(c, Apply(c, s, e))
  {
    hide Trim, Chars, LeftOrphan, Times;
    assert s.execs == [s.execs[0]];
  }

  lemma BudgetActionStep(c: Config, s: Sys, e: Event)
    requires Lease(c, s) && WithinBudget(c, s) && Enabled(c, s, e) && OfAction(e)
    ensures WithinBudget(c, Apply(c, s, e))
  {
    hide TopStep, RunCallStep, EndBatchStep, ParkSaveStep, CheckStopStep, Leave, Times, Chars, Trim;
    assert s.execs == [s.execs[0]];
    match e {
      case LoopTop(i) => BudgetTop(c, s, i);
      case RunCall(i, facts) => BudgetCall(c, s, i, facts);
      case EndBatch(i) => BudgetEndBatch(c, s, i);
      case EnterLoop(_) =>
      case ModelTurn(_, _, _) =>
      case WriteFinal(_) =>
      case _ => BudgetLeaving(c, s, e);
    }
  }

  lemma BudgetSweep(c: Config, s: Sys)
    requires MarginHolds(c) && Lease(c, s) && WithinBudget(c, s)
    ensures WithinBudget(c, Apply(c, s, Sweep))
  {
    hide Chars, Times;
    TimesNext(s.hist.revivals + 1, c.maxToolCalls);
  }

  lemma BudgetSettle(c: Config, s: Sys, k: nat)
    requires Lease(c, s) && WithinBudget(c, s) && k < |s.jobs| && s.jobs[k].Settling?
    ensures WithinBudget(c, SettleStep(c, s, k))
  {
    hide Trim, Chars, LeftOrphan, CallsOfRows, BuildToolInteractionTurns, Times;
  }

  lemma BudgetStart(c: Config, s: Sys, k: nat)
    requires Lease(c, s) && WithinBudget(c, s) && k < |s.db.continuations|
    ensures WithinBudget(c, StartContinuationStep(s, k))
  {
    hide Times, Chars;
  }

  lemma BudgetBystander(c: Config, s: Sys, e: Event)
    requires Lease(c, s) && WithinBudget(c, s) && Enabled(c, s, e)
    requires e.Tick? || e.Cancel? || e.Decide? || e.Expire? || e.StartResume? || e.FinishHandler? || e.KillResume?
    ensures WithinBudget(c, Apply(c, s, e))
  {
    hide Lease, CancelRun, DecideApproval, ExpireApprovals, WithinBudget, GetSettlement, PatchCall;
    var s' := Apply(c, s, e);
    if e.Expire? || (e.Decide? && e.decision.CancelDecision?) {
      BudgetDropped(c, s, s');
    } else {
      BudgetUntouched(c, s, s');
    }
  }

  lemma BudgetUntouched(c: Config, s: Sys, s': Sys)
    requires WithinBudget(c, s) && s'.execs == s.execs && s'.db.checkpoint == s.db.checkpoint && s'.db.continuations == s.db.continuations
    requires s'.hist.charged == s.hist.charged && s'.hist.revivals == s.hist.revivals && s'.hist.forgotten == s.hist.forgotten
    ensures WithinBudget(c, s')
  {
    hide Times;
  }

  lemma BudgetDropped(c: Config, s: Sys, s': Sys)
    requires WithinBudget(c, s) && s'.execs == s.execs && s'.db.checkpoint == None && s'.db.continuations == s.db.continuations
    requires s'.hist.charged == s.hist.charged && s'.hist.revivals == s.hist.revivals && s'.hist.forgotten == PositionDropped(s).forgotten
    ensures WithinBudget(c, s')
  {
    hide Times;
  }

  lemma BudgetStep(c: Config, s: Sys, e: Event)
    requires MarginHolds(c) && Lease(c, s) && WithinBudget(c, s) && Enabled(c, s, e)
    ensures WithinBudget(c, Apply(c, s, e))
  {
    hide WithinBudget, Lease, SettleStep, StartContinuationStep;
    if OfAction(e) {
      BudgetActionStep(c, s, e);
    } else {
      match e {
        case Sweep => BudgetSweep(c, s);
        case Settle(k) => BudgetSettle(c, s, k);
        case StartContinuation(k) => BudgetStart(c, s, k);
        case _ => BudgetBystander(c, s, e);
      }
    }
  }

  lemma {:induction false} BudgetAlways(c: Config, s: Sys, run: seq<Event>)
    requires MarginHolds(c) && Lease(c, s) && WithinBudget(c, s) && Valid(c, s, run)
    ensures WithinBudget(c, Replay(c, s, run))
    decreases |run|
  {
    hide WithinBudget, Lease;
    if run != [] {
      BudgetStep(c, s, run[0]);
      LeaseStep(c, s, run[0]);
      BudgetAlways(c, Apply(c, s, run[0]), run[1..]);
    }
  }

  /**
   * Over any run: no segment's counter passes the limit, all lives together charge at most one
   * limit for the start and one for each revival, and while anything is left of the run its
   * revivals are those on record and those forgotten with a checkpoint deleted under a live
   * action - so at most three, and four limits' worth of calls, unless some were forgotten.
   */
  lemma ToolBudgetOverAllLives(c: Config, s: Sys)
    requires MarginHolds(c) && Reachable(c, s)
    ensures forall i :: 0 <= i < |s.execs| ==> s.execs[i].toolCallCount <= c.maxToolCalls
    ensures s.db.checkpoint.Some? ==> s.db.checkpoint.value.toolCallCount <= c.maxToolCalls
    ensures s.hist.charged <= (1 + s.hist.revivals) * c.maxToolCalls
    ensures s.db.checkpoint.Some? ==> s.hist.revivals == s.db.checkpoint.value.resumeAttempts + s.hist.forgotten
    ensures s.hist.revivals <= AGENT_RUN_MAX_RESUME_ATTEMPTS + s.hist.forgotten
    ensures s.hist.forgotten == 0 ==> s.hist.charged <= (1 + AGENT_RUN_MAX_RESUME_ATTEMPTS) * c.maxToolCalls
  {
    var start, run :| Initial(start) && Valid(c, start, run) && Replay(c, start, run) == s;
    BudgetAlways(c, start, run);
    LeaseAlways(c, start, run);
    TimesIsProduct(s.hist.revivals + 1, c.maxToolCalls);
    if s.hist.forgotten == 0 {
      TimesIsMonotone(s.hist.revivals + 1, 4, c.maxToolCalls);
      TimesIsProduct(4, c.maxToolCalls);
    }
  }

  /** Nothing is forgotten unless a checkpoint with revivals on record is deleted while something
      holds the run. */
  lemma {:induction false} NothingForgotten(c: Config, s: Sys, run: seq<Event>)
    requires Valid(c, s, run) && UnhurriedRun(c, s, run)
    ensures Replay(c, s, run).hist.forgotten == s.hist.forgotten
    decreases |run|
  {
    hide Enabled;
    if run != [] {
      ForgottenStep(c, s, run[0]);
      NothingForgotten(c, Apply(c, s, run[0]), run[1..]);
    }
  }

  lemma ForgottenStep(c: Config, s: Sys, e: Event)
    requires Enabled(c, s, e)
    ensures Apply(c, s, e).hist.forgotten == s.hist.forgotten
            <==> !((e.Expire? || (e.Decide? && e.decision.CancelDecision?)) && (s.execs != [] || s.db.continuations != [])
                   && s.db.checkpoint.Some? && s.db.checkpoint.value.resumeAttempts > 0)
  {
    hide FateOf, Trim, Chars, LeftOrphan, CancelRun, DecideApproval, ExpireApprovals, RecoverStalledRun, SettleBatchAndContinue,
         RowsOfTurn, TakeRows, LoopSave;
  }

  /** The position that costs more: somebody is undecided while an action or a queued continuation holds
      a run revived before, and the run is cancelled by way of its approvals. */
  predicate Forgets(s: Sys, e: Event) {
    && (e.Expire? || (e.Decide? && e.decision.CancelDecision?)) && StillPending(s.db.approvals)
    && (s.execs != [] || s.db.continuations != [])
    && s.db.checkpoint.Some? && s.db.checkpoint.value.resumeAttempts > 0
  }

  ghost predicate EverForgets(c: Config, s: Sys, run: seq<Event>)
    requires Valid(c, s, run)
    decreases |run|
  {
    run != [] && (Forgets(s, run[0]) || EverForgets(c, Apply(c, s, run[0]), run[1..]))
  }

  lemma {:induction false} ForgottenSomewhere(c: Config, s: Sys, run: seq<Event>)
    requires Valid(c, s, run) && !EverForgets(c, s, run)
    ensures Replay(c, s, run).hist.forgotten == s.hist.forgotten
    decreases |run|
  {
    hide Apply;
    if run != [] {
      ForgottenStep(c, s, run[0]);
      ForgottenSomewhere(c, Apply(c, s, run[0]), run[1..]);
    }
  }

  /** No run charges more than four limits' worth of calls without passing through that position. */
  lemma PastFourLimitsForgets(c: Config, start: Sys, run: seq<Event>)
    requires MarginHolds(c) && Initial(start) && Valid(c, start, run)
    requires Replay(c, start, run).hist.charged > (1 + AGENT_RUN_MAX_RESUME_ATTEMPTS) * c.maxToolCalls
    ensures EverForgets(c, start, run) && Replay(c, start, run).hist.revivals > AGENT_RUN_MAX_RESUME_ATTEMPTS
  {
    hide EverForgets;
    var s := Replay(c, start, run);
    assert Reachable(c, s);
    ToolBudgetOverAllLives(c, s);
    if !EverForgets(c, start, run) {
      ForgottenSomewhere(c, start, run);
    }
    if s.hist.revivals <= AGENT_RUN_MAX_RESUME_ATTEMPTS {
      TimesIsMonotone(1 + s.hist.revivals, 1 + AGENT_RUN_MAX_RESUME_ATTEMPTS, c.maxToolCalls);
      TimesIsProduct(1 + s.hist.revivals, c.maxToolCalls);
      TimesIsProduct(1 + AGENT_RUN_MAX_RESUME_ATTEMPTS, c.maxToolCalls);
    }
  }

  // ------------------------------------------------------------------------ segments

  /** Continuations ever scheduled. */
  function Scheduled(s: Sys): nat { s.hist.handovers + s.hist.revivals + s.hist.resumed }

  predicate ActionOnTime(c: Config, s: Sys, e: Exec) {
    && (e.phase.Loading? ==> e.turns == 0)
    && 1 <= e.segmentCount <= 1 + Scheduled(s)
    && s.db.run.startedAt + AGENT_RUN_SEGMENT_BUDGET_MS * s.hist.handovers <= e.segmentStart <= s.now
    && (e.segmentCount == 1 ==> s.hist.handovers == 0 && e.clockFrom == e.segmentStart)
    && (e.segmentCount > 1 ==> e.clockFrom == s.db.run.startedAt)
    && (e.phase.Batch? || e.phase.Parking? || e.phase.HandingOver? || (e.phase.Top? && e.turns > 0) ==>
          e.segmentStart - e.clockFrom < c.maxRuntimeMs)
    && (e.phase.HandingOver? ==>
          e.turns > 0 && e.phase.savedAt - e.segmentStart >= AGENT_RUN_SEGMENT_BUDGET_MS)
  }

  predicate OnTime(c: Config, s: Sys) {
    && s.db.run.startedAt + AGENT_RUN_SEGMENT_BUDGET_MS * s.hist.handovers <= s.now
    && (c.maxRuntimeMs <= 20 * AGENT_RUN_SEGMENT_BUDGET_MS ==> s.hist.handovers <= 20)
    && (s.execs != [] ==> ActionOnTime(c, s, s.execs[0]))
    && (s.db.checkpoint.Some? ==>
          var k := s.db.checkpoint.value;
          && 1 <= k.segmentCount <= 1 + Scheduled(s)
          && (s.db.continuations != [] ==> k.segmentCount <= Scheduled(s)))
  }

  lemma TimeTop(c: Config, s: Sys, i: nat)
    requires Lease(c, s) && OnTime(c, s) && i < |s.execs| && s.execs[i].phase.Top?
    ensures OnTime(c, TopStep(c, s, i))
  {
    hide Trim, Chars, LeftOrphan;
    assert s.execs == [s.execs[0]];
  }

  lemma TimeCall(c: Config, s: Sys, i: nat, facts: CallFacts)
    requires Lease(c, s) && OnTime(c, s) && Enabled(c, s, RunCall(i, facts))
    ensures OnTime(c, RunCallStep(s, i, facts))
  {
    hide FateOf;
    assert s.execs == [s.execs[0]];
  }

  lemma TimeEndBatch(c: Config, s: Sys, i: nat)
    requires Lease(c, s) && OnTime(c, s) && i < |s.execs| && s.execs[i].phase.Batch?
    ensures OnTime(c, EndBatchStep(c, s, i))
  {
    hide Trim, Chars, LeftOrphan, BuildToolInteractionTurns;
    assert s.execs == [s.execs[0]];
  }

  lemma TimeActionStep(c: Config, s: Sys, e: Event)
    requires Lease(c, s) && OnTime(c, s) && Enabled(c, s, e) && OfAction(e)
    ensures OnTime(c, Apply(c, s, e))
  {
    hide Trim, Chars, LeftOrphan, TopStep, RunCallStep, EndBatchStep, StartContinuationStep, StartResumeStep, FinishHandlerStep, SettleStep,
         RecoverStalledRun, CancelRun, DecideApproval, ExpireApprovals;
    assert s.execs == [s.execs[0]];
    match e {
      case LoopTop(i) => TimeTop(c, s, i);
      case RunCall(i, facts) => TimeCall(c, s, i, facts);
      case EndBatch(i) => TimeEndBatch(c, s, i);
      case _ =>
    }
  }

  lemma TimeSweep(c: Config, s: Sys)
    requires MarginHolds(c) && Lease(c, s) && OnTime(c, s)
    ensures OnTime(c, Apply(c, s, Sweep))
  {
    hide Chars;
  }

  lemma TimeSettle(c: Config, s: Sys, k: nat)
    requires Lease(c, s) && OnTime(c, s) && k < |s.jobs| && s.jobs[k].Settling?
    ensures OnTime(c, SettleStep(c, s, k))
  {
    hide Trim, Chars, LeftOrphan, CallsOfRows, BuildToolInteractionTurns;
  }

  lemma TimeStart(c: Config, s: Sys, k: nat)
    requires Lease(c, s) && OnTime(c, s) && k < |s.db.continuations|
    ensures OnTime(c, StartContinuationStep(s, k))
  {
    assert s.execs == [] && s.db.continuations == [s.db.continuations[0]];
  }

  /** A person's steps move neither the clock nor the checkpoint's counters. */
  lemma TimeBystander(c: Config, s: Sys, e: Event)
    requires OnTime(c, s) && Enabled(c, s, e)
    requires e.Cancel? || e.Decide? || e.Expire? || e.StartResume? || e.FinishHandler? || e.KillResume?
    ensures OnTime(c, Apply(c, s, e))
  {
    hide CancelRun, DecideApproval, ExpireApprovals;
  }

  lemma TimeOtherStep(c: Config, s: Sys, e: Event)
    requires MarginHolds(c) && Lease(c, s) && OnTime(c, s) && Enabled(c, s, e) && !OfAction(e)
    ensures OnTime(c, Apply(c, s, e))
  {
    hide RecoverStalledRun, SettleStep, StartContinuationStep;
    match e {
      case Sweep => TimeSweep(c, s);
      case Settle(k) => TimeSettle(c, s, k);
      case StartContinuation(k) => TimeStart(c, s, k);
      case Tick(_) =>
      case _ => TimeBystander(c, s, e);
    }
  }

  lemma TimeStep(c: Config, s: Sys, e: Event)
    requires MarginHolds(c) && Lease(c, s) && OnTime(c, s) && Enabled(c, s, e)
    ensures OnTime(c, Apply(c, s, e))
  {
    hide OnTime, Lease;
    if OfAction(e) {
      TimeActionStep(c, s, e);
    } else {
      TimeOtherStep(c, s, e);
    }
  }

  lemma {:induction false} TimeAlways(c: Config, s: Sys, run: seq<Event>)
    requires MarginHolds(c) && Lease(c, s) && OnTime(c, s) && Valid(c, s, run)
    ensures OnTime(c, Replay(c, s, run))
    decreases |run|
  {
    hide OnTime, Lease;
    if run != [] {
      TimeStep(c, s, run[0]);
      LeaseStep(c, s, run[0]);
      TimeAlways(c, Apply(c, s, run[0]), run[1..]);
    }
  }

  /**
   * Under any runtime limit up to the one-hour ceiling a run hands over at most twenty times, so
   * its saved segment count passes twenty-four only by approval resumes and forgotten revivals:
   * with fewer than six of those the thirty-segment backstop is out of reach.
   */
  lemma BackstopStaysOutOfReach(c: Config, s: Sys)
    requires MarginHolds(c) && Reachable(c, s) && c.maxRuntimeMs <= 3_600_000
    ensures s.hist.handovers <= 20 && s.hist.revivals <= 3 + s.hist.forgotten
    ensures s.db.checkpoint.Some? ==> 1 <= s.db.checkpoint.value.segmentCount <= 24 + s.hist.forgotten + s.hist.resumed
    ensures s.hist.forgotten + s.hist.resumed < 6 && s.db.checkpoint.Some? ==>
              s.db.checkpoint.value.segmentCount < AGENT_RUN_MAX_SEGMENTS
    ensures forall i :: 0 <= i < |s.execs| && s.execs[i].phase.HandingOver? ==> s.execs[i].turns > 0
  {
    var start, run :| Initial(start) && Valid(c, start, run) && Replay(c, start, run) == s;
    BudgetAlways(c, start, run);
    TimeAlways(c, start, run);
    LeaseAlways(c, start, run);
  }

  /** A continuation that could otherwise go on is failed by the backstop exactly when thirty segments
      are on record, and within the hour that takes six approval resumes or forgotten revivals. */
  lemma BackstopFiresExactly(c: Config, s: Sys, k: nat)
    requires MarginHolds(c) && Reachable(c, s) && c.maxRuntimeMs <= 3_600_000
    requires k < |s.db.continuations| && s.db.run.status == RunRunning
    requires s.db.checkpoint.Some? && s.db.checkpoint.value.status == Active && s.db.checkpoint.value.transcript != []
    ensures Apply(c, s, StartContinuation(k)).db.run.status == RunFailed <==> s.db.checkpoint.value.segmentCount >= AGENT_RUN_MAX_SEGMENTS
    ensures Apply(c, s, StartContinuation(k)).db.run.status == RunFailed ==> s.hist.forgotten + s.hist.resumed >= 6
  {
    BackstopStaysOutOfReach(c, s);
  }
}
