/** A run ends, whatever people decide: a potential that every step of the loop, a crash, a handover,
    a continuation and a working sweep lowers, and that nothing raises but the forgetting of
    revivals; and the runs that stop short of an end (convex/agentObjectiveLoop.ts:286-311 and 892,
    convex/agentRunCheckpoints.ts:193-220). */
module RunTermination {
  import opened Common
  import opened ToolGate
  import opened Transcript
  import opened RefusalKey
  import opened RunRecords
  import opened RunProtocol
  import opened LeaseExclusion
  import opened RunBudgets

  /** Steps possible inside one turn, and inside one life. */
  function TurnCost(c: Config): nat { 2 * c.maxToolCalls + 12 }

  function LifeCost(c: Config): nat { Times(c.maxSteps + 1, TurnCost(c)) }

  function Positive(n: int): nat { if n > 0 then n else 0 }

  /** How far an action is from its next turn's end. */
  function PhaseRank(c: Config, e: Exec): nat {
    match e.phase
    case Top => if e.turns > 0 then 2 * c.maxToolCalls + 11 else 2 * c.maxToolCalls + 7
    case HandingOver(_) => 2 * c.maxToolCalls + 10
    case Loading => 2 * c.maxToolCalls + 8
    case Thinking => 2 * c.maxToolCalls + 6
    case Batch(_, _, cleared, _, _) =>
      5 + 2 * Positive(c.maxToolCalls - e.toolCallCount) - if cleared then 1 else 0
    case Parking => 3
    case Finishing(_) => 3
    case Clearing => 2
  }

  function StepsLeft(c: Config, loopIndex: nat): nat { Positive(c.maxSteps - loopIndex) }

  function Work(c: Config, loopIndex: nat, rank: nat): nat {
    Times(StepsLeft(c, loopIndex), TurnCost(c)) + rank
  }

  /** What is left of the present life: a live action, a queued continuation, a parked position that an
      answer may take up, or a stale checkpoint. */
  function LifeLeft(c: Config, s: Sys): nat {
    if s.execs != [] then Work(c, s.execs[0].loopIndex, PhaseRank(c, s.execs[0]))
    else if s.db.continuations != [] then
      (if s.db.checkpoint.Some? then Work(c, s.db.checkpoint.value.loopIndex, 2 * c.maxToolCalls + 9) else 2)
    else if s.db.checkpoint.Some? then
      (if s.db.checkpoint.value.status == AwaitingApproval then Work(c, s.db.checkpoint.value.loopIndex, 2 * c.maxToolCalls + 10) else 1)
    else 0
  }

  function Potential(c: Config, s: Sys): nat {
    Times(Positive(AGENT_RUN_MAX_RESUME_ATTEMPTS - Attempts(s)), LifeCost(c)) + LifeLeft(c, s)
  }

  /** A step that does something without a person behind it. */
  predicate Progress(s: Sys, e: Event) {
    OfAction(e) || e.StartContinuation? || (e.Sweep? && IsStalled(s.db, s.now))
  }

  /** Steps only an approver's decision can lead to. */
  predicate Reviewed(e: Event) {
    e.Decide? || e.Expire? || e.StartResume? || e.FinishHandler? || e.Settle? || e.KillResume?
  }

  predicate SaneAction(c: Config, s: Sys, e: Exec) {
    && (e.phase.Batch? ==> e.toolCallCount <= c.maxToolCalls && (e.phase.cleared ==> e.toolCallCount < c.maxToolCalls))
    && (e.phase.HandingOver? && s.db.checkpoint.Some? ==> s.db.checkpoint.value.loopIndex == e.loopIndex)
    && (e.phase.Batch? || e.phase.Thinking? || e.phase.Parking? ==> e.loopIndex < c.maxSteps && e.turns > 0)
    && (e.phase.HandingOver? ==> e.turns > 0)
    && (e.phase.Loading? ==> e.turns == 0)
  }

  predicate Sane(c: Config, s: Sys) {
    Attempts(s) <= AGENT_RUN_MAX_RESUME_ATTEMPTS && (s.execs != [] ==> SaneAction(c, s, s.execs[0]))
  }

  // --------------------------------------------------------------- steps stay sane

  lemma SaneActionStep(c: Config, s: Sys, e: Event)
    requires Lease(c, s) && Sane(c, s) && Enabled(c, s, e) && OfAction(e)
    ensures Sane(c, Apply(c, s, e))
  {
    hide FateOf, Trim, Chars, LeftOrphan, BuildToolInteractionTurns, StartContinuationStep, StartResumeStep, FinishHandlerStep, SettleStep, RecoverStalledRun,
         CancelRun, DecideApproval, ExpireApprovals, EndBatchStep, RunCallStep;
    assert s.execs == [s.execs[0]];
    match e {
      case EndBatch(i) => SaneEnd(c, s, i);
      case RunCall(i, facts) => SaneCall(c, s, i, facts);
      case _ =>
    }
  }

  lemma SaneEnd(c: Config, s: Sys, i: nat)
    requires Lease(c, s) && Sane(c, s) && Enabled(c, s, EndBatch(i))
    ensures Sane(c, EndBatchStep(c, s, i))
  {
    hide Trim, Chars, LeftOrphan, BuildToolInteractionTurns;
    assert s.execs == [s.execs[0]];
  }

  lemma SaneCall(c: Config, s: Sys, i: nat, facts: CallFacts)
    requires Lease(c, s) && Sane(c, s) && Enabled(c, s, RunCall(i, facts))
    ensures Sane(c, RunCallStep(s, i, facts))
  {
    hide FateOf;
    assert s.execs == [s.execs[0]];
  }

  lemma SaneOtherStep(c: Config, s: Sys, e: Event)
    requires Lease(c, s) && Sane(c, s) && Enabled(c, s, e) && !OfAction(e)
    ensures Sane(c, Apply(c, s, e))
  {
    hide CancelRun, DecideApproval, ExpireApprovals, Trim, Chars, LeftOrphan, CallsOfRows, BuildToolInteractionTurns,
         RowsOfTurn, TakeRows;
  }

  // ------------------------------------------------------------- the potential drops

  lemma LifeFits(c: Config, loopIndex: nat, rank: nat)
    requires rank < TurnCost(c)
    ensures Work(c, loopIndex, rank) < LifeCost(c)
  {
    TimesIsMonotone(StepsLeft(c, loopIndex), c.maxSteps, TurnCost(c));
  }

  lemma TurnDone(c: Config, s: Sys, i: nat)
    requires Lease(c, s) && Sane(c, s) && Enabled(c, s, EndBatch(i))
    ensures Potential(c, EndBatchStep(c, s, i)) < Potential(c, s)
  {
    hide Trim, Chars, LeftOrphan, BuildToolInteractionTurns;
    assert s.execs == [s.execs[0]];
  }

  lemma TopDrops(c: Config, s: Sys, i: nat)
    requires Lease(c, s) && Sane(c, s) && Enabled(c, s, LoopTop(i))
    ensures Potential(c, TopStep(c, s, i)) < Potential(c, s)
  {
    hide Trim, Chars, LeftOrphan;
    assert s.execs == [s.execs[0]];
  }

  lemma CallDrops(c: Config, s: Sys, i: nat, facts: CallFacts)
    requires Lease(c, s) && Sane(c, s) && Enabled(c, s, RunCall(i, facts))
    ensures Potential(c, RunCallStep(s, i, facts)) < Potential(c, s)
  {
    hide FateOf, Times;
    assert s.execs == [s.execs[0]];
  }

  lemma ParkDrops(c: Config, s: Sys, i: nat)
    requires Lease(c, s) && Sane(c, s) && Enabled(c, s, ParkSave(i))
    ensures Potential(c, ParkSaveStep(c, s, i)) < Potential(c, s)
  {
    hide Trim, Chars, LeftOrphan, Times;
    assert s.execs == [s.execs[0]];
    TimesNext(StepsLeft(c, s.execs[0].loopIndex) - 1, TurnCost(c));
  }

  /** Leaving for good: what an action had left was more than the stale checkpoint it may leave. */
  lemma LeavingDrops(c: Config, s: Sys, e: Event)
    requires Lease(c, s) && Sane(c, s) && Enabled(c, s, e)
    requires e.ClearFinal? || e.Throw? || e.Kill? || e.ScheduleHandover?
    ensures Potential(c, Apply(c, s, e)) < Potential(c, s)
  {
    assert s.execs == [s.execs[0]];
  }

  lemma ActionDrops(c: Config, s: Sys, e: Event)
    requires Lease(c, s) && Sane(c, s) && Enabled(c, s, e) && OfAction(e)
    ensures Potential(c, Apply(c, s, e)) < Potential(c, s)
  {
    hide TopStep, EndBatchStep, RunCallStep, ParkSaveStep, Times;
    assert s.execs == [s.execs[0]];
    match e {
      case LoopTop(i) => TopDrops(c, s, i);
      case EndBatch(i) => TurnDone(c, s, i);
      case RunCall(i, facts) => CallDrops(c, s, i, facts);
      case ParkSave(i) => ParkDrops(c, s, i);
      case EnterLoop(_) =>
      case ModelTurn(_, _, _) =>
      case CheckStop(_) =>
      case WriteFinal(_) =>
      case _ => LeavingDrops(c, s, e);
    }
  }

  lemma SweepDrops(c: Config, s: Sys)
    requires MarginHolds(c) && Lease(c, s) && Sane(c, s) && IsStalled(s.db, s.now)
    ensures Potential(c, Apply(c, s, Sweep)) < Potential(c, s)
  {
    hide Chars;
    LifeFits(c, s.db.checkpoint.value.loopIndex, 2 * c.maxToolCalls + 9);
  }

  lemma StartDrops(c: Config, s: Sys, k: nat)
    requires Lease(c, s) && Sane(c, s) && k < |s.db.continuations|
    ensures Potential(c, StartContinuationStep(s, k)) < Potential(c, s)
  {
    assert s.execs == [] && s.db.continuations == [s.db.continuations[0]];
  }

  /** The answer to a settled batch takes up the parked position, or closes the run. */
  lemma SettleDrops(c: Config, s: Sys, k: nat)
    requires Lease(c, s) && k < |s.jobs| && s.jobs[k].Settling?
    ensures Potential(c, SettleStep(c, s, k)) <= Potential(c, s)
  {
    hide Trim, Chars, LeftOrphan, CallsOfRows, BuildToolInteractionTurns, Times;
  }

  lemma TimesAdds(a: nat, b: nat, m: nat)
    ensures Times(a + b, m) == Times(a, m) + Times(b, m)
  {
    TimesIsProduct(a + b, m);
    TimesIsProduct(a, m);
    TimesIsProduct(b, m);
  }

  /** Deleting the position costs what is left of it, and gives back the revivals it forgets. */
  lemma DropGivesBack(c: Config, s: Sys, s': Sys)
    requires Lease(c, s) && Sane(c, s) && s'.execs == s.execs && s'.db.continuations == s.db.continuations && s'.db.checkpoint == None
    requires s'.hist.forgotten == PositionDropped(s).forgotten
    ensures Potential(c, s') <= Potential(c, s) + Times(s'.hist.forgotten - s.hist.forgotten, LifeCost(c))
  {
    var left := AGENT_RUN_MAX_RESUME_ATTEMPTS - Attempts(s);
    if s.db.checkpoint.Some? && s.execs != [] {
      TimesAdds(left, Attempts(s), LifeCost(c));
    } else {
      hide LifeCost;
      TimesIsMonotone(0, left, LifeCost(c));
    }
  }

  lemma ReviewGivesBack(c: Config, s: Sys, e: Event)
    requires Lease(c, s) && Sane(c, s) && Enabled(c, s, e) && Reviewed(e)
    ensures s.hist.forgotten <= Apply(c, s, e).hist.forgotten
    ensures Potential(c, Apply(c, s, e)) <= Potential(c, s) + Times(Apply(c, s, e).hist.forgotten - s.hist.forgotten, LifeCost(c))
  {
    hide Potential, CloseApprovals, CancelWaiting, SettleStep, GetSettlement, ApproveCall, RejectCall, PatchCall;
    var s' := Apply(c, s, e);
    if e.Expire? || (e.Decide? && e.decision.CancelDecision?) {
      DropGivesBack(c, s, s');
    } else if e.Settle? {
      SettleDrops(c, s, e.k);
      assert s'.hist.forgotten == s.hist.forgotten by { SettleForgetsNothing(c, s, e.k); }
    } else {
      SamePotential(c, s, s');
    }
  }

  lemma SettleForgetsNothing(c: Config, s: Sys, k: nat)
    requires k < |s.jobs| && s.jobs[k].Settling?
    ensures SettleStep(c, s, k).hist.forgotten == s.hist.forgotten
  {
    hide Trim, Chars, LeftOrphan, CallsOfRows, BuildToolInteractionTurns;
  }

  lemma SamePotential(c: Config, s: Sys, s': Sys)
    requires s'.execs == s.execs && s'.db.continuations == s.db.continuations && s'.db.checkpoint == s.db.checkpoint
    ensures Potential(c, s') == Potential(c, s)
  {
  }

  /** Working steps lower the potential; the clock, a cancellation and an idle sweep leave it; people
      raise it only by what forgotten revivals give back. */
  lemma PotentialStep(c: Config, s: Sys, e: Event)
    requires MarginHolds(c) && Lease(c, s) && Sane(c, s) && Enabled(c, s, e)
    ensures Progress(s, e) ==> Potential(c, Apply(c, s, e)) < Potential(c, s)
    ensures !Progress(s, e) && !Reviewed(e) ==> Potential(c, Apply(c, s, e)) == Potential(c, s)
    ensures s.hist.forgotten <= Apply(c, s, e).hist.forgotten && (!Reviewed(e) ==> s.hist.forgotten == Apply(c, s, e).hist.forgotten)
    ensures Reviewed(e) ==>
              Potential(c, Apply(c, s, e)) <= Potential(c, s) + Times(Apply(c, s, e).hist.forgotten - s.hist.forgotten, LifeCost(c))
  {
    hide CancelRun, DecideApproval, ExpireApprovals, StartContinuationStep, StartResumeStep, FinishHandlerStep, SettleStep, Times, Potential;
    if Reviewed(e) {
      ReviewGivesBack(c, s, e);
    } else if OfAction(e) {
      ActionDrops(c, s, e);
      ForgetsNothing(c, s, e);
    } else {
      ForgetsNothing(c, s, e);
      if e.StartContinuation? {
        StartDrops(c, s, e.k);
      } else if e.Sweep? && IsStalled(s.db, s.now) {
        SweepDrops(c, s);
      } else {
        SamePotential(c, s, Apply(c, s, e));
      }
    }
  }

  lemma ForgetsNothing(c: Config, s: Sys, e: Event)
    requires Enabled(c, s, e) && !Reviewed(e)
    ensures Apply(c, s, e).hist.forgotten == s.hist.forgotten
  {
    ForgottenStep(c, s, e);
  }

  ghost function ProgressSteps(c: Config, s: Sys, run: seq<Event>): nat
    requires Valid(c, s, run)
    decreases |run|
  {
    if run == [] then 0
    else (if Progress(s, run[0]) then 1 else 0) + ProgressSteps(c, Apply(c, s, run[0]), run[1..])
  }

  lemma {:induction false} ProgressIsBounded(c: Config, s: Sys, run: seq<Event>)
    requires MarginHolds(c) && Lease(c, s) && Sane(c, s) && Valid(c, s, run)
    ensures s.hist.forgotten <= Replay(c, s, run).hist.forgotten
    ensures ProgressSteps(c, s, run) + Potential(c, Replay(c, s, run))
            <= Potential(c, s) + Times(Replay(c, s, run).hist.forgotten - s.hist.forgotten, LifeCost(c))
    decreases |run|
  {
    hide Lease, Sane, Apply, Enabled, Potential, Progress, Times, LifeCost;
    assert Times(0, LifeCost(c)) == 0 by { TimesIsProduct(0, LifeCost(c)); }
    if run != [] {
      PotentialStep(c, s, run[0]);
      LeaseStep(c, s, run[0]);
      if OfAction(run[0]) {
        SaneActionStep(c, s, run[0]);
      } else {
        SaneOtherStep(c, s, run[0]);
      }
      var s' := Apply(c, s, run[0]);
      ProgressIsBounded(c, s', run[1..]);
      TimesAdds(s'.hist.forgotten - s.hist.forgotten, Replay(c, s, run).hist.forgotten - s'.hist.forgotten, LifeCost(c));
      PeopleMakeNoProgress(s, run[0]);
    }
  }

  lemma PeopleMakeNoProgress(s: Sys, e: Event)
    ensures Reviewed(e) ==> !Progress(s, e)
  {
  }

  lemma InitialPotential(c: Config, start: Sys)
    requires Initial(start)
    ensures Sane(c, start) && Potential(c, start) < 4 * ((c.maxSteps + 1) * (2 * c.maxToolCalls + 12))
  {
    hide Times;
    LifeFits(c, 0, 2 * c.maxToolCalls + 8);
    TimesIsProduct(3, LifeCost(c));
    TimesIsProduct(c.maxSteps + 1, TurnCost(c));
  }

  /**
   * Termination: whatever people decide and whenever, every schedule of turns, calls, saves, parks,
   * handovers, crashes, continuations, cancellations and sweeps takes at most
   * 4 * (maxSteps + 1) * (2 * maxToolCalls + 12) working steps, and as many again as a life has for
   * each revival forgotten.
   */
  lemma EveryScheduleIsFinite(c: Config, start: Sys, run: seq<Event>)
    requires MarginHolds(c) && Initial(start) && Valid(c, start, run)
    ensures ProgressSteps(c, start, run)
            <= (4 + Replay(c, start, run).hist.forgotten) * ((c.maxSteps + 1) * (2 * c.maxToolCalls + 12))
  {
    hide Lease, Sane, Apply, Potential, Progress, Times;
    InitialHoldsLease(c, start);
    InitialPotential(c, start);
    ProgressIsBounded(c, start, run);
    var forgotten := Replay(c, start, run).hist.forgotten;
    TimesIsProduct(c.maxSteps + 1, TurnCost(c));
    TimesIsProduct(forgotten, LifeCost(c));
    FourAndMore(forgotten, LifeCost(c));
  }

  lemma FourAndMore(n: nat, m: nat)
    ensures 4 * m + n * m == (4 + n) * m
  {
  }

  // -------------------------------------------------------- the runs nobody ends

  /** The run is not over, yet nothing is under way or waiting that could move it: no action, no
      queued continuation, no resume queued or running, nobody asked. */
  predicate Quiet(s: Sys) {
    && !IsTerminal(s.db.run.status)
    && s.execs == [] && s.db.continuations == [] && s.db.resumes == [] && s.jobs == []
    && !StillPending(s.db.approvals)
  }

  /** Left alone from here - nobody cancels - the run is ended or taken up again. */
  ghost predicate Recovers(c: Config, s: Sys) {
    exists run: seq<Event> :: Valid(c, s, run) && (forall i :: 0 <= i < |run| ==> !run[i].Cancel?)
                  && var s' := Replay(c, s, run); IsTerminal(s'.db.run.status) || s'.execs != [] || s'.db.continuations != []
  }

  predicate Recoverable(s: Sys) {
    s.db.run.status == RunRunning && s.db.checkpoint.Some? && s.db.checkpoint.value.status == Active
  }

  lemma StrandedStep(c: Config, s: Sys, e: Event)
    requires Quiet(s) && !Recoverable(s) && Enabled(c, s, e) && !e.Cancel?
    ensures Quiet(Apply(c, s, e)) && !Recoverable(Apply(c, s, e))
  {
    assert e.Tick? || e.Sweep?;
  }

  lemma {:induction false} StrandedForever(c: Config, s: Sys, run: seq<Event>)
    requires Quiet(s) && !Recoverable(s) && Valid(c, s, run)
    requires forall i :: 0 <= i < |run| ==> !run[i].Cancel?
    ensures Quiet(Replay(c, s, run)) && !Recoverable(Replay(c, s, run))
    decreases |run|
  {
    hide Quiet, Recoverable, Apply, Enabled;
    if run != [] {
      StrandedStep(c, s, run[0]);
      StrandedForever(c, Apply(c, s, run[0]), run[1..]);
    }
  }

  /** Once the checkpoint has gone stale a sweep revives the run, or fails it. */
  lemma SweepRecovers(c: Config, s: Sys)
    requires Quiet(s) && Recoverable(s)
    ensures Recovers(c, s)
  {
    hide Chars;
    var stale := s.db.checkpoint.value.updatedAt + AGENT_RUN_STALL_MS + 1;
    var wait := Tick(if stale > s.now then stale else s.now);
    var later := Apply(c, s, wait);
    var swept := Apply(c, later, Sweep);
    assert Valid(c, swept, []) && Replay(c, swept, []) == swept;
    assert [Sweep][1..] == [] && [wait, Sweep][1..] == [Sweep];
    assert Valid(c, later, [Sweep]) && Replay(c, later, [Sweep]) == swept;
    assert Valid(c, s, [wait, Sweep]) && Replay(c, s, [wait, Sweep]) == swept;
  }

  /**
   * A run that has gone quiet without ending is recovered exactly when it is marked RUNNING and
   * still has an ACTIVE checkpoint; otherwise no schedule of anything but a cancellation ever
   * ends it or takes it up again.
   */
  lemma RecoveredExactly(c: Config, s: Sys)
    requires Quiet(s)
    ensures Recovers(c, s) <==> Recoverable(s)
  {
    if Recoverable(s) {
      SweepRecovers(c, s);
    } else {
      forall run: seq<Event> | Valid(c, s, run) && (forall i :: 0 <= i < |run| ==> !run[i].Cancel?)
        ensures var s' := Replay(c, s, run); !IsTerminal(s'.db.run.status) && s'.execs == [] && s'.db.continuations == []
      {
        StrandedForever(c, s, run);
      }
    }
  }

  /** A run nobody holds, its checkpoint cleared, never starts an action again. */
  lemma {:induction false} ClearedForGood(c: Config, s: Sys, run: seq<Event>)
    requires s.execs == [] && s.db.checkpoint == None && Valid(c, s, run)
    ensures Replay(c, s, run).execs == [] && Replay(c, s, run).db.checkpoint == None
    decreases |run|
  {
    hide CancelRun, DecideApproval, ExpireApprovals, RowsOfTurn, TakeRows;
    if run != [] {
      ClearedForGood(c, Apply(c, s, run[0]), run[1..]);
    }
  }

  // -------------------------------------------------------- three ways to get there

  /** Room for one turn with one call, and for an empty transcript. */
  predicate OneCallFits(c: Config) {
    c.maxSteps >= 1 && c.maxToolCalls >= 1 && c.maxRuntimeMs > 0 && c.cap >= 2
  }

  const ASKED := Call("t", Obj([]), None)

  /** A call the gate puts to a person. */
  function Gated(): CallFacts {
    CallFacts(Validation(true, ""), Some(ToolMetadata(Write, true, false)), Refused(ConfirmationRequired), Outcome(Failed, RehearsedPayload))
  }

  /** Killed before its first save: RUNNING, and no checkpoint to find it by. */
  lemma KilledBeforeFirstSave(c: Config) returns (s: Sys)
    ensures Reachable(c, s) && Quiet(s) && s.db.run.status == RunRunning && s.db.checkpoint == None
    ensures !Recovers(c, s)
  {
    var start := Start(0, 0, false, []);
    assert Initial(start);
    StartIsReachable(c, start);
    s := StepIsReachable(c, start, Kill(0));
    RecoveredExactly(c, s);
  }

  lemma OneCallAsked(c: Config) returns (s: Sys)
    requires OneCallFits(c)
    ensures Reachable(c, s) && s.now == 0 && s.jobs == [] && s.db == Start(0, 0, false, []).db
    ensures s.execs == [Exec(0, 0, 0, Batch([ASKED], 0, true, [], 0), 0, 0, [], 1, 1, [])]
  {
    hide Trim, Chars;
    var start := Start(0, 0, false, []);
    assert Initial(start);
    StartIsReachable(c, start);
    s := StepIsReachable(c, start, EnterLoop(0));
    s := StepIsReachable(c, s, LoopTop(0));
    s := StepIsReachable(c, s, ModelTurn(0, [ASKED], false));
    s := StepIsReachable(c, s, CheckStop(0));
  }

  /** The first turn has asked for one call, and the call waits for a person. */
  lemma OneCallQueued(c: Config) returns (s: Sys)
    requires OneCallFits(c)
    ensures Reachable(c, s) && s.now == 0 && s.jobs == []
    ensures s.execs == [Exec(0, 0, 0, Batch([ASKED], 1, false, [], 1), 0, 1, [], 1, 1, [])]
    ensures s.db == Db(RunRow(RunRunning, 0, false, []), None, [GatedRow(ASKED, 0)], [ApprovalRow(0, AwaitingDecision)], [], [])
  {
    hide BuildRefusedToolCallKey;
    s := OneCallAsked(c);
    s := StepIsReachable(c, s, RunCall(0, Gated()));
  }

  /** The one open request is approved and its handler started. */
  lemma ApprovedAndStarted(c: Config, s: Sys) returns (s': Sys)
    requires Reachable(c, s) && s.jobs == [] && s.db.resumes == [] && s.db.approvals == [ApprovalRow(0, AwaitingDecision)]
    requires |s.db.toolCalls| == 1
    ensures Reachable(c, s') && s'.jobs == [Running(0)] && s'.execs == s.execs && s'.db.resumes == []
    ensures s'.db.approvals == [ApprovalRow(0, Approved)] && s'.db.checkpoint == s.db.checkpoint
    ensures s'.db.continuations == s.db.continuations && s'.db.run.status == RunRunning && |s'.db.toolCalls| == 1
  {
    hide RejectCall, CancelByDecision;
    s' := StepIsReachable(c, s, Decide(0, Approve));
    assert s'.db.resumes == [ResumeJob(0, false)] && s'.db.approvals == [ApprovalRow(0, Approved)];
    s' := StepIsReachable(c, s', StartResume(0));
  }

  /** The batch of one waiting call ends and parks. */
  lemma OneCallParks(c: Config, s: Sys) returns (s': Sys)
    requires Reachable(c, s) && OneCallFits(c) && s.db.run.status != RunCancelled && s.db.continuations == []
    requires s.execs == [Exec(0, 0, 0, Batch([ASKED], 1, false, [], 1), 0, 1, [], 1, 1, [])]
    ensures Reachable(c, s') && s'.execs == [] && s'.jobs == s.jobs && s'.db.run.status == RunPendingApproval
    ensures s'.db.approvals == s.db.approvals && s'.db.toolCalls == s.db.toolCalls && s'.db.resumes == s.db.resumes
    ensures s'.db.continuations == []
    ensures s'.db.checkpoint == Some(Checkpoint(AwaitingApproval, [], 1, 1, 1, c.threaded,
              if s.db.checkpoint.Some? then s.db.checkpoint.value.resumeAttempts else 0, s.now))
  {
    hide TopStep, ModelTurnStep, CheckStopStep, RunCallStep, StartContinuationStep, StartResumeStep, FinishHandlerStep, SettleStep,
         RecoverStalledRun, CancelRun, DecideApproval, ExpireApprovals, BuildToolInteractionTurns, Reachable, Trim, Chars;
    s' := StepIsReachable(c, s, EndBatch(0));
    NothingIsStored(c);
    s' := StepIsReachable(c, s', ParkSave(0));
  }

  /** An empty conversation is stored as it is. */
  lemma NothingIsStored(c: Config)
    requires c.cap >= 2
    ensures Trim([], c.cap) == [] && Storable([], c.cap) && !LeftOrphan([], c.cap)
  {
  }

  /** Parked, approved, and the resume killed: RUNNING, with a checkpoint no sweep looks at. */
  lemma ResumeKilledAfterLastApproval(c: Config) returns (s: Sys)
    requires OneCallFits(c)
    ensures Reachable(c, s) && Quiet(s) && s.db.run.status == RunRunning
    ensures s.db.checkpoint.Some? && s.db.checkpoint.value.status == AwaitingApproval
    ensures !Recovers(c, s)
  {
    hide Recovers;
    s := OneCallQueued(c);
    s := OneCallParks(c, s);
    s := ApprovedAndStarted(c, s);
    s := StepIsReachable(c, s, KillResume(0));
    RecoveredExactly(c, s);
  }

  /** Approved and answered while the batch was still running: the action then parks a run that
      nobody is asked about any more. */
  lemma AnsweredBeforeThePark(c: Config) returns (s: Sys)
    requires OneCallFits(c)
    ensures Reachable(c, s) && Quiet(s) && s.db.run.status == RunPendingApproval
    ensures !Recovers(c, s)
  {
    hide Recovers, Trim, Chars, RowsOfTurn, TakeRows;
    s := OneCallQueued(c);
    s := ApprovedAndStarted(c, s);
    s := StepIsReachable(c, s, FinishHandler(0, true, RehearsedPayload));
    assert s.jobs[0].Settling? && s.jobs[0].settlement.settled;
    s := StepIsReachable(c, s, Settle(0));
    s := OneCallParks(c, s);
    RecoveredExactly(c, s);
  }
}
