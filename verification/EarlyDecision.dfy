/** Why decisions have to wait for the park: with two calls of one batch waiting, the first decided
    while the batch is still being written down, the run goes on without the second - though nothing
    crashed and nobody cancelled (convex/agentObjectiveLoop.ts:500-536 and 820-876,
    convex/agentRunApprovals.ts:490-497 and 748-788). `MissingCall` says exactly when a decision does
    that; here also what the next batch then starts from. */
module EarlyDecision {
  import opened Common
  import opened ToolGate
  import opened Transcript
  import opened RefusalKey
  import opened RunRecords
  import opened RunProtocol
  import opened RunTermination
  import opened BatchToPark
  import opened Parking
  import LeaseExclusion
  import ApprovalSafety

  // ------------------------------------------------------- when a batch begins clean

  /** No action is lost in a crash, and none parks what cannot be stored. Decisions, cancellations,
      expiries and crashes of resume actions come as they like. */
  predicate KeepsTurns(c: Config, s: Sys, e: Event) {
    !e.Kill? && !e.Throw? && (e.ParkSave? && e.i < |s.execs| ==> Storable(Trim(s.execs[e.i].transcript, c.cap), c.cap))
  }

  ghost predicate KeepingRun(c: Config, s: Sys, run: seq<Event>)
    requires Valid(c, s, run)
    decreases |run|
  {
    run == [] || (KeepsTurns(c, s, run[0]) && KeepingRun(c, Apply(c, s, run[0]), run[1..]))
  }

  /** Rows carry turns already begun: whoever goes on next begins a new one. */
  ghost predicate Numbered(s: Sys) {
    if s.execs == [] then s.db.checkpoint.Some? ==> RowsBelow(s.db.toolCalls, s.db.checkpoint.value.loopIndex)
    else ActionNumbered(s, s.execs[0])
  }

  ghost predicate ActionNumbered(s: Sys, e: Exec) {
    match e.phase
    case Batch(_, _, _, _, _) => RowsBelow(s.db.toolCalls, e.loopIndex + 1)
    case Parking => RowsBelow(s.db.toolCalls, e.loopIndex + 1)
    case Finishing(_) => true
    case Clearing => true
    case HandingOver(_) =>
      && RowsBelow(s.db.toolCalls, e.loopIndex)
      && (s.db.checkpoint.Some? ==> s.db.checkpoint.value.loopIndex == e.loopIndex)
    case _ => RowsBelow(s.db.toolCalls, e.loopIndex)
  }

  ghost predicate SameTurns(was: seq<ToolCallRow>, rows: seq<ToolCallRow>) {
    |rows| == |was| && forall i :: 0 <= i < |was| ==> rows[i].turnIndex == was[i].turnIndex
  }

  lemma {:induction false} CancelledCallsKeepTurns(rows: seq<ToolCallRow>, limit: nat)
    ensures SameTurns(rows, CancelCalls(rows, limit))
  {
    if rows != [] {
      CancelledCallsKeepTurns(rows[1..], if rows[0].status in {Pending, ApprovalRequired} && limit > 0 then limit - 1 else limit);
    }
  }

  lemma {:induction false} ExpiredCallsKeepTurns(approvals: seq<ApprovalRow>, rows: seq<ToolCallRow>, limit: nat)
    ensures SameTurns(rows, CancelWaiting(approvals, rows, limit))
    decreases |approvals|
  {
    if approvals != [] {
      if approvals[0].status == AwaitingDecision && limit > 0 {
        ExpiredCallsKeepTurns(approvals[1..], PatchCall(rows, approvals[0].toolCall, Cancelled, None), limit - 1);
      } else {
        ExpiredCallsKeepTurns(approvals[1..], rows, limit);
      }
    }
  }

  /** Who only patches rows and moves no position leaves the numbering. */
  lemma NumberingKept(s: Sys, s': Sys)
    requires Numbered(s) && SameTurns(s.db.toolCalls, s'.db.toolCalls) && s'.execs == s.execs
    requires s'.db.checkpoint.Some? ==> s.db.checkpoint.Some? && s'.db.checkpoint.value.loopIndex == s.db.checkpoint.value.loopIndex
    ensures Numbered(s')
  {
  }

  lemma PeopleKeepTurns(c: Config, s: Sys, e: Event)
    requires Numbered(s) && Enabled(c, s, e) && (e.Cancel? || e.Expire? || e.Decide? || e.StartResume? || e.FinishHandler? || e.KillResume?)
    ensures Numbered(Apply(c, s, e))
  {
    hide Numbered, CancelCalls, CancelWaiting, CloseApprovals, AppendRefusedToolCall, BuildRefusedToolCallKey, RefusalPayload, GetSettlement;
    CancelledCallsKeepTurns(s.db.toolCalls, AGENT_RUN_DETAIL_LIMIT);
    ExpiredCallsKeepTurns(s.db.approvals, s.db.toolCalls, AGENT_RUN_DETAIL_LIMIT);
    NumberingKept(s, Apply(c, s, e));
  }

  lemma OtherKeepsTurns(c: Config, s: Sys, e: Event)
    requires LeaseExclusion.Lease(c, s) && Numbered(s) && Enabled(c, s, e) && !OfAction(e)
    ensures Numbered(Apply(c, s, e))
  {
    hide CancelRun, DecideApproval, ExpireApprovals, StartResumeStep, FinishHandlerStep, Trim, Chars, LeftOrphan, CallsOfRows,
         BuildToolInteractionTurns, RowsBelow;
    match e {
      case Tick(_) =>
      case Sweep => NumberingKept(s, Apply(c, s, e));
      case Settle(_) => NumberingKept(s, Apply(c, s, e));
      case StartContinuation(_) =>
      case _ => PeopleKeepTurns(c, s, e);
    }
  }

  lemma CallKeepsTurns(c: Config, s: Sys, facts: CallFacts)
    requires |s.execs| == 1 && Numbered(s) && Enabled(c, s, RunCall(0, facts))
    ensures Numbered(RunCallStep(s, 0, facts))
  {
    hide FateOf;
  }

  lemma ActionKeepsTurns(c: Config, s: Sys, e: Event)
    requires LeaseExclusion.Lease(c, s) && Numbered(s) && Enabled(c, s, e) && OfAction(e) && KeepsTurns(c, s, e)
    ensures Numbered(Apply(c, s, e))
  {
    hide RunCallStep, FateOf, Trim, Chars, LeftOrphan, BuildToolInteractionTurns, StartContinuationStep, StartResumeStep, FinishHandlerStep,
         SettleStep, RecoverStalledRun, CancelRun, DecideApproval, ExpireApprovals;
    assert s.execs == [s.execs[0]] && Remove(s.execs, 0) == [];
    if e.RunCall? {
      CallKeepsTurns(c, s, e.facts);
    }
  }

  lemma {:induction false} NumberedAlways(c: Config, s: Sys, run: seq<Event>)
    requires LeaseExclusion.MarginHolds(c) && LeaseExclusion.Lease(c, s) && Numbered(s) && Valid(c, s, run) && KeepingRun(c, s, run)
    ensures Numbered(Replay(c, s, run))
    decreases |run|
  {
    hide LeaseExclusion.Lease, Numbered, Apply, Enabled, KeepsTurns;
    if run != [] {
      if OfAction(run[0]) {
        ActionKeepsTurns(c, s, run[0]);
      } else {
        OtherKeepsTurns(c, s, run[0]);
      }
      LeaseExclusion.LeaseStep(c, s, run[0]);
      NumberedAlways(c, Apply(c, s, run[0]), run[1..]);
    }
  }

  /**
   * In every run that loses no turn, however its decisions are timed, a batch the model asks for has
   * rows of its own from the start: it begins as a batch in order begins, but for requests still open.
   * (Whether an earlier batch was answered whole is another matter: see `MissingCall`.)
   */
  lemma BatchBeginsCleanExactly(c: Config, start: Sys, run: seq<Event>, calls: seq<Call>, overBudget: bool)
    requires LeaseExclusion.MarginHolds(c) && Initial(start) && Valid(c, start, run) && KeepingRun(c, start, run)
    requires Enabled(c, Replay(c, start, run), ModelTurn(0, calls, overBudget))
    ensures var s := Replay(c, start, run);
            var s' := Apply(c, s, ModelTurn(0, calls, overBudget));
            s'.execs[0].phase.Batch? ==> (BatchSoFar(s', s.db.toolCalls, []) <==> !StillPending(s.db.approvals))
  {
    hide Valid, Replay, KeepingRun, LeaseExclusion.Lease, ApprovalSafety.Once, Numbered, Apply, BatchSoFar;
    LeaseExclusion.InitialHoldsLease(c, start);
    LeaseExclusion.LeaseAlways(c, start, run);
    OnceInitially(start);
    ApprovalSafety.OnceAlways(c, start, run);
    NumberedInitially(start);
    NumberedAlways(c, start, run);
    var s := Replay(c, start, run);
    CallsOfTheirOwn(s);
    BeginsCleanExactly(c, s, calls, overBudget);
  }

  lemma NumberedInitially(start: Sys)
    requires Initial(start)
    ensures Numbered(start)
  {
  }

  lemma BeginsCleanExactly(c: Config, s: Sys, calls: seq<Call>, overBudget: bool)
    requires LeaseExclusion.Lease(c, s) && Numbered(s) && ApprovalSafety.OneCallEach(s.db)
    requires Enabled(c, s, ModelTurn(0, calls, overBudget))
    ensures var s' := Apply(c, s, ModelTurn(0, calls, overBudget));
            s'.execs[0].phase.Batch? ==> (BatchSoFar(s', s.db.toolCalls, []) <==> !StillPending(s.db.approvals))
  {
    hide TopStep, CheckStopStep, RunCallStep, EndBatchStep, ParkSaveStep, StartContinuationStep, StartResumeStep, FinishHandlerStep,
         SettleStep, RecoverStalledRun, CancelRun, DecideApproval, ExpireApprovals;
    assert s.db.toolCalls + [] == s.db.toolCalls && CallsOfRows([]) == [];
    if !StillPending(s.db.approvals) {
      assert forall a: nat :: !CanDecide(s.db, a);
    }
  }

  // ------------------------------------------------------- one that does not

  /** A step at which nothing crashes and nobody cancels. */
  predicate Unharmed(e: Event) {
    !e.Kill? && !e.Throw? && !e.KillResume? && !e.Cancel? && !e.Expire? && !(e.Decide? && e.decision.CancelDecision?)
  }

  const HELLO := Text(User, "")

  const BEGIN := Start(0, 0, false, [HELLO])

  predicate TwoCallsFit(c: Config) {
    c.threaded && c.maxSteps >= 2 && c.maxToolCalls >= 3 && c.maxRuntimeMs > 0 && c.cap >= 200
  }

  ghost predicate Reaches(c: Config, run: seq<Event>, s: Sys) {
    Initial(BEGIN) && Valid(c, BEGIN, run) && Replay(c, BEGIN, run) == s && forall i :: 0 <= i < |run| ==> Unharmed(run[i])
  }

  lemma Then(c: Config, run: seq<Event>, s: Sys, e: Event) returns (run': seq<Event>, s': Sys)
    requires Reaches(c, run, s) && Enabled(c, s, e) && Unharmed(e)
    ensures s' == Apply(c, s, e) && Reaches(c, run', s')
  {
    hide Enabled, Apply;
    Extend(c, BEGIN, run, e);
    run', s' := run + [e], Apply(c, s, e);
  }

  lemma AtTheBeginning(c: Config)
    ensures Reaches(c, [], BEGIN)
  {
  }

  /** The batch of two is asked for, and its first call waits. */
  lemma FirstWaits(c: Config) returns (run: seq<Event>, s: Sys)
    requires TwoCallsFit(c)
    ensures Reaches(c, run, s) && s.now == 0 && s.jobs == []
    ensures s.execs == [Exec(0, 0, 0, Batch([ASKED, ASKED], 1, false, [], 1), 0, 1, [HELLO], 1, 1, [])]
    ensures s.db == Db(RunRow(RunRunning, 0, false, []), None, [GatedRow(ASKED, 0)], [ApprovalRow(0, AwaitingDecision)], [], [])
  {
    hide Trim, Chars, BuildRefusedToolCallKey, Reaches;
    AtTheBeginning(c);
    run, s := Then(c, [], BEGIN, EnterLoop(0));
    run, s := Then(c, run, s, LoopTop(0));
    run, s := Then(c, run, s, ModelTurn(0, [ASKED, ASKED], false));
    run, s := Then(c, run, s, CheckStop(0));
    run, s := Then(c, run, s, RunCall(0, Gated()));
  }

  function AnsweredRow(): ToolCallRow {
    GatedRow(ASKED, 0).(status := Success, result := Some(RehearsedPayload))
  }

  function EarlySettlement(): Job { Settling(0, Settlement(true, [AnsweredRow()]), true) }

  /** It is approved and started at once. */
  lemma FirstIsStarted(c: Config) returns (run: seq<Event>, s: Sys)
    requires TwoCallsFit(c)
    ensures Reaches(c, run, s) && s.now == 0 && s.jobs == [Running(0)]
    ensures s.execs == [Exec(0, 0, 0, Batch([ASKED, ASKED], 1, false, [], 1), 0, 1, [HELLO], 1, 1, [])]
    ensures s.db == Db(RunRow(RunRunning, 0, false, []), None, [GatedRow(ASKED, 0).(status := Pending)], [ApprovalRow(0, Approved)], [], [])
  {
    hide RejectCall, CancelByDecision, Reaches;
    run, s := FirstWaits(c);
    run, s := Then(c, run, s, Decide(0, Approve));
    assert s.db.approvals == [ApprovalRow(0, Approved)] && s.db.resumes == [ResumeJob(0, false)];
    run, s := Then(c, run, s, StartResume(0));
  }

  /** Once it has run nobody is undecided, so the batch counts as settled. */
  lemma FirstIsAnswered(c: Config) returns (run: seq<Event>, s: Sys)
    requires TwoCallsFit(c)
    ensures Reaches(c, run, s) && s.now == 0 && s.jobs == [EarlySettlement()]
    ensures s.execs == [Exec(0, 0, 0, Batch([ASKED, ASKED], 1, false, [], 1), 0, 1, [HELLO], 1, 1, [])]
    ensures s.db == Db(RunRow(RunRunning, 0, false, []), None, [AnsweredRow()], [ApprovalRow(0, Approved)], [], [])
  {
    hide Reaches, RowsOfTurn;
    run, s := FirstIsStarted(c);
    OwnRow();
    run, s := Then(c, run, s, FinishHandler(0, true, RehearsedPayload));
    assert s.db.toolCalls == [AnsweredRow()];
  }

  lemma OwnRow()
    ensures RowsOfTurn([AnsweredRow()], 0) == [AnsweredRow()]
  {
    assert RowsOfTurn([AnsweredRow()][1..], 0) == [];
  }

  /** The second call waits too, and the batch parks. */
  lemma SecondWaits(c: Config) returns (run: seq<Event>, s: Sys)
    requires TwoCallsFit(c)
    ensures Reaches(c, run, s) && s.now == 0 && s.jobs == [EarlySettlement()] && s.execs == []
    ensures s.db == Db(RunRow(RunPendingApproval, 0, false, []), Some(Checkpoint(AwaitingApproval, [HELLO], 1, 2, 1, true, 0, 0)),
                       [AnsweredRow(), GatedRow(ASKED, 0)], [ApprovalRow(0, Approved), ApprovalRow(1, AwaitingDecision)], [], [])
  {
    hide BuildRefusedToolCallKey, Reaches;
    run, s := FirstIsAnswered(c);
    run, s := Then(c, run, s, CheckStop(0));
    run, s := Then(c, run, s, RunCall(0, Gated()));
    assert s.db.toolCalls == [AnsweredRow(), GatedRow(ASKED, 0)];
    run, s := Then(c, run, s, EndBatch(0));
    HelloIsSmall(c);
    run, s := Then(c, run, s, ParkSave(0));
  }

  lemma HelloIsSmall(c: Config)
    requires TwoCallsFit(c)
    ensures Trim([HELLO], c.cap) == [HELLO] && Storable([HELLO], c.cap)
  {
    assert BodyChars([HELLO][1..]) == 0;
    FitsUntrimmed([HELLO], c.cap);
  }

  const ONE_TURN := [HELLO] + BuildToolInteractionTurns([CallOfRow(AnsweredRow())])

  lemma OneTurnFits(c: Config)
    requires TwoCallsFit(c)
    ensures Trim(ONE_TURN, c.cap) == ONE_TURN && Storable(ONE_TURN, c.cap)
    ensures [HELLO] + BuildToolInteractionTurns(CallsOfRows([AnsweredRow()])) == ONE_TURN
  {
    assert CallsOfRows([AnsweredRow()]) == [CallOfRow(AnsweredRow())];
    var b := BuildToolInteractionTurns([CallOfRow(AnsweredRow())]);
    var asks, answers := b[0].calls, b[1].results;
    assert asks == [CallPart("t", Obj([]), None)] && asks[1..] == [] && CallChars(asks) == 1 + JsonChars(Obj([])) + 2;
    assert answers == [ResultPart("t", RehearsedPayload)] && answers[1..] == [] && ResultChars(answers) <= 80;
    assert b[1..][1..] == [] && BodyChars(b[1..]) == ResultChars(answers) + 1;
    assert BodyChars(b) == CallChars(asks) + 1 + BodyChars(b[1..]);
    assert ONE_TURN[1..] == b && BodyChars(ONE_TURN) == 3 + BodyChars(b);
    FitsUntrimmed(ONE_TURN, c.cap);
  }

  /**
   * The settlement of the first call answers the park of both: the run goes on while the second waits
   * for a person, its request and result in no conversation, and the next batch begins unclean.
   */
  lemma GoesOnWithSomebodyUndecided(c: Config) returns (run: seq<Event>)
    requires TwoCallsFit(c)
    ensures Initial(BEGIN) && Valid(c, BEGIN, run) && forall i :: 0 <= i < |run| ==> Unharmed(run[i])
    ensures var s := Replay(c, BEGIN, run);
            && |s.execs| == 1 && s.execs[0].phase == Batch([ASKED], 0, false, [], 0) && s.execs[0].transcript == ONE_TURN
            && CanDecide(s.db, 1) && |s.db.toolCalls| == 2 && s.db.toolCalls[1] == GatedRow(ASKED, 0)
            && !BatchSoFar(s, s.db.toolCalls, [])
  {
    hide Reaches, Trim, Chars, BuildToolInteractionTurns, CallsOfRows, Storable, BatchSoFar;
    var s;
    run, s := SecondWaits(c);
    OneTurnFits(c);
    run, s := Then(c, run, s, Settle(0));
    assert s.db.continuations == [0];
    run, s := Then(c, run, s, StartContinuation(0));
    run, s := Then(c, run, s, EnterLoop(0));
    run, s := Then(c, run, s, LoopTop(0));
    run, s := Then(c, run, s, ModelTurn(0, [ASKED], false));
    UncleanWhileUndecided(s, 1);
    ReachesThere(c, run, s);
  }

  lemma ReachesThere(c: Config, run: seq<Event>, s: Sys)
    requires Reaches(c, run, s)
    ensures Initial(BEGIN) && Valid(c, BEGIN, run) && Replay(c, BEGIN, run) == s && forall i :: 0 <= i < |run| ==> Unharmed(run[i])
  {
  }

  lemma UncleanWhileUndecided(s: Sys, a: nat)
    requires |s.execs| == 1 && s.execs[0].phase.Batch? && s.execs[0].phase.deferred == 0 && CanDecide(s.db, a)
    ensures !BatchSoFar(s, s.db.toolCalls, [])
  {
  }
}
