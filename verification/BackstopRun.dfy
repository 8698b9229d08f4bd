/** A run the segment backstop ends: thirty times over it asks for one call, parks, is approved and taken
    up again, and the thirty-first segment is refused (convex/agentRuntime.ts:434-437,
    convex/agentRunContinuationService.ts:58-73). */
module BackstopRun {
  import opened Common
  import opened ToolGate
  import opened Transcript
  import opened RefusalKey
  import opened RunRecords
  import opened RunProtocol
  import opened RunTermination
  import Parking

  predicate ThirtyFit(c: Config) {
    c.threaded && c.maxSteps >= 30 && c.maxToolCalls >= 30 && c.maxRuntimeMs > 0 && c.cap >= 100
  }

  /** The last turn alone can be stored, so whatever the trim keeps can. */
  predicate EndsSmall(t: seq<Turn>, cap: nat) { t != [] && Chars([t[|t| - 1]]) <= cap }

  lemma SmallEndIsStored(t: seq<Turn>, cap: nat)
    requires EndsSmall(t, cap)
    ensures Storable(Trim(t, cap), cap) && EndsSmall(Trim(t, cap), cap)
  {
    TrimIsFirstFit(t, cap);
    var k := Cut(t, cap);
    if k == |t| - 1 {
      assert t[k..] == [t[k]];
    }
  }

  /** One call asked for in turn `turn`, and the same once its handler has run. */
  function Open(turn: nat): ToolCallRow { GatedRow(ASKED, turn) }

  function Done(turn: nat): ToolCallRow { Open(turn).(status := Success, result := Some(RehearsedPayload)) }

  ghost predicate Earlier(rows: seq<ToolCallRow>, turn: nat) { forall i :: 0 <= i < |rows| ==> rows[i].turnIndex < turn }

  /** Nothing of the run is open but what these fields hold. */
  ghost predicate Quiescent(s: Sys, n: nat, prior: seq<ToolCallRow>, closed: seq<ApprovalRow>) {
    && n >= 1 && s.now == 0 && s.db.run == RunRow(RunRunning, 0, false, []) && s.jobs == [] && s.db.resumes == []
    && Earlier(prior, n - 1) && (forall i :: 0 <= i < |closed| ==> closed[i].status != AwaitingDecision && closed[i].toolCall < |prior|)
  }

  /** Segment `n` has just entered the loop, each earlier one having parked on one call. */
  ghost predicate AtSegment(c: Config, s: Sys, n: nat) {
    && Quiescent(s, n, s.db.toolCalls, s.db.approvals) && Reachable(c, s) && s.db.continuations == []
    && |s.execs| == 1 && EndsSmall(s.execs[0].transcript, c.cap) && s.hist.resumed == n - 1
    && s.execs[0] == Exec(0, 0, 0, Top, n - 1, n - 1, s.execs[0].transcript, n, 0, [])
    && (s.db.checkpoint.Some? ==> s.db.checkpoint.value.resumeAttempts == 0)
  }

  /** Its call waits, and it has parked. */
  ghost predicate AtPark(c: Config, s: Sys, n: nat, prior: seq<ToolCallRow>, closed: seq<ApprovalRow>) {
    && n >= 1 && Reachable(c, s) && Earlier(prior, n - 1) && s.now == 0 && s.execs == [] && s.jobs == []
    && (forall i :: 0 <= i < |closed| ==> closed[i].status != AwaitingDecision && closed[i].toolCall < |prior|)
    && s.db.run == RunRow(RunPendingApproval, 0, false, []) && s.db.resumes == [] && s.db.continuations == []
    && s.db.toolCalls == prior + [Open(n - 1)] && s.db.approvals == closed + [ApprovalRow(|prior|, AwaitingDecision)]
    && CanContinue(s.db) && s.hist.resumed == n - 1
    && s.db.checkpoint == Some(Checkpoint(AwaitingApproval, s.db.checkpoint.value.transcript, n, n, n, true, 0, 0))
    && EndsSmall(s.db.checkpoint.value.transcript, c.cap)
  }

  lemma AsksOne(c: Config, s: Sys, n: nat) returns (s': Sys)
    requires ThirtyFit(c) && AtSegment(c, s, n) && n <= 30
    ensures Reachable(c, s') && s' == s.(execs := s'.execs)
    ensures s'.execs == [s.execs[0].(phase := Batch([ASKED], 0, true, [], 0), turns := 1)]
  {
    hide Trim, Chars, Reachable, Earlier, RunCallStep, EndBatchStep, ParkSaveStep, StartContinuationStep, StartResumeStep, FinishHandlerStep,
         SettleStep, RecoverStalledRun, CancelRun, DecideApproval, ExpireApprovals;
    s' := StepIsReachable(c, s, LoopTop(0));
    s' := StepIsReachable(c, s', ModelTurn(0, [ASKED], false));
    s' := StepIsReachable(c, s', CheckStop(0));
  }

  lemma ParksOnOne(c: Config, s: Sys, n: nat) returns (s': Sys)
    requires ThirtyFit(c) && AtSegment(c, s, n) && n <= 30
    ensures AtPark(c, s', n, s.db.toolCalls, s.db.approvals)
  {
    hide Trim, Chars, Reachable, Earlier, BuildRefusedToolCallKey, LeftOrphan, TopStep, ModelTurnStep, CheckStopStep, StartContinuationStep,
         StartResumeStep, FinishHandlerStep, SettleStep, RecoverStalledRun, CancelRun, DecideApproval, ExpireApprovals, EndsSmall, Storable;
    s' := AsksOne(c, s, n);
    s' := StepIsReachable(c, s', RunCall(0, Gated()));
    s' := StepIsReachable(c, s', EndBatch(0));
    SmallEndIsStored(s.execs[0].transcript, c.cap);
    s' := StepIsReachable(c, s', ParkSave(0));
  }

  /** The call is approved, and its handler started. */
  lemma IsApproved(c: Config, s: Sys, n: nat, prior: seq<ToolCallRow>, closed: seq<ApprovalRow>) returns (s': Sys)
    requires AtPark(c, s, n, prior, closed)
    ensures Reachable(c, s') && s'.jobs == [Running(|closed|)] && s'.db.run == RunRow(RunRunning, 0, false, []) && s'.db.resumes == []
    ensures s'.db.toolCalls == prior + [Open(n - 1).(status := Pending)] && s'.db.approvals == closed + [ApprovalRow(|prior|, Approved)]
    ensures s'.db.checkpoint == s.db.checkpoint && s'.db.continuations == [] && s'.execs == [] && s'.now == 0 && s'.hist.resumed == n - 1
  {
    hide RejectCall, CancelByDecision, Reachable, EndsSmall, TopStep, ModelTurnStep, CheckStopStep, RunCallStep, EndBatchStep, ParkSaveStep,
         StartContinuationStep, FinishHandlerStep, SettleStep, RecoverStalledRun, CancelRun, ExpireApprovals, GetSettlement;
    var a := |closed|;
    s' := StepIsReachable(c, s, Decide(a, Approve));
    assert s'.db.resumes == [ResumeJob(a, false)] && s'.db.approvals == closed + [ApprovalRow(|prior|, Approved)];
    assert s'.db.toolCalls == prior + [Open(n - 1).(status := Pending)];
    s' := StepIsReachable(c, s', StartResume(0));
  }

  /** The handler's result settles the batch of one. */
  lemma IsSettled(c: Config, s: Sys, n: nat, prior: seq<ToolCallRow>, closed: seq<ApprovalRow>) returns (s': Sys)
    requires AtPark(c, s, n, prior, closed)
    ensures Reachable(c, s') && s'.jobs == [Settling(|closed|, Settlement(true, [Done(n - 1)]), true)]
    ensures s'.db.run == RunRow(RunRunning, 0, false, []) && s'.db.resumes == []
    ensures s'.db.toolCalls == prior + [Done(n - 1)] && s'.db.approvals == closed + [ApprovalRow(|prior|, Approved)]
    ensures s'.db.checkpoint == s.db.checkpoint && s'.db.continuations == [] && s'.execs == [] && s'.now == 0 && s'.hist.resumed == n - 1
  {
    hide Reachable, EndsSmall, TopStep, ModelTurnStep, CheckStopStep, RunCallStep, EndBatchStep, ParkSaveStep, StartContinuationStep,
         StartResumeStep, SettleStep, RecoverStalledRun, CancelRun, ExpireApprovals, DecideApproval, GetSettlement;
    s' := IsApproved(c, s, n, prior, closed);
    var before := s';
    s' := StepIsReachable(c, s', FinishHandler(0, true, RehearsedPayload));
    assert s'.db.toolCalls == prior + [Done(n - 1)];
    Parking.SettlementIsTheBatch(s'.db, prior, [Done(n - 1)], n - 1, |closed|);
    assert !StillPending(s'.db.approvals);
  }

  lemma AnswerIsSmall(c: Config, h: seq<Turn>, turn: nat)
    requires ThirtyFit(c) && h != []
    ensures var more := BuildToolInteractionTurns(CallsOfRows([Done(turn)])); EndsSmall(Trim(h + more, c.cap), c.cap) && Storable(Trim(h + more, c.cap), c.cap)
  {
    var calls := CallsOfRows([Done(turn)]);
    assert calls == [CallOfRow(Done(turn))];
    var more := BuildToolInteractionTurns(calls);
    var answers := [ResultPart("t", RehearsedPayload)];
    assert more[1] == Results(answers) && answers[1..] == [] && ResultChars(answers) == 68;
    assert [more[1]][1..] == [] && BodyChars([more[1]]) == 69;
    assert (h + more)[|h + more| - 1] == more[1];
    SmallEndIsStored(h + more, c.cap);
  }

  /** The run is taken up again: one continuation waits, to be segment `n + 1`. */
  lemma IsAnswered(c: Config, s: Sys, n: nat, prior: seq<ToolCallRow>, closed: seq<ApprovalRow>) returns (s': Sys)
    requires ThirtyFit(c) && AtPark(c, s, n, prior, closed)
    ensures Reachable(c, s') && s'.execs == [] && s'.db.continuations == [0] && s'.hist.resumed == n
    ensures Quiescent(s', n + 1, s'.db.toolCalls, s'.db.approvals)
    ensures s'.db.checkpoint.Some? && EndsSmall(s'.db.checkpoint.value.transcript, c.cap)
    ensures s'.db.checkpoint == Some(Checkpoint(Active, s'.db.checkpoint.value.transcript, n, n, n, true, 0, 0))
  {
    hide Reachable, EndsSmall, Trim, Chars, LeftOrphan, BuildToolInteractionTurns, CallsOfRows, Storable, TopStep, ModelTurnStep, CheckStopStep,
         RunCallStep, EndBatchStep, ParkSaveStep, StartContinuationStep, StartResumeStep, FinishHandlerStep, RecoverStalledRun, CancelRun,
         ExpireApprovals, DecideApproval;
    s' := IsSettled(c, s, n, prior, closed);
    NotEmpty(s.db.checkpoint.value.transcript, c.cap);
    AnswerIsSmall(c, s.db.checkpoint.value.transcript, n - 1);
    s' := StepIsReachable(c, s', Settle(0));
  }

  lemma NotEmpty(t: seq<Turn>, cap: nat)
    requires EndsSmall(t, cap)
    ensures t != []
  {
  }

  lemma NextSegment(c: Config, s: Sys, n: nat) returns (s': Sys)
    requires ThirtyFit(c) && AtSegment(c, s, n) && n < 30
    ensures AtSegment(c, s', n + 1)
  {
    hide Reachable, EndsSmall, Trim, Chars, TopStep, ModelTurnStep, CheckStopStep, RunCallStep, EndBatchStep, ParkSaveStep, StartResumeStep,
         FinishHandlerStep, SettleStep, RecoverStalledRun, CancelRun, ExpireApprovals, DecideApproval, Earlier;
    s' := ParksOnOne(c, s, n);
    s' := IsAnswered(c, s', n, s.db.toolCalls, s.db.approvals);
    NotEmpty(s'.db.checkpoint.value.transcript, c.cap);
    s' := StepIsReachable(c, s', StartContinuation(0));
    s' := StepIsReachable(c, s', EnterLoop(0));
  }

  lemma {:induction false} SegmentReached(c: Config, n: nat) returns (s: Sys)
    requires ThirtyFit(c) && 1 <= n <= 30
    ensures AtSegment(c, s, n)
    decreases n
  {
    if n == 1 {
      s := FirstSegment(c);
    } else {
      s := SegmentReached(c, n - 1);
      s := NextSegment(c, s, n - 1);
    }
  }

  lemma FirstSegment(c: Config) returns (s: Sys)
    requires ThirtyFit(c)
    ensures AtSegment(c, s, 1)
  {
    var start := Start(0, 0, false, [Text(User, "")]);
    assert Initial(start);
    StartIsReachable(c, start);
    s := StepIsReachable(c, start, EnterLoop(0));
    assert [Text(User, "")][1..] == [];
  }

  /** Approved thirty times, and then failed by the backstop though its clock has not moved. */
  lemma ThirtyApprovalsFail(c: Config) returns (s: Sys, end: Sys)
    requires ThirtyFit(c)
    ensures Reachable(c, s) && s.db.run.status == RunRunning && Enabled(c, s, StartContinuation(0)) && s.hist.resumed == 30
    ensures end == Apply(c, s, StartContinuation(0)) && Reachable(c, end)
    ensures end.db.run.status == RunFailed && end.now == end.db.run.startedAt && end.db.checkpoint == None
  {
    hide AtPark, EndsSmall;
    var last := SegmentReached(c, 30);
    var parked := ParksOnOne(c, last, 30);
    s := IsAnswered(c, parked, 30, last.db.toolCalls, last.db.approvals);
    end := StepIsReachable(c, s, StartContinuation(0));
  }
}
