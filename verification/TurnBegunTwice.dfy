/** A turn begun twice: an action dies after answering a call of the turn, the revived one puts a call of
    the same turn to a person, and the answer holds both attempts' rows
    (convex/agentRunApprovals.ts:499-508, convex/agentRunCheckpoints.ts:193-220). */
module TurnBegunTwice {
  import opened Common
  import opened ToolGate
  import opened Transcript
  import opened RefusalKey
  import opened RunRecords
  import opened RunProtocol
  import opened LeaseExclusion
  import opened ForgottenRevivals

  /** What the first attempt wrote before it died, and what the second asks for. */
  const FIRST := SettledRow(SOME_CALL, Outcome(Denied, DENIED.payload), 1)

  const SECOND := GatedRow(SOME_CALL, 1)

  /** The second attempt of turn 1 has put its one call to a person. */
  lemma AskedAgain(c: Config, t: seq<Turn>) returns (s: Sys)
    requires Roomy(c) && StoredWhole(c, t)
    ensures Reachable(c, s) && Holding(s, Batch([SOME_CALL], 1, false, [], 1), 2, 1) && s.db.resumes == []
    ensures |s.db.toolCalls| == 3 && s.db.toolCalls[0].turnIndex == 0 && s.db.toolCalls[1..] == [FIRST, SECOND]
    ensures s.db.approvals == [ApprovalRow(2, AwaitingDecision)] && s.execs[0].transcript == t
    ensures s.db.checkpoint.Some? && s.db.checkpoint.value.loopIndex == 1
  {
    hide Trim, Chars, Apply, Enabled;
    s := FirstTurnSaved(c, t);
    s := Ask(c, s, [SOME_CALL], 1, 1);
    s := SpendOne(c, s, Batch([SOME_CALL], 0, false, [], 0), 1, 1);
    s := DieAndRevive(c, s, Batch([SOME_CALL], 1, false, [DENIED], 0), 2, 1);
    s := Ask(c, s, [SOME_CALL], 1, 1);
    s := QueueOne(c, s, Batch([SOME_CALL], 0, false, [], 0), 1, 1);
  }

  /** It parks. */
  lemma ParkedAgain(c: Config, t: seq<Turn>) returns (s: Sys)
    requires Roomy(c) && StoredWhole(c, t)
    ensures Reachable(c, s) && s.execs == [] && s.jobs == [] && s.db.resumes == [] && s.db.approvals == [ApprovalRow(2, AwaitingDecision)]
    ensures |s.db.toolCalls| == 3 && s.db.toolCalls[0].turnIndex == 0 && s.db.toolCalls[1..] == [FIRST, SECOND]
    ensures CanContinue(s.db) && s.db.checkpoint.value.loopIndex == 2
  {
    hide Trim, Chars, BuildToolInteractionTurns, DecideApproval, RunCallStep, SettleStep, CancelRun, ExpireApprovals, RecoverStalledRun;
    s := AskedAgain(c, t);
    s := StepIsReachable(c, s, EndBatch(0));
    s := StepIsReachable(c, s, ParkSave(0));
  }

  /** The request is approved. */
  lemma DecidedAgain(c: Config, t: seq<Turn>) returns (s: Sys)
    requires Roomy(c) && StoredWhole(c, t)
    ensures Reachable(c, s) && s.execs == [] && s.jobs == [] && s.db.resumes == [ResumeJob(0, false)]
    ensures s.db.approvals == [ApprovalRow(2, Approved)]
    ensures |s.db.toolCalls| == 3 && s.db.toolCalls[0].turnIndex == 0 && s.db.toolCalls[1..] == [FIRST, SECOND.(status := Pending)]
    ensures CanContinue(s.db) && s.db.checkpoint.value.loopIndex == 2
  {
    hide RejectCall, CancelByDecision, TopStep, ModelTurnStep, CheckStopStep, RunCallStep, EndBatchStep, ParkSaveStep, SettleStep,
         StartContinuationStep, StartResumeStep, FinishHandlerStep, CancelRun, ExpireApprovals, RecoverStalledRun, Reachable;
    s := ParkedAgain(c, t);
    var before := s;
    s := StepIsReachable(c, s, Decide(0, Approve));
    assert before.db.toolCalls[2] == before.db.toolCalls[1..][1];
    assert s.db.approvals == [ApprovalRow(2, Approved)] && s.db.resumes == [ResumeJob(0, false)];
  }

  /** Its handler is started. */
  lemma ApprovedAgain(c: Config, t: seq<Turn>) returns (s: Sys)
    requires Roomy(c) && StoredWhole(c, t)
    ensures Reachable(c, s) && s.execs == [] && s.jobs == [Running(0)] && s.db.approvals == [ApprovalRow(2, Approved)]
    ensures |s.db.toolCalls| == 3 && s.db.toolCalls[0].turnIndex == 0 && s.db.toolCalls[1..] == [FIRST, SECOND.(status := Pending)]
    ensures CanContinue(s.db) && s.db.checkpoint.value.loopIndex == 2
  {
    hide TopStep, ModelTurnStep, CheckStopStep, RunCallStep, EndBatchStep, ParkSaveStep, SettleStep, StartContinuationStep,
         FinishHandlerStep, CancelRun, DecideApproval, ExpireApprovals, RecoverStalledRun, GetSettlement, Reachable;
    s := DecidedAgain(c, t);
    assert s.db.toolCalls[2] == s.db.toolCalls[1..][1];
    s := StepIsReachable(c, s, StartResume(0));
  }

  lemma BothOfTurn(rows: seq<ToolCallRow>, row: ToolCallRow)
    requires |rows| == 3 && rows[0].turnIndex == 0 && rows[1..] == [FIRST, row] && row.turnIndex == 1
    ensures RowsOfTurn(rows, 1) == [FIRST, row]
  {
    assert rows[1..][1..] == [row] && rows[1..][1..][1..] == [];
    assert RowsOfTurn(rows[1..][1..], 1) == [row];
  }

  /**
   * The batch asked for has one call. Its settlement has two: the first attempt's row comes back with
   * the second's, and the conversation answers both.
   */
  lemma BothAttemptsAnswered(c: Config) returns (s: Sys)
    requires Roomy(c)
    ensures Reachable(c, s) && CanContinue(s.db) && s.db.checkpoint.value.loopIndex == 2 && |s.jobs| == 1
    ensures s.jobs[0] == Settling(0, Settlement(true, [FIRST, SECOND.(status := Success, result := Some(RehearsedPayload))]), true)
  {
    hide RowsOfTurn, Trim, Chars;
    var t := OneTurnIsSmall(c);
    s := ApprovedAgain(c, t);
    var row := SECOND.(status := Success, result := Some(RehearsedPayload));
    var before := s;
    s := StepIsReachable(c, s, FinishHandler(0, true, RehearsedPayload));
    assert before.db.toolCalls[2] == before.db.toolCalls[1..][1] && s.db.toolCalls == before.db.toolCalls[2 := row];
    BothOfTurn(s.db.toolCalls, row);
  }
}
