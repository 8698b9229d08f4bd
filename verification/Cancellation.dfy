/** What `cancelRun` achieves: the live action starts at most one more call, and the run stays
    cancelled for good exactly when nothing was in flight that writes the status unasked. */
module Cancellation {
  import opened Common
  import opened ToolGate
  import opened Transcript
  import opened RefusalKey
  import opened RunRecords
  import opened RunProtocol
  import opened LeaseExclusion
  import ApprovalSafety

  // ---------------------------------------------------------- at most one further call

  predicate Cleared(e: Exec) { e.phase.Batch? && e.phase.cleared }

  predicate OneMoreCall(s: Sys) {
    s.db.run.status == RunCancelled ==>
      s.hist.sinceCancel + (if s.execs != [] && Cleared(s.execs[0]) then 1 else 0) <= 1 + s.hist.handlersSince
  }

  lemma OneMoreActionStep(c: Config, s: Sys, e: Event)
    requires Lease(c, s) && OneMoreCall(s) && Enabled(c, s, e) && OfAction(e)
    requires e.WriteFinal? ==> s.execs[e.i].phase.outcome != RunCancelled
    ensures OneMoreCall(Apply(c, s, e))
  {
    hide FateOf, Trim, Chars, LeftOrphan, BuildToolInteractionTurns;
    assert s.execs == [s.execs[0]];
  }

  lemma OneMoreOtherStep(c: Config, s: Sys, e: Event)
    requires Lease(c, s) && OneMoreCall(s) && Enabled(c, s, e) && !OfAction(e)
    ensures OneMoreCall(Apply(c, s, e))
  {
    hide CloseApprovals, CancelCalls, CancelWaiting, PatchCall, AppendRefusedToolCall, BuildRefusedToolCallKey, RowsOfTurn, TakeRows, Trim, Chars,
         LeftOrphan, CallsOfRows, BuildToolInteractionTurns;
  }

  predicate OutcomesDecided(s: Sys) {
    forall i :: 0 <= i < |s.execs| && s.execs[i].phase.Finishing? ==> s.execs[i].phase.outcome in {RunSuccess, RunFailed}
  }

  lemma OutcomesActionStep(c: Config, s: Sys, e: Event)
    requires OutcomesDecided(s) && Enabled(c, s, e) && OfAction(e)
    ensures OutcomesDecided(Apply(c, s, e))
  {
    hide FateOf, Trim, Chars, LeftOrphan, BuildToolInteractionTurns, LoopSave, StartContinuationStep, StartResumeStep, FinishHandlerStep,
         SettleStep, RecoverStalledRun, CancelRun, DecideApproval, ExpireApprovals;
  }

  lemma OutcomesStep(c: Config, s: Sys, e: Event)
    requires OutcomesDecided(s) && Enabled(c, s, e)
    ensures OutcomesDecided(Apply(c, s, e))
  {
    hide TopStep, ModelTurnStep, CheckStopStep, RunCallStep, EndBatchStep, ParkSaveStep, CancelRun, DecideApproval, ExpireApprovals,
         RecoverStalledRun, SettleBatchAndContinue, UpdateRunStatus;
    if OfAction(e) {
      OutcomesActionStep(c, s, e);
    }
  }

  lemma {:induction false} OneMoreAlways(c: Config, s: Sys, run: seq<Event>)
    requires MarginHolds(c) && Lease(c, s) && OneMoreCall(s) && OutcomesDecided(s) && Valid(c, s, run)
    ensures OneMoreCall(Replay(c, s, run))
    decreases |run|
  {
    hide Lease, OneMoreCall, Apply;
    if run != [] {
      if OfAction(run[0]) {
        OneMoreActionStep(c, s, run[0]);
      } else {
        OneMoreOtherStep(c, s, run[0]);
      }
      OutcomesStep(c, s, run[0]);
      LeaseStep(c, s, run[0]);
      OneMoreAlways(c, Apply(c, s, run[0]), run[1..]);
    }
  }

  /** While a run is cancelled, the loop has started at most one call since the cancellation; every
      other call started since is an approved one, started by its resume. */
  lemma LoopStartsAtMostOneCall(c: Config, s: Sys)
    requires MarginHolds(c) && Reachable(c, s)
    ensures s.db.run.status == RunCancelled ==> s.hist.sinceCancel <= 1 + s.hist.handlersSince
  {
    var start, run :| Initial(start) && Valid(c, start, run) && Replay(c, start, run) == s;
    OneMoreAlways(c, start, run);
  }

  // --------------------------------------------------------------- leaving CANCELLED

  predicate LeavesNonePending(db: Db, a: nat) {
    forall i :: 0 <= i < |db.approvals| && i != a ==> db.approvals[i].status != AwaitingDecision
  }

  /** The only steps that take a run out of CANCELLED: a last approval or rejection, and the
      answer to a settled batch. No step of the loop, a handover, the sweeper, a continuation
      or another cancellation does. */
  lemma LeavesCancelledExactly(c: Config, s: Sys, e: Event)
    requires s.db.run.status == RunCancelled && Enabled(c, s, e)
    ensures Apply(c, s, e).db.run.status != RunCancelled <==>
            || (e.Decide? && !e.decision.CancelDecision? && LeavesNonePending(s.db, e.a))
            || (e.Settle? && s.jobs[e.k].settlement.settled)
  {
    hide FateOf, Trim, Chars, LeftOrphan, BuildToolInteractionTurns, CallsOfRows, CloseApprovals, CancelCalls,
         CancelWaiting, PatchCall, RowsOfTurn, TakeRows, AppendRefusedToolCall, BuildRefusedToolCallKey;
    if e.Decide? {
      PendingAfter(s.db, e.a, Approved);
      PendingAfter(s.db, e.a, Rejected);
    }
  }

  lemma PendingAfter(db: Db, a: nat, status: ApprovalStatus)
    requires a < |db.approvals| && status != AwaitingDecision
    ensures StillPending(db.approvals[a := ApprovalRow(db.approvals[a].toolCall, status)]) <==> !LeavesNonePending(db, a)
  {
    var after := db.approvals[a := ApprovalRow(db.approvals[a].toolCall, status)];
    if i :| 0 <= i < |db.approvals| && i != a && db.approvals[i].status == AwaitingDecision {
      assert after[i].status == AwaitingDecision;
    }
  }

  // ------------------------------------------------------- when a cancellation is final

  /** An action past its last look at the status, about to take up a call that may be queued. */
  predicate MayQueue(s: Sys, e: Exec) {
    && e.phase.Batch? && e.phase.cleared && e.phase.next < |e.phase.calls|
    && !s.db.run.isRehearsal && e.phase.calls[e.phase.next].args.Obj? && !WasRefused(e, e.phase.calls[e.phase.next])
  }

  /** Work already under way that will write the run's status without reading it. */
  ghost predicate InFlight(s: Sys) {
    || s.jobs != []
    || (exists k :: 0 <= k < |s.db.resumes| && s.db.resumes[k].refused)
    || (exists i :: 0 <= i < |s.execs| && MayQueue(s, s.execs[i]))
  }

  /** No approved call is still waiting to be executed. */
  ghost predicate NoneToRun(rows: seq<ToolCallRow>) {
    forall i :: 0 <= i < |rows| ==> rows[i].status != Pending
  }

  ghost predicate Sealed(s: Sys) {
    && s.db.run.status == RunCancelled && s.jobs == []
    && (forall i :: 0 <= i < |s.db.approvals| ==> s.db.approvals[i].status != AwaitingDecision)
    && NoneToRun(s.db.toolCalls)
    && (forall k :: 0 <= k < |s.db.resumes| ==> !s.db.resumes[k].refused)
    && (forall i :: 0 <= i < |s.execs| ==> !MayQueue(s, s.execs[i]))
  }

  lemma SealedCall(c: Config, s: Sys, i: nat, facts: CallFacts)
    requires Sealed(s) && Enabled(c, s, RunCall(i, facts))
    ensures Sealed(RunCallStep(s, i, facts))
  {
    hide WasRefused;
  }

  lemma SealedActionStep(c: Config, s: Sys, e: Event)
    requires Sealed(s) && Enabled(c, s, e) && OfAction(e)
    ensures Sealed(Apply(c, s, e))
  {
    hide WasRefused, LoopSave, RunCallStep, Trim, Chars, LeftOrphan, BuildToolInteractionTurns, StartContinuationStep, StartResumeStep, FinishHandlerStep, SettleStep, RecoverStalledRun,
         CancelRun, DecideApproval, ExpireApprovals;
    if e.RunCall? {
      SealedCall(c, s, e.i, e.facts);
    }
  }

  lemma SealedOtherStep(c: Config, s: Sys, e: Event)
    requires Sealed(s) && Enabled(c, s, e) && !OfAction(e)
    ensures Sealed(Apply(c, s, e))
  {
    hide WasRefused, CancelRun, DecideApproval, ExpireApprovals, Chars, RowsOfTurn, TakeRows;
  }

  lemma {:induction false} SealedAlways(c: Config, s: Sys, run: seq<Event>)
    requires Sealed(s) && Valid(c, s, run)
    ensures Replay(c, s, run).db.run.status == RunCancelled
    decreases |run|
  {
    hide Sealed, Apply;
    if run != [] {
      if OfAction(run[0]) {
        SealedActionStep(c, s, run[0]);
      } else {
        SealedOtherStep(c, s, run[0]);
      }
      SealedAlways(c, Apply(c, s, run[0]), run[1..]);
    } else {
      SealedMeansCancelled(s);
    }
  }

  lemma SealedMeansCancelled(s: Sys)
    requires Sealed(s)
    ensures s.db.run.status == RunCancelled
  {
  }

  function Undecided(approvals: seq<ApprovalRow>): nat {
    if approvals == [] then 0
    else (if approvals[0].status == AwaitingDecision then 1 else 0) + Undecided(approvals[1..])
  }

  function Unfinished(rows: seq<ToolCallRow>): nat {
    if rows == [] then 0
    else (if rows[0].status in {Pending, ApprovalRequired} then 1 else 0) + Unfinished(rows[1..])
  }

  lemma {:induction false} AllClosed(approvals: seq<ApprovalRow>, limit: nat)
    requires Undecided(approvals) <= limit
    ensures var r := CloseApprovals(approvals, ApprovalCancelled, limit);
            forall i :: 0 <= i < |r| ==> r[i].status != AwaitingDecision
  {
    if approvals != [] {
      var left := if approvals[0].status == AwaitingDecision then limit - 1 else limit;
      AllClosed(approvals[1..], left);
      var r := CloseApprovals(approvals, ApprovalCancelled, limit);
      assert r[1..] == CloseApprovals(approvals[1..], ApprovalCancelled, left);
      assert forall i :: 0 < i < |r| ==> r[i] == r[1..][i - 1];
    }
  }

  lemma {:induction false} AllCancelled(rows: seq<ToolCallRow>, limit: nat)
    requires Unfinished(rows) <= limit
    ensures NoneToRun(CancelCalls(rows, limit))
  {
    if rows != [] {
      var left := if rows[0].status in {Pending, ApprovalRequired} then limit - 1 else limit;
      AllCancelled(rows[1..], left);
      var r := CancelCalls(rows, limit);
      assert r[1..] == CancelCalls(rows[1..], left);
      assert forall i :: 0 < i < |r| ==> r[i] == r[1..][i - 1];
    }
  }

  // ------------------------------------------------------ what a cancellation leaves, row by row

  lemma {:induction false} ApprovalClosed(approvals: seq<ApprovalRow>, status: ApprovalStatus, limit: nat, i: nat)
    requires i < |approvals|
    ensures CloseApprovals(approvals, status, limit)[i] ==
              if approvals[i].status == AwaitingDecision && Undecided(approvals[..i]) < limit then approvals[i].(status := status)
              else approvals[i]
  {
    if i > 0 {
      var left := if approvals[0].status == AwaitingDecision && limit > 0 then limit - 1 else limit;
      ApprovalClosed(approvals[1..], status, left, i - 1);
      assert approvals[..i][1..] == approvals[1..][..i - 1];
    }
  }

  lemma {:induction false} CallCancelled(rows: seq<ToolCallRow>, limit: nat, i: nat)
    requires i < |rows|
    ensures CancelCalls(rows, limit)[i] ==
              if rows[i].status in {Pending, ApprovalRequired} && Unfinished(rows[..i]) < limit then rows[i].(status := Cancelled) else rows[i]
  {
    if i > 0 {
      var left := if rows[0].status in {Pending, ApprovalRequired} && limit > 0 then limit - 1 else limit;
      CallCancelled(rows[1..], left, i - 1);
      assert rows[..i][1..] == rows[1..][..i - 1];
    }
  }

  /**
   * What one cancellation leaves: the run CANCELLED; each request among the first five hundred still open
   * cancelled, with everything else of it as it was; each call among the first five hundred waiting or
   * approved but not run likewise; every other row, the position and the queues untouched.
   */
  lemma CancelledRowByRow(c: Config, s: Sys)
    requires Enabled(c, s, Cancel)
    ensures var db := Apply(c, s, Cancel).db;
            && db == s.db.(run := s.db.run.(status := RunCancelled), approvals := db.approvals, toolCalls := db.toolCalls)
            && |db.approvals| == |s.db.approvals| && |db.toolCalls| == |s.db.toolCalls|
            && (forall i :: 0 <= i < |db.approvals| ==>
                  db.approvals[i] == if s.db.approvals[i].status == AwaitingDecision && Undecided(s.db.approvals[..i]) < 500
                                     then ApprovalRow(s.db.approvals[i].toolCall, ApprovalCancelled) else s.db.approvals[i])
            && (forall i :: 0 <= i < |db.toolCalls| ==>
                  var row := s.db.toolCalls[i];
                  db.toolCalls[i] == if row.status in {Pending, ApprovalRequired} && Unfinished(s.db.toolCalls[..i]) < 500
                                     then ToolCallRow(row.name, row.args, row.result, Cancelled, row.turnIndex, row.signature) else row)
  {
    forall i | 0 <= i < |s.db.approvals|
      ensures CloseApprovals(s.db.approvals, ApprovalCancelled, 500)[i] ==
                if s.db.approvals[i].status == AwaitingDecision && Undecided(s.db.approvals[..i]) < 500
                then ApprovalRow(s.db.approvals[i].toolCall, ApprovalCancelled) else s.db.approvals[i]
    {
      ApprovalClosed(s.db.approvals, ApprovalCancelled, 500, i);
    }
    forall i | 0 <= i < |s.db.toolCalls|
      ensures CancelCalls(s.db.toolCalls, 500)[i] ==
                if s.db.toolCalls[i].status in {Pending, ApprovalRequired} && Unfinished(s.db.toolCalls[..i]) < 500
                then s.db.toolCalls[i].(status := Cancelled) else s.db.toolCalls[i]
    {
      CallCancelled(s.db.toolCalls, 500, i);
    }
  }

  /** Queued refusals and running resumes refer to decided approvals, as every reachable state has it. */
  ghost predicate ResumesWellFormed(s: Sys) {
    && (forall k :: 0 <= k < |s.db.resumes| && s.db.resumes[k].refused ==>
          s.db.resumes[k].approval < |s.db.approvals| && s.db.approvals[s.db.resumes[k].approval].status == Rejected)
    && (forall k :: 0 <= k < |s.jobs| ==>
          s.jobs[k].approval < |s.db.approvals| && (s.jobs[k].Settling? ==> s.jobs[k].settlement.settled))
  }

  ghost predicate Escapes(c: Config, s: Sys) {
    exists run :: Valid(c, s, run) && Replay(c, s, run).db.run.status != RunCancelled
  }

  lemma EscapesInOne(c: Config, s: Sys, e: Event)
    requires Enabled(c, s, e) && Apply(c, s, e).db.run.status != RunCancelled
    ensures Escapes(c, s)
  {
    var s' := Apply(c, s, e);
    assert Valid(c, s', []) && Replay(c, s', []) == s';
    assert [e][1..] == [];
    assert Valid(c, s, [e]) && Replay(c, s, [e]) == s';
  }

  lemma EscapesInMore(c: Config, s: Sys, e: Event)
    requires Enabled(c, s, e) && Escapes(c, Apply(c, s, e))
    ensures Escapes(c, s)
  {
    hide Apply, Enabled;
    var run :| Valid(c, Apply(c, s, e), run) && Replay(c, Apply(c, s, e), run).db.run.status != RunCancelled;
    var longer := [e] + run;
    assert longer[1..] == run;
    assert Valid(c, s, longer) && Replay(c, s, longer) == Replay(c, Apply(c, s, e), run);
  }

  /** The last call of the batch is queued after the cancellation, and someone approves it. */
  lemma QueuedCallEscapes(c: Config, s: Sys, i: nat)
    requires s.db.run.status == RunCancelled && i < |s.execs| && MayQueue(s, s.execs[i])
    requires forall a :: 0 <= a < |s.db.approvals| ==> s.db.approvals[a].status != AwaitingDecision
    ensures Escapes(c, s)
  {
    hide WasRefused;
    var facts := CallFacts(Validation(true, ""), Some(ToolMetadata(Write, true, false)), Refused(ConfirmationRequired),
                           Outcome(Failed, RehearsedPayload));
    var queue, decide := RunCall(i, facts), Decide(|s.db.approvals|, Approve);
    var s' := Apply(c, s, queue);
    assert FateOf(s, s.execs[i], s.execs[i].phase.calls[s.execs[i].phase.next], facts).Queue?;
    assert s'.db.approvals == s.db.approvals + [ApprovalRow(|s.db.toolCalls|, AwaitingDecision)];
    LeavesCancelledExactly(c, s', decide);
    EscapesInOne(c, s', decide);
    EscapesInMore(c, s, queue);
  }

  lemma SettlingEscapes(c: Config, s: Sys, k: nat)
    requires s.db.run.status == RunCancelled && k < |s.jobs| && s.jobs[k].Settling? && s.jobs[k].settlement.settled
    ensures Escapes(c, s)
  {
    LeavesCancelledExactly(c, s, Settle(k));
    EscapesInOne(c, s, Settle(k));
  }

  lemma RunningHandlerEscapes(c: Config, s: Sys, k: nat)
    requires s.db.run.status == RunCancelled && k < |s.jobs| && s.jobs[k].Running? && s.jobs[k].approval < |s.db.approvals|
    requires !StillPending(s.db.approvals)
    ensures Escapes(c, s)
  {
    var finish := FinishHandler(k, true, RehearsedPayload);
    var s' := Apply(c, s, finish);
    assert s'.jobs[k].Settling? && s'.jobs[k].settlement.settled;
    SettlingEscapes(c, s', k);
    EscapesInMore(c, s, finish);
  }

  lemma QueuedRefusalEscapes(c: Config, s: Sys, k: nat)
    requires s.db.run.status == RunCancelled && k < |s.db.resumes| && s.db.resumes[k].refused
    requires s.db.resumes[k].approval < |s.db.approvals| && s.db.approvals[s.db.resumes[k].approval].status == Rejected
    requires !StillPending(s.db.approvals)
    ensures Escapes(c, s)
  {
    var start := StartResume(k);
    var s' := Apply(c, s, start);
    assert s'.jobs[|s.jobs|].Settling? && s'.jobs[|s.jobs|].settlement.settled;
    SettlingEscapes(c, s', |s.jobs|);
    EscapesInMore(c, s, start);
  }

  lemma AfterCancel(c: Config, s: Sys)
    requires IsCancelable(s.db.run.status)
    requires Undecided(s.db.approvals) <= AGENT_RUN_DETAIL_LIMIT && Unfinished(s.db.toolCalls) <= AGENT_RUN_DETAIL_LIMIT
    ensures var s' := Apply(c, s, Cancel);
            && s'.execs == s.execs && s'.jobs == s.jobs && s'.db.resumes == s.db.resumes
            && s'.db.run == s.db.run.(status := RunCancelled)
            && |s'.db.approvals| == |s.db.approvals|
            && (forall i :: 0 <= i < |s.db.approvals| ==>
                  && s'.db.approvals[i].status != AwaitingDecision
                  && (s.db.approvals[i].status != AwaitingDecision ==> s'.db.approvals[i] == s.db.approvals[i]))
            && NoneToRun(s'.db.toolCalls)
  {
    var s' := Apply(c, s, Cancel);
    assert s'.db.approvals == CloseApprovals(s.db.approvals, ApprovalCancelled, AGENT_RUN_DETAIL_LIMIT);
    assert s'.db.toolCalls == CancelCalls(s.db.toolCalls, AGENT_RUN_DETAIL_LIMIT);
    AllClosed(s.db.approvals, AGENT_RUN_DETAIL_LIMIT);
    AllCancelled(s.db.toolCalls, AGENT_RUN_DETAIL_LIMIT);
  }

  lemma NothingInFlightIsFinal(c: Config, s: Sys)
    requires Sealed(s)
    ensures !Escapes(c, s)
  {
    hide Sealed;
    forall run | Valid(c, s, run)
      ensures Replay(c, s, run).db.run.status == RunCancelled
    {
      SealedAlways(c, s, run);
    }
  }

  /**
   * A cancellation is final, whatever happens afterwards, exactly when nothing was in flight:
   * no resume action running, no refusal waiting to be answered, and no live action between
   * its stop check and a call it may still queue. (One cancellation reaches five hundred
   * waiting rows of each kind.)
   */
  lemma CancelIsFinalExactly(c: Config, s: Sys)
    requires IsCancelable(s.db.run.status) && ResumesWellFormed(s)
    requires Undecided(s.db.approvals) <= AGENT_RUN_DETAIL_LIMIT && Unfinished(s.db.toolCalls) <= AGENT_RUN_DETAIL_LIMIT
    ensures !Escapes(c, Apply(c, s, Cancel)) <==> !InFlight(s)
  {
    hide WasRefused, Apply, Escapes, Undecided, Unfinished;
    var s' := Apply(c, s, Cancel);
    AfterCancel(c, s);
    if !InFlight(s) {
      NothingInFlightIsFinal(c, s');
    } else if s.jobs != [] {
      if s.jobs[0].Settling? {
        SettlingEscapes(c, s', 0);
      } else {
        RunningHandlerEscapes(c, s', 0);
      }
    } else if k :| 0 <= k < |s.db.resumes| && s.db.resumes[k].refused {
      QueuedRefusalEscapes(c, s', k);
    } else {
      var i :| 0 <= i < |s.execs| && MayQueue(s, s.execs[i]);
      QueuedCallEscapes(c, s', i);
    }
  }

  lemma ReachableResumes(c: Config, s: Sys)
    requires Reachable(c, s)
    ensures ResumesWellFormed(s)
  {
    var start, run :| Initial(start) && Valid(c, start, run) && Replay(c, start, run) == s;
    ApprovalSafety.OnceAlways(c, start, run);
    forall k | 0 <= k < |s.jobs|
      ensures s.jobs[k].approval < |s.db.approvals| && (s.jobs[k].Settling? ==> s.jobs[k].settlement.settled)
    {
      assert ApprovalSafety.JobFits(s.jobs[k], |s.db.approvals|);
    }
  }
}
