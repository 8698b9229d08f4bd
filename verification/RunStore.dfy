/** The mutations that own a run's rows, patching them in place. Each is tied to the
    function of `RunRecords` that says what the whole record becomes
    (convex/agentRuns.ts, convex/agentRunCheckpoints.ts, convex/agentRunApprovals.ts). */
module RunStore {
  import opened Common
  import opened Transcript
  import opened ToolGate
  import opened RefusalKey
  import opened RunRecords

  datatype DecideResult = Decided | NotFound | Conflict

  class Store {
    var run: RunRow
    var checkpoint: Option<Checkpoint>
    var toolCalls: seq<ToolCallRow>
    var approvals: seq<ApprovalRow>
    var continuations: seq<int>
    var resumes: seq<ResumeJob>

    ghost function Rows(): Db
      reads this
    {
      Db(run, checkpoint, toolCalls, approvals, continuations, resumes)
    }

    constructor (startedAt: int, isRehearsal: bool)
      ensures Rows() == Db(RunRow(RunRunning, startedAt, isRehearsal, []), None, [], [], [], [])
    {
      run := RunRow(RunRunning, startedAt, isRehearsal, []);
      checkpoint := None;
      toolCalls, approvals, continuations, resumes := [], [], [], [];
    }

    // -------------------------------------------------------------------- checkpoint

    method SaveCheckpointInternal(save: Save, now: int)
      modifies this
      ensures Rows() == SaveCheckpoint(old(Rows()), save, now)
    {
      if checkpoint.Some? {
        var existing := checkpoint.value;
        checkpoint := Some(existing.(status := save.status, transcript := save.transcript,
          loopIndex := save.loopIndex, toolCallCount := save.toolCallCount,
          segmentCount := save.segmentCount, threaded := save.threaded, updatedAt := now));
      } else {
        checkpoint := Some(Checkpoint(save.status, save.transcript, save.loopIndex, save.toolCallCount,
                                      save.segmentCount, save.threaded, 0, now));
      }
    }

    method ClearCheckpointInternal()
      modifies this
      ensures Rows() == ClearCheckpoint(old(Rows()))
    {
      if checkpoint.Some? {
        checkpoint := None;
      }
    }

    /** One sweep, as this run experiences it. */
    method RecoverStalledRuns(now: int) returns (examined: nat)
      modifies this
      ensures Rows() == RecoverStalledRun(old(Rows()), now)
      ensures examined == if IsStalled(old(Rows()), now) then 1 else 0
    {
      examined := 0;
      if checkpoint.Some? && checkpoint.value.status == Active
         && checkpoint.value.updatedAt < now - AGENT_RUN_STALL_MS {
        examined := 1;
        if run.status != RunRunning {
          checkpoint := None;
          return;
        }
        var decision := DecideStalledRunAction(checkpoint.value.updatedAt, now,
          checkpoint.value.resumeAttempts, Chars(checkpoint.value.transcript) > 0);
        if decision == Wait {
          return;
        }
        if decision == Resume {
          checkpoint := Some(checkpoint.value.(resumeAttempts := checkpoint.value.resumeAttempts + 1, updatedAt := now));
          continuations := continuations + [now];
          return;
        }
        run := run.(status := RunFailed);
        checkpoint := None;
      }
    }

    method ScheduleContinuation(now: int)
      modifies this
      ensures Rows() == old(Rows()).(continuations := old(continuations) + [now])
    {
      continuations := continuations + [now];
    }

    // ------------------------------------------------------------------------ status

    method UpdateRunStatusInternal(status: RunStatus)
      modifies this
      ensures Rows() == UpdateRunStatus(old(Rows()), status)
    {
      if run.status == RunCancelled && status != RunCancelled {
        return;
      }
      run := run.(status := status);
    }

    /** Patches the first `limit` undecided approvals. */
    method PatchPendingApprovals(status: ApprovalStatus, limit: nat)
      modifies this`approvals
      ensures approvals == CloseApprovals(old(approvals), status, limit)
    {
      ghost var before, closed := approvals, CloseApprovals(approvals, status, limit);
      var i, left := 0, limit;
      while i < |approvals|
        invariant 0 <= i <= |approvals| == |before| == |closed|
        invariant approvals[..i] == closed[..i] && approvals[i..] == before[i..]
        invariant closed[i..] == CloseApprovals(before[i..], status, left)
      {
        assert before[i..][1..] == before[i + 1..] && closed[i..][1..] == closed[i + 1..];
        assert approvals[i] == approvals[i..][0] == before[i] && closed[i] == closed[i..][0];
        if approvals[i].status == AwaitingDecision && left > 0 {
          approvals := approvals[i := approvals[i].(status := status)];
          left := left - 1;
        }
        assert approvals[i] == closed[i];
        i := i + 1;
      }
    }

    method PatchPendingToolCalls(limit: nat)
      modifies this`toolCalls
      ensures toolCalls == CancelCalls(old(toolCalls), limit)
    {
      ghost var before, cancelled := toolCalls, CancelCalls(toolCalls, limit);
      var i, left := 0, limit;
      while i < |toolCalls|
        invariant 0 <= i <= |toolCalls| == |before| == |cancelled|
        invariant toolCalls[..i] == cancelled[..i] && toolCalls[i..] == before[i..]
        invariant cancelled[i..] == CancelCalls(before[i..], left)
      {
        assert before[i..][1..] == before[i + 1..] && cancelled[i..][1..] == cancelled[i + 1..];
        assert toolCalls[i] == toolCalls[i..][0] == before[i] && cancelled[i] == cancelled[i..][0];
        if toolCalls[i].status in {Pending, ApprovalRequired} && left > 0 {
          toolCalls := toolCalls[i := toolCalls[i].(status := Cancelled)];
          left := left - 1;
        }
        assert toolCalls[i] == cancelled[i];
        i := i + 1;
      }
    }

    method CancelRunByAdmin() returns (accepted: bool)
      modifies this
      ensures accepted <==> IsCancelable(old(run).status)
      ensures Rows() == CancelRun(old(Rows()))
    {
      accepted := IsCancelable(run.status);
      if accepted {
        PatchPendingApprovals(ApprovalCancelled, AGENT_RUN_DETAIL_LIMIT);
        PatchPendingToolCalls(AGENT_RUN_DETAIL_LIMIT);
        run := run.(status := RunCancelled);
      }
    }

    // --------------------------------------------------------------------- tool calls

    method InsertToolCallInternal(row: ToolCallRow) returns (id: nat)
      modifies this`toolCalls
      ensures id == |old(toolCalls)|
      ensures Rows() == InsertToolCall(old(Rows()), row)
    {
      id := |toolCalls|;
      toolCalls := toolCalls + [row];
    }

    method InsertApprovalInternal(toolCallId: nat)
      modifies this`approvals
      ensures approvals == old(approvals) + [ApprovalRow(toolCallId, AwaitingDecision)]
    {
      approvals := approvals + [ApprovalRow(toolCallId, AwaitingDecision)];
    }

    // ---------------------------------------------------------------------- approvals

    method QueryStillPending() returns (pending: bool)
      ensures pending == StillPending(approvals)
    {
      var i := 0;
      while i < |approvals|
        invariant 0 <= i <= |approvals|
        invariant forall j :: 0 <= j < i ==> approvals[j].status != AwaitingDecision
      {
        if approvals[i].status == AwaitingDecision {
          return true;
        }
        i := i + 1;
      }
      return false;
    }

    method PatchToolCall(i: nat, status: CallStatus, result: Option<Payload>)
      modifies this`toolCalls
      ensures toolCalls == PatchCall(old(toolCalls), i, status, result)
    {
      if i < |toolCalls| {
        var row := toolCalls[i].(status := status);
        if result.Some? {
          row := row.(result := result);
        }
        toolCalls := toolCalls[i := row];
      }
    }

    /** A queued resume is picked up by the scheduler. */
    method TakeResume(k: nat) returns (job: ResumeJob)
      requires k < |resumes|
      modifies this`resumes
      ensures job == old(resumes)[k] && resumes == old(resumes)[..k] + old(resumes)[k + 1..]
    {
      job := resumes[k];
      resumes := resumes[..k] + resumes[k + 1..];
    }

    method RunWhenNothingPending()
      modifies this`run
      ensures Rows() == RunIfNothingPending(old(Rows()))
    {
      var pending := QueryStillPending();
      if !pending {
        run := run.(status := RunRunning);
      }
    }

    method ApproveToolCall(a: nat)
      requires CanDecide(Rows(), a)
      modifies this
      ensures Rows() == DecideApproval(old(Rows()), a, Approve)
    {
      var t := approvals[a].toolCall;
      approvals := approvals[a := approvals[a].(status := Approved)];
      PatchToolCall(t, Pending, None);
      resumes := resumes + [ResumeJob(a, false)];
      RunWhenNothingPending();
    }

    method RejectToolCall(a: nat, reason: string)
      requires CanDecide(Rows(), a)
      modifies this
      ensures Rows() == DecideApproval(old(Rows()), a, Reject(reason))
    {
      var t := approvals[a].toolCall;
      approvals := approvals[a := approvals[a].(status := Rejected)];
      var refusal := RefusalPayload(toolCalls, t, reason);
      if t < |toolCalls| {
        var key := BuildRefusedToolCallKey(toolCalls[t].name, Readable(toolCalls[t].args));
        run := run.(refused := AppendRefusedToolCall(run.refused, key));
      }
      PatchToolCall(t, Denied, Some(refusal));
      resumes := resumes + [ResumeJob(a, true)];
      RunWhenNothingPending();
    }

    method CancelFromApproval(a: nat)
      requires CanDecide(Rows(), a)
      modifies this
      ensures Rows() == DecideApproval(old(Rows()), a, CancelDecision)
    {
      var t := approvals[a].toolCall;
      approvals := approvals[a := approvals[a].(status := ApprovalCancelled)];
      PatchToolCall(t, Cancelled, None);
      run := run.(status := RunCancelled);
      checkpoint := None;
    }

    method DecideApprovalByAdmin(a: nat, decision: Decision) returns (r: DecideResult)
      modifies this
      ensures r == NotFound <==> a >= |old(approvals)|
      ensures r == Decided <==> CanDecide(old(Rows()), a)
      ensures r == Decided ==> Rows() == DecideApproval(old(Rows()), a, decision)
      ensures r != Decided ==> Rows() == old(Rows())
    {
      if a >= |approvals| {
        return NotFound;
      }
      if approvals[a].status != AwaitingDecision {
        return Conflict;
      }
      match decision {
        case Approve => ApproveToolCall(a);
        case Reject(reason) => RejectToolCall(a, reason);
        case CancelDecision => CancelFromApproval(a);
      }
      r := Decided;
    }

    method QueryBatch(turn: nat) returns (batch: seq<ToolCallRow>)
      ensures batch == TakeRows(RowsOfTurn(toolCalls, turn), AGENT_RUN_DETAIL_LIMIT)
    {
      var i := 0;
      batch := [];
      while i < |toolCalls|
        invariant 0 <= i <= |toolCalls|
        invariant RowsOfTurn(toolCalls, turn) == batch + RowsOfTurn(toolCalls[i..], turn)
      {
        assert toolCalls[i..][1..] == toolCalls[i + 1..];
        if toolCalls[i].turnIndex == turn {
          batch := batch + [toolCalls[i]];
        }
        i := i + 1;
      }
      batch := TakeRows(batch, AGENT_RUN_DETAIL_LIMIT);
    }

    method GetSettlementAfterDecisionInternal(a: nat) returns (s: Settlement)
      ensures s == GetSettlement(Rows(), a)
    {
      var pending := QueryStillPending();
      if pending {
        return Settlement(false, []);
      }
      if a < |approvals| && approvals[a].toolCall < |toolCalls| {
        var batch := QueryBatch(toolCalls[approvals[a].toolCall].turnIndex);
        return Settlement(true, batch);
      }
      return Settlement(true, []);
    }

    method RecordApprovedToolResultInternal(a: nat, succeeded: bool, payload: Payload) returns (s: Settlement)
      requires a < |approvals|
      modifies this`toolCalls
      ensures Rows() == RecordApprovedToolResult(old(Rows()), a, succeeded, payload)
      ensures s == GetSettlement(Rows(), a)
    {
      PatchToolCall(approvals[a].toolCall, if succeeded then Success else Failed, Some(payload));
      s := GetSettlementAfterDecisionInternal(a);
    }

    method ContinueRunAfterApprovalInternal(transcript: seq<Turn>, now: int) returns (resumed: bool)
      modifies this
      ensures resumed == CanContinue(old(Rows()))
      ensures Rows() == ContinueRunAfterApproval(old(Rows()), transcript, now)
    {
      if checkpoint.None? || checkpoint.value.status != AwaitingApproval {
        return false;
      }
      run := run.(status := RunRunning);
      checkpoint := Some(checkpoint.value.(status := Active, transcript := transcript, updatedAt := now));
      continuations := continuations + [now];
      resumed := true;
    }

    method CompleteApprovalResumeInternal(status: RunStatus)
      modifies this`run
      ensures Rows() == CompleteApprovalResume(old(Rows()), status)
    {
      run := run.(status := status);
    }

    /** The action that answers a settled batch: into the conversation, or not at all. */
    method SettleBatch(settlement: Settlement, succeeded: bool, now: int, cap: nat)
      modifies this
      ensures Rows() == SettleBatchAndContinue(old(Rows()), settlement, succeeded, now, cap)
    {
      if !settlement.settled {
        return;
      }
      if checkpoint.Some? && checkpoint.value.status == AwaitingApproval && checkpoint.value.threaded {
        var transcript := checkpoint.value.transcript;
        if transcript != [] {
          transcript := transcript + BuildToolInteractionTurns(CallsOfRows(settlement.batch));
          var kept, serialized, trimmed := TrimConversationForCheckpoint(transcript, cap);
          if serialized <= cap {
            var resumed := ContinueRunAfterApprovalInternal(kept, now);
            if resumed {
              return;
            }
          }
        }
      }
      CompleteApprovalResumeInternal(if succeeded then RunSuccess else RunFailed);
    }

    // ------------------------------------------------------------------------- expiry

    /** One expiry sweep over this run, for a request that has outlived its window. */
    method ExpireStalePendingApprovals() returns (expired: bool)
      modifies this
      ensures expired == CanExpire(old(Rows()))
      ensures Rows() == ExpireApprovals(old(Rows()))
    {
      var pending := QueryStillPending();
      expired := pending && run.status == RunPendingApproval;
      if !expired {
        return;
      }
      ghost var before, rows := approvals, toolCalls;
      var i := 0;
      var left: nat := AGENT_RUN_DETAIL_LIMIT;
      while i < |approvals|
        invariant 0 <= i <= |approvals| && approvals == before && left <= AGENT_RUN_DETAIL_LIMIT
        invariant CancelWaiting(before, rows, AGENT_RUN_DETAIL_LIMIT) == CancelWaiting(before[i..], toolCalls, left)
        invariant (run, checkpoint, continuations, resumes)
                  == (old(run), old(checkpoint), old(continuations), old(resumes))
      {
        assert before[i..][1..] == before[i + 1..];
        if approvals[i].status == AwaitingDecision && left > 0 {
          PatchToolCall(approvals[i].toolCall, Cancelled, None);
          left := left - 1;
        }
        i := i + 1;
      }
      PatchPendingApprovals(Expired, AGENT_RUN_DETAIL_LIMIT);
      run := run.(status := RunCancelled);
      checkpoint := None;
    }
  }
}
