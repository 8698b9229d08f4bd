/** Why the tool budget over all lives needs its proviso: a run whose checkpoint is deleted under
    a live action starts counting its revivals again (convex/agentRunApprovals.ts:337-346,
    convex/agentRunCheckpoints.ts:79-85). */
module ForgottenRevivals {
  import opened Common
  import opened ToolGate
  import opened Transcript
  import opened RefusalKey
  import opened RunRecords
  import opened RunProtocol
  import opened LeaseExclusion
  import opened RunTermination

  /** Ordinary limits with room for the five lives below. */
  predicate Roomy(c: Config) {
    CanHandOver(c) && c.maxSteps >= 3 && c.maxToolCalls >= 6 && c.maxRuntimeMs >= 3_000_000 && c.cap >= 250
  }

  /** One action holds the run, at `phase` with `count` calls charged to its life. */
  ghost predicate Holding(s: Sys, phase: Phase, count: nat, loopIndex: nat) {
    && |s.execs| == 1 && s.db.continuations == [] && s.jobs == []
    && s.db.run == RunRow(RunRunning, 0, false, [])
    && var e := s.execs[0];
       && e.phase == phase && e.toolCallCount == count && e.loopIndex == loopIndex
       && e.clockFrom == 0 && e.refused == [] && e.segmentStart == e.born == s.now
  }

  /** The rest of the run, as far as this story goes. */
  ghost predicate SameRest(s: Sys, s': Sys) {
    && s'.now == s.now && s'.db.checkpoint == s.db.checkpoint && s'.db.approvals == s.db.approvals
    && s'.hist.revivals == s.hist.revivals && s'.hist.forgotten == s.hist.forgotten
    && |s'.execs| == |s.execs| == 1
    && s'.execs[0].transcript == s.execs[0].transcript && s'.execs[0].segmentCount == s.execs[0].segmentCount
  }

  /** The model asks for these calls. */
  lemma Ask(c: Config, s: Sys, calls: seq<Call>, count: nat, loopIndex: nat) returns (s': Sys)
    requires Reachable(c, s) && Holding(s, Top, count, loopIndex) && calls != []
    requires loopIndex < c.maxSteps && count < c.maxToolCalls && s.now < c.maxRuntimeMs
    ensures Reachable(c, s') && Holding(s', Batch(calls, 0, false, [], 0), count, loopIndex) && SameRest(s, s')
    ensures s'.hist.charged == s.hist.charged && s'.db.toolCalls == s.db.toolCalls && s'.db.resumes == s.db.resumes
  {
    hide Trim, Chars;
    s' := StepIsReachable(c, s, LoopTop(0));
    s' := StepIsReachable(c, s', ModelTurn(0, calls, false));
  }

  /** `n` more refused calls: each is charged. */
  lemma {:induction false} Spend(c: Config, s: Sys, b: Phase, count: nat, loopIndex: nat) returns (s': Sys, b': Phase)
    requires Reachable(c, s) && b.Batch? && !b.cleared && b.next <= |b.calls| && Holding(s, b, count, loopIndex)
    requires count + |b.calls| - b.next <= c.maxToolCalls
    requires forall i :: 0 <= i < |b.calls| ==> b.calls[i] == SOME_CALL
    ensures Reachable(c, s') && b'.Batch? && Holding(s', b', count + |b.calls| - b.next, loopIndex) && SameRest(s, s')
    ensures s'.hist.charged == s.hist.charged + |b.calls| - b.next
    decreases |b.calls| - b.next
  {
    if b.next == |b.calls| {
      s', b' := s, b;
    } else {
      s' := SpendOne(c, s, b, count, loopIndex);
      var next := Batch(b.calls, b.next + 1, false, b.executed + [DENIED], b.deferred);
      var s0 := s';
      s', b' := Spend(c, s0, next, count + 1, loopIndex);
    }
  }

  lemma SpendOne(c: Config, s: Sys, b: Phase, count: nat, loopIndex: nat) returns (s': Sys)
    requires Reachable(c, s) && b.Batch? && !b.cleared && b.next < |b.calls| && Holding(s, b, count, loopIndex)
    requires count < c.maxToolCalls && b.calls[b.next] == SOME_CALL
    ensures Reachable(c, s') && SameRest(s, s')
    ensures Holding(s', Batch(b.calls, b.next + 1, false, b.executed + [DENIED], b.deferred), count + 1, loopIndex)
    ensures s'.hist.charged == s.hist.charged + 1 && s'.db.resumes == s.db.resumes
    ensures s'.db.toolCalls == s.db.toolCalls + [SettledRow(SOME_CALL, Outcome(Denied, DENIED.payload), loopIndex)]
  {
    hide TopStep, ModelTurnStep, EndBatchStep, ParkSaveStep, StartContinuationStep, StartResumeStep, FinishHandlerStep, SettleStep,
         RecoverStalledRun, CancelRun, DecideApproval, ExpireApprovals, Reachable;
    s' := StepIsReachable(c, s, CheckStop(0));
    s' := StepIsReachable(c, s', RunCall(0, DENIED_FACTS));
  }

  /** A call put to a person is charged as well. */
  lemma QueueOne(c: Config, s: Sys, b: Phase, count: nat, loopIndex: nat) returns (s': Sys)
    requires Reachable(c, s) && b.Batch? && !b.cleared && b.next < |b.calls| && Holding(s, b, count, loopIndex)
    requires count < c.maxToolCalls && b.calls[b.next] == SOME_CALL
    ensures Reachable(c, s') && SameRest(s, s'.(db := s'.db.(approvals := s.db.approvals)))
    ensures Holding(s', Batch(b.calls, b.next + 1, false, b.executed, b.deferred + 1), count + 1, loopIndex)
    ensures s'.hist.charged == s.hist.charged + 1 && s'.db.resumes == s.db.resumes
    ensures s'.db.toolCalls == s.db.toolCalls + [GatedRow(SOME_CALL, loopIndex)]
    ensures s'.db.approvals == s.db.approvals + [ApprovalRow(|s.db.toolCalls|, AwaitingDecision)]
  {
    hide BuildRefusedToolCallKey, TopStep, ModelTurnStep, EndBatchStep, ParkSaveStep, StartContinuationStep, StartResumeStep, FinishHandlerStep,
         SettleStep, RecoverStalledRun, CancelRun, DecideApproval, ExpireApprovals, Reachable;
    s' := StepIsReachable(c, s, CheckStop(0));
    s' := StepIsReachable(c, s', RunCall(0, Gated()));
  }

  /** The action dies; twelve minutes later a sweep revives the run from its checkpoint. */
  lemma DieAndRevive(c: Config, s: Sys, phase: Phase, count: nat, loopIndex: nat) returns (s': Sys)
    requires Reachable(c, s) && Holding(s, phase, count, loopIndex)
    requires s.db.checkpoint.Some?
    requires var k := s.db.checkpoint.value;
             && k.status == Active && k.resumeAttempts < 3 && 1 <= k.segmentCount < 30 && k.transcript != [] && k.updatedAt == s.now
    ensures var k := s.db.checkpoint.value;
            && Reachable(c, s') && Holding(s', Top, k.toolCallCount, k.loopIndex) && s'.now == s.now + AGENT_RUN_STALL_MS + 1
            && s'.db.checkpoint == Some(k.(resumeAttempts := k.resumeAttempts + 1, updatedAt := s'.now))
            && s'.db.approvals == s.db.approvals && s'.hist.charged == s.hist.charged
            && s'.hist.revivals == s.hist.revivals + 1 && s'.hist.forgotten == s.hist.forgotten
            && s'.execs[0].transcript == k.transcript && s'.execs[0].segmentCount == k.segmentCount + 1
            && s'.db.toolCalls == s.db.toolCalls && s'.db.resumes == s.db.resumes
  {
    s' := DieAndWait(c, s, phase, count, loopIndex);
    s' := SweptUp(c, s');
    s' := StartAndEnter(c, s');
  }

  lemma DieAndWait(c: Config, s: Sys, phase: Phase, count: nat, loopIndex: nat) returns (s': Sys)
    requires Reachable(c, s) && Holding(s, phase, count, loopIndex)
    ensures Reachable(c, s') && s' == s.(execs := [], now := s.now + AGENT_RUN_STALL_MS + 1)
  {
    s' := StepIsReachable(c, s, Kill(0));
    assert s'.execs == [];
    s' := StepIsReachable(c, s', Tick(s.now + AGENT_RUN_STALL_MS + 1));
  }

  lemma SweptUp(c: Config, s: Sys) returns (s': Sys)
    requires Reachable(c, s) && s.db.continuations == [] && s.db.run.status == RunRunning && s.db.checkpoint.Some?
    requires var k := s.db.checkpoint.value; k.status == Active && k.resumeAttempts < 3 && k.updatedAt == s.now - AGENT_RUN_STALL_MS - 1
    ensures var k := s.db.checkpoint.value;
            && Reachable(c, s')
            && s'.db == s.db.(checkpoint := Some(k.(resumeAttempts := k.resumeAttempts + 1, updatedAt := s.now)), continuations := [s.now])
            && s' == s.(db := s'.db, hist := s.hist.(revivals := s.hist.revivals + 1))
  {
    hide Chars;
    s' := StepIsReachable(c, s, Sweep);
  }

  lemma StartAndEnter(c: Config, s: Sys) returns (s': Sys)
    requires Reachable(c, s) && s.execs == [] && s.db.continuations == [s.now] && s.jobs == []
    requires s.db.run == RunRow(RunRunning, 0, false, []) && s.db.checkpoint.Some?
    requires var k := s.db.checkpoint.value; k.status == Active && 1 <= k.segmentCount < 30 && k.transcript != []
    ensures var k := s.db.checkpoint.value;
            && Reachable(c, s') && Holding(s', Top, k.toolCallCount, k.loopIndex) && s'.now == s.now && s'.hist == s.hist
            && s'.db.checkpoint == s.db.checkpoint && s'.db.approvals == s.db.approvals
            && s'.execs[0].transcript == k.transcript && s'.execs[0].segmentCount == k.segmentCount + 1
            && s'.db.toolCalls == s.db.toolCalls && s'.db.resumes == s.db.resumes
  {
    s' := StepIsReachable(c, s, StartContinuation(0));
    s' := StepIsReachable(c, s', EnterLoop(0));
  }

  function Same(n: nat): seq<Call> { seq(n, _ => SOME_CALL) }

  /** One life spends what is left of the limit in the turn after the last save, dies and is revived. */
  lemma SpendAndRevive(c: Config, s: Sys, count: nat, loopIndex: nat) returns (s': Sys)
    requires Reachable(c, s) && Holding(s, Top, count, loopIndex) && loopIndex < c.maxSteps
    requires count < c.maxToolCalls && s.now < c.maxRuntimeMs && s.db.checkpoint.Some?
    requires var k := s.db.checkpoint.value;
             && k.status == Active && k.resumeAttempts < 3 && 1 <= k.segmentCount < 30 && k.transcript != [] && k.updatedAt == s.now
             && k.toolCallCount == count && k.loopIndex == loopIndex
    ensures var k := s.db.checkpoint.value;
            && Reachable(c, s') && Holding(s', Top, count, loopIndex) && s'.now == s.now + AGENT_RUN_STALL_MS + 1
            && s'.db.checkpoint == Some(k.(resumeAttempts := k.resumeAttempts + 1, updatedAt := s'.now))
            && s'.db.approvals == s.db.approvals && s'.hist.charged == s.hist.charged + c.maxToolCalls - count
            && s'.hist.revivals == s.hist.revivals + 1 && s'.hist.forgotten == s.hist.forgotten
            && s'.execs[0].transcript == k.transcript && s'.execs[0].segmentCount == k.segmentCount + 1
  {
    hide Holding;
    var asked := Ask(c, s, Same(c.maxToolCalls - count), count, loopIndex);
    var spent, b := Spend(c, asked, Batch(Same(c.maxToolCalls - count), 0, false, [], 0), count, loopIndex);
    s' := DieAndRevive(c, spent, b, c.maxToolCalls, loopIndex);
  }

  /** A run whose first turn is saved, and whose second has put two calls to a person and charged the rest. */
  lemma TwoWaiting(c: Config, t: seq<Turn>) returns (s: Sys, b: Phase)
    requires Roomy(c) && StoredWhole(c, t)
    ensures Reachable(c, s) && Holding(s, b, c.maxToolCalls, 1) && s.now == 0
    ensures s.db.checkpoint == Some(Checkpoint(Active, t, 1, 1, 1, c.threaded, 0, 0))
    ensures s.db.approvals == [ApprovalRow(1, AwaitingDecision), ApprovalRow(2, AwaitingDecision)]
    ensures s.hist.charged == c.maxToolCalls && s.hist.revivals == 0 && s.hist.forgotten == 0
  {
    hide Trim, Chars;
    s := FirstTurnSaved(c, t);
    var calls := Same(c.maxToolCalls - 1);
    s := Ask(c, s, calls, 1, 1);
    s := QueueOne(c, s, Batch(calls, 0, false, [], 0), 1, 1);
    s := QueueOne(c, s, Batch(calls, 1, false, [], 1), 2, 1);
    s, b := Spend(c, s, Batch(calls, 2, false, [], 2), 3, 1);
  }

  /** One request cancels the run and deletes its checkpoint, the other's approval sets it running again. */
  lemma CancelAndApprove(c: Config, s: Sys) returns (s': Sys)
    requires Reachable(c, s) && Holding(s, Top, 1, 1) && s.db.checkpoint.Some? && s.db.checkpoint.value.resumeAttempts == 3
    requires s.db.approvals == [ApprovalRow(1, AwaitingDecision), ApprovalRow(2, AwaitingDecision)]
    ensures Reachable(c, s') && Holding(s', Top, 1, 1) && s'.now == s.now && s'.execs == s.execs && s'.db.checkpoint == None
    ensures s'.hist.charged == s.hist.charged && s'.hist.revivals == s.hist.revivals && s'.hist.forgotten == s.hist.forgotten + 3
  {
    hide RejectCall;
    s' := StepIsReachable(c, s, Decide(0, CancelDecision));
    assert s'.db.approvals == [ApprovalRow(1, ApprovalCancelled), ApprovalRow(2, AwaitingDecision)];
    s' := StepIsReachable(c, s', Decide(1, Approve));
  }

  lemma TwoTurnsAreSmall(c: Config, t: seq<Turn>)
    requires c.cap >= 250 && t == BuildToolInteractionTurns([DENIED])
    ensures Trim(t + t, c.cap) == t + t && Storable(t + t, c.cap)
  {
    assert t[0].calls == [CallPart("", Obj([]), None)];
    assert t[0].calls[1..] == [] && t[1].results[1..] == [];
    assert t[1..][1..] == [];
    assert CallChars(t[0].calls[1..]) == 2 && ResultChars(t[1].results[1..]) == 2;
    assert BodyChars(t) == PartsChars(t[0]) + 1 + BodyChars(t[1..]);
    BodyCharsAdd(t, t);
    assert (t + t)[0..] == t + t;
  }

  /** The action goes on as before, and its next save starts a fresh count. */
  lemma SavedAfresh(c: Config, s: Sys, t: seq<Turn>) returns (s': Sys)
    requires Roomy(c) && StoredWhole(c, t) && Reachable(c, s) && Holding(s, Top, 1, 1) && s.db.checkpoint == None
    requires s.execs[0].transcript == t && 1 <= s.execs[0].segmentCount < 29 && s.now < c.maxRuntimeMs
    ensures Reachable(c, s') && Holding(s', Top, 2, 2) && s'.now == s.now
    ensures s'.db.checkpoint == Some(Checkpoint(Active, t + t, 2, 2, s.execs[0].segmentCount, c.threaded, 0, s.now))
    ensures s'.hist.charged == s.hist.charged + 1 && s'.hist.revivals == s.hist.revivals && s'.hist.forgotten == s.hist.forgotten
  {
    hide Trim, Chars, BuildToolInteractionTurns;
    TwoTurnsAreSmall(c, t);
    s' := Ask(c, s, [SOME_CALL], 1, 1);
    s' := SpendOne(c, s', Batch([SOME_CALL], 0, false, [], 0), 1, 1);
    assert [] + [DENIED] == [DENIED];
    s' := StepIsReachable(c, s', EndBatch(0));
  }

  /**
   * Deleting the checkpoint under a live action makes the run forget three revivals. It is revived a
   * fourth time, and its lives together charge more than four limits' worth of calls.
   */
  lemma MoreThanFourLimits(c: Config) returns (s: Sys)
    requires Roomy(c)
    ensures Reachable(c, s) && s.hist.revivals == 4 && s.hist.forgotten == 3
    ensures s.hist.charged > (1 + AGENT_RUN_MAX_RESUME_ATTEMPTS) * c.maxToolCalls
  {
    hide Holding, Trim, Chars, Enabled, Apply, Storable;
    var t := OneTurnIsSmall(c);
    var b;
    s, b := TwoWaiting(c, t);
    s := DieAndRevive(c, s, b, c.maxToolCalls, 1);
    s := SpendAndRevive(c, s, 1, 1);
    s := SpendAndRevive(c, s, 1, 1);
    s := CancelAndApprove(c, s);
    s := SavedAfresh(c, s, t);
    s := SpendAndRevive(c, s, 2, 2);
    s := Ask(c, s, Same(c.maxToolCalls - 2), 2, 2);
    s, b := Spend(c, s, Batch(Same(c.maxToolCalls - 2), 0, false, [], 0), 2, 2);
  }
}
