/** Which calls start once a run is cancelled. `cancelRun` closes what waits, so at most one call of
    any kind follows; a cancelling decision and an expiry leave approved calls behind, and a resume
    asks for the approval and the call, never for the run (convex/agentRuns.ts:985-1054,
    convex/agentRunApprovals.ts:303-346 and 592-700, convex/agentRuntime.ts:985-1000). */
module CallsAfterCancel {
  import opened Common
  import opened ToolGate
  import opened Transcript
  import opened RefusalKey
  import opened RunRecords
  import opened RunProtocol
  import opened Cancellation
  import LeaseExclusion
  import ApprovalSafety
  import RunTermination

  /** Its resume would start this call's handler. */
  predicate Startable(db: Db, job: ResumeJob) {
    && !job.refused && job.approval < |db.approvals| && db.approvals[job.approval].status == Approved
    && db.approvals[job.approval].toolCall < |db.toolCalls| && db.toolCalls[db.approvals[job.approval].toolCall].status == Pending
  }

  /** A call has been approved, its row is still Pending and its resume queued. */
  ghost predicate ApprovedWaits(db: Db) {
    exists k :: 0 <= k < |db.resumes| && Startable(db, db.resumes[k])
  }

  /** Nobody and nothing says the run is no longer cancelled. */
  ghost predicate StaysCancelled(c: Config, s: Sys, run: seq<Event>)
    requires Valid(c, s, run)
    decreases |run|
  {
    s.db.run.status == RunCancelled && (run == [] || StaysCancelled(c, Apply(c, s, run[0]), run[1..]))
  }

  /** A step that cancels the run by way of its approvals. */
  predicate Drops(e: Event) { e.Expire? || (e.Decide? && e.decision.CancelDecision?) }

  // ------------------------------------------------------------ nothing more becomes startable

  /** Rows may be added, none of them Pending, and no row becomes Pending. */
  ghost predicate NoneBecomesPending(was: seq<ToolCallRow>, rows: seq<ToolCallRow>) {
    |was| <= |rows| && forall i :: 0 <= i < |rows| && rows[i].status == Pending ==> i < |was| && was[i].status == Pending
  }

  /** Approvals keep their calls, and none becomes Approved. */
  ghost predicate NoneBecomesApproved(was: seq<ApprovalRow>, approvals: seq<ApprovalRow>) {
    && |was| <= |approvals|
    && (forall i :: 0 <= i < |was| ==> approvals[i].toolCall == was[i].toolCall)
    && (forall i :: 0 <= i < |approvals| && approvals[i].status == Approved ==> i < |was| && was[i].status == Approved)
  }

  lemma {:induction false} CancelledNotPending(rows: seq<ToolCallRow>, limit: nat)
    ensures NoneBecomesPending(rows, CancelCalls(rows, limit))
  {
    if rows != [] {
      var left := if rows[0].status in {Pending, ApprovalRequired} && limit > 0 then limit - 1 else limit;
      CancelledNotPending(rows[1..], left);
      var r := CancelCalls(rows, limit);
      assert r[1..] == CancelCalls(rows[1..], left);
      assert forall i :: 0 < i < |r| ==> r[i] == r[1..][i - 1] && rows[i] == rows[1..][i - 1];
    }
  }

  lemma {:induction false} ExpiredNotPending(approvals: seq<ApprovalRow>, rows: seq<ToolCallRow>, limit: nat)
    ensures NoneBecomesPending(rows, CancelWaiting(approvals, rows, limit))
    decreases |approvals|
  {
    if approvals != [] {
      if approvals[0].status == AwaitingDecision && limit > 0 {
        ExpiredNotPending(approvals[1..], PatchCall(rows, approvals[0].toolCall, Cancelled, None), limit - 1);
      } else {
        ExpiredNotPending(approvals[1..], rows, limit);
      }
    }
  }

  lemma NoneMoreWaits(db: Db, db': Db)
    requires !ApprovedWaits(db) && NoneBecomesPending(db.toolCalls, db'.toolCalls) && NoneBecomesApproved(db.approvals, db'.approvals)
    requires forall k :: 0 <= k < |db'.resumes| ==> db'.resumes[k] in db.resumes
    ensures !ApprovedWaits(db')
  {
    forall k | 0 <= k < |db'.resumes|
      ensures !Startable(db', db'.resumes[k])
    {
      var l :| 0 <= l < |db.resumes| && db.resumes[l] == db'.resumes[k];
      assert !Startable(db, db.resumes[l]);
    }
  }

  lemma NoneMoreByAction(c: Config, s: Sys, e: Event)
    requires !ApprovedWaits(s.db) && Enabled(c, s, e) && OfAction(e)
    ensures !ApprovedWaits(Apply(c, s, e).db) && Apply(c, s, e).hist.approvedRuns == s.hist.approvedRuns
  {
    hide ApprovedWaits, RunCallStep, Trim, Chars, LeftOrphan, BuildToolInteractionTurns, StartContinuationStep, StartResumeStep,
         FinishHandlerStep, SettleStep, RecoverStalledRun, CancelRun, DecideApproval, ExpireApprovals;
    if e.RunCall? {
      NoneMoreByCall(c, s, e.i, e.facts);
    }
    NoneMoreWaits(s.db, Apply(c, s, e).db);
  }

  lemma NoneMoreByCall(c: Config, s: Sys, i: nat, facts: CallFacts)
    requires Enabled(c, s, RunCall(i, facts))
    ensures var s' := RunCallStep(s, i, facts);
            && NoneBecomesPending(s.db.toolCalls, s'.db.toolCalls) && NoneBecomesApproved(s.db.approvals, s'.db.approvals)
            && s'.db.resumes == s.db.resumes && s'.hist.approvedRuns == s.hist.approvedRuns
            && s'.db.run == s.db.run && s'.jobs == s.jobs
            && s'.hist.sinceCancel == s.hist.sinceCancel + 1 && s'.hist.handlersSince == s.hist.handlersSince
  {
    hide WasRefused;
  }

  lemma NoneMoreByPeople(c: Config, s: Sys, e: Event)
    requires !ApprovedWaits(s.db) && Enabled(c, s, e) && (e.Cancel? || Drops(e))
    ensures !ApprovedWaits(Apply(c, s, e).db) && Apply(c, s, e).hist.approvedRuns == s.hist.approvedRuns
  {
    hide ApprovedWaits, CancelCalls, CancelWaiting, TopStep, ModelTurnStep, CheckStopStep, RunCallStep, EndBatchStep, ParkSaveStep,
         StartContinuationStep, StartResumeStep, FinishHandlerStep, SettleStep, RecoverStalledRun;
    CancelledNotPending(s.db.toolCalls, AGENT_RUN_DETAIL_LIMIT);
    ExpiredNotPending(s.db.approvals, s.db.toolCalls, AGENT_RUN_DETAIL_LIMIT);
    NoneMoreWaits(s.db, Apply(c, s, e).db);
  }

  lemma NoneMoreByOther(c: Config, s: Sys, e: Event)
    requires !ApprovedWaits(s.db) && Enabled(c, s, e) && !OfAction(e) && (e.Decide? ==> e.decision.CancelDecision?)
    ensures !ApprovedWaits(Apply(c, s, e).db) && Apply(c, s, e).hist.approvedRuns == s.hist.approvedRuns
  {
    hide CancelRun, DecideApproval, ExpireApprovals, Trim, Chars, LeftOrphan, CallsOfRows, BuildToolInteractionTurns, GetSettlement,
         SettledTranscript;
    if e.StartResume? {
      assert !Startable(s.db, s.db.resumes[e.k]);
    }
    hide ApprovedWaits;
    if e.Cancel? || Drops(e) {
      NoneMoreByPeople(c, s, e);
    } else {
      NoneMoreWaits(s.db, Apply(c, s, e).db);
    }
  }

  lemma NoneMore(c: Config, s: Sys, e: Event)
    requires !ApprovedWaits(s.db) && Enabled(c, s, e) && (e.Decide? ==> e.decision.CancelDecision?)
    ensures !ApprovedWaits(Apply(c, s, e).db) && Apply(c, s, e).hist.approvedRuns == s.hist.approvedRuns
  {
    hide ApprovedWaits, Apply;
    if OfAction(e) {
      NoneMoreByAction(c, s, e);
    } else {
      NoneMoreByOther(c, s, e);
    }
  }

  // --------------------------------------------- a cancelling decision, or an expiry

  /** Some schedule without a further decision starts an approved call's handler. */
  ghost predicate HandlerFollows(c: Config, s: Sys) {
    exists run: seq<Event> :: Valid(c, s, run) && (forall i :: 0 <= i < |run| ==> !run[i].Decide?)
                              && Replay(c, s, run).hist.approvedRuns != s.hist.approvedRuns
  }

  lemma {:induction false} NoneFollows(c: Config, s: Sys, run: seq<Event>)
    requires !ApprovedWaits(s.db) && Valid(c, s, run) && forall i :: 0 <= i < |run| ==> !run[i].Decide?
    ensures Replay(c, s, run).hist.approvedRuns == s.hist.approvedRuns
    decreases |run|
  {
    hide ApprovedWaits, Apply, Enabled;
    if run != [] {
      NoneMore(c, s, run[0]);
      NoneFollows(c, Apply(c, s, run[0]), run[1..]);
    }
  }

  lemma HandlerStarts(c: Config, s: Sys, k: nat)
    requires k < |s.db.resumes| && Startable(s.db, s.db.resumes[k])
    ensures var s' := Apply(c, s, StartResume(k));
            s'.hist.approvedRuns == s.hist.approvedRuns + [s.db.resumes[k].approval] && s'.db.run == s.db.run
    ensures HandlerFollows(c, s)
  {
    var s' := Apply(c, s, StartResume(k));
    assert Valid(c, s', []) && Replay(c, s', []) == s' && [StartResume(k)][1..] == [];
    assert Valid(c, s, [StartResume(k)]) && Replay(c, s, [StartResume(k)]) == s';
  }

  /** Only the decided call's row changes, and it was not approved. */
  lemma ApprovedStillWaits(c: Config, s: Sys, e: Event)
    requires ApprovalSafety.OneCallEach(s.db) && Drops(e) && Enabled(c, s, e) && ApprovedWaits(s.db)
    ensures ApprovedWaits(Apply(c, s, e).db)
  {
    hide CancelWaiting, CloseApprovals;
    var k :| 0 <= k < |s.db.resumes| && Startable(s.db, s.db.resumes[k]);
    var t := s.db.approvals[s.db.resumes[k].approval].toolCall;
    if e.Expire? {
      ExpiryKeeps(s.db.approvals, s.db.toolCalls, AGENT_RUN_DETAIL_LIMIT, t);
    }
    assert Startable(Apply(c, s, e).db, Apply(c, s, e).db.resumes[k]);
  }

  lemma {:induction false} ExpiryKeeps(approvals: seq<ApprovalRow>, rows: seq<ToolCallRow>, limit: nat, t: nat)
    requires t < |rows| && forall i :: 0 <= i < |approvals| && approvals[i].status == AwaitingDecision ==> approvals[i].toolCall != t
    ensures CancelWaiting(approvals, rows, limit)[t] == rows[t]
    decreases |approvals|
  {
    if approvals != [] {
      assert forall i :: 0 <= i < |approvals| - 1 ==> approvals[1..][i] == approvals[i + 1];
      if approvals[0].status == AwaitingDecision && limit > 0 {
        ExpiryKeeps(approvals[1..], PatchCall(rows, approvals[0].toolCall, Cancelled, None), limit - 1, t);
      } else {
        ExpiryKeeps(approvals[1..], rows, limit, t);
      }
    }
  }

  lemma OneCallEachHolds(c: Config, s: Sys)
    requires Reachable(c, s)
    ensures ApprovalSafety.OneCallEach(s.db)
  {
    var start, run :| Initial(start) && Valid(c, start, run) && Replay(c, start, run) == s;
    ApprovalSafety.OnceAlways(c, start, run);
  }

  /**
   * A cancelling decision or an expiry leaves the run CANCELLED, and yet, with nobody deciding anything
   * more, an approved call's handler may start - read before the step: exactly when another call has
   * been approved, its row is still Pending and its resume queued.
   */
  lemma HandlerFollowsExactly(c: Config, s: Sys, e: Event)
    requires Reachable(c, s) && Enabled(c, s, e) && Drops(e)
    ensures Apply(c, s, e).db.run.status == RunCancelled
    ensures HandlerFollows(c, Apply(c, s, e)) <==> ApprovedWaits(s.db)
  {
    hide CancelWaiting, CloseApprovals, HandlerFollows, PatchCall;
    var s' := Apply(c, s, e);
    if ApprovedWaits(s.db) {
      OneCallEachHolds(c, s);
      ApprovedStillWaits(c, s, e);
      var k :| 0 <= k < |s'.db.resumes| && Startable(s'.db, s'.db.resumes[k]);
      HandlerStarts(c, s', k);
    } else {
      NoneMore(c, s, e);
      assert !HandlerFollows(c, s') by { NoneEver(c, s'); }
    }
  }

  lemma NoneEver(c: Config, s: Sys)
    requires !ApprovedWaits(s.db)
    ensures !HandlerFollows(c, s)
  {
    hide ApprovedWaits;
    forall run: seq<Event> | Valid(c, s, run) && forall i :: 0 <= i < |run| ==> !run[i].Decide?
      ensures Replay(c, s, run).hist.approvedRuns == s.hist.approvedRuns
    {
      NoneFollows(c, s, run);
    }
  }

  // ------------------------------------------- with people deciding on, while it stays cancelled

  predicate TwoUndecided(approvals: seq<ApprovalRow>) {
    exists i, j :: 0 <= i < j < |approvals| && approvals[i].status == AwaitingDecision && approvals[j].status == AwaitingDecision
  }

  ghost predicate MayQueueOne(s: Sys) { exists i :: 0 <= i < |s.execs| && MayQueue(s, s.execs[i]) }

  /** One call can be approved with another still undecided, which keeps the run cancelled. */
  ghost predicate Crowded(s: Sys) {
    TwoUndecided(s.db.approvals) || (StillPending(s.db.approvals) && MayQueueOne(s))
  }

  /** Some schedule, people deciding as they like, starts a handler with the run cancelled all along. */
  ghost predicate HandlerStartsCancelled(c: Config, s: Sys) {
    exists run :: Valid(c, s, run) && StaysCancelled(c, s, run) && Replay(c, s, run).hist.approvedRuns != s.hist.approvedRuns
  }

  ghost predicate Settled(s: Sys) { !ApprovedWaits(s.db) && !Crowded(s) }

  lemma SettledCall(c: Config, s: Sys, i: nat, facts: CallFacts)
    requires LeaseExclusion.Lease(c, s) && !Crowded(s) && Enabled(c, s, RunCall(i, facts))
    ensures !Crowded(RunCallStep(s, i, facts))
  {
    hide WasRefused;
    assert s.execs == [s.execs[0]];
    if FateOf(s, s.execs[i], s.execs[i].phase.calls[s.execs[i].phase.next], facts).Queue? {
      assert MayQueue(s, s.execs[i]);
    }
  }

  lemma SettledAction(c: Config, s: Sys, e: Event)
    requires LeaseExclusion.Lease(c, s) && !Crowded(s) && Enabled(c, s, e) && OfAction(e) && s.db.run.status == RunCancelled
    ensures !Crowded(Apply(c, s, e))
  {
    hide WasRefused, RunCallStep, Trim, Chars, LeftOrphan, BuildToolInteractionTurns, StartContinuationStep, StartResumeStep,
         FinishHandlerStep, SettleStep, RecoverStalledRun, CancelRun, DecideApproval, ExpireApprovals, TwoUndecided, StillPending;
    assert s.execs == [s.execs[0]];
    if e.RunCall? {
      SettledCall(c, s, e.i, e.facts);
    }
  }

  lemma FewerUndecided(was: seq<ApprovalRow>, approvals: seq<ApprovalRow>)
    requires |approvals| == |was|
    requires forall i :: 0 <= i < |was| && approvals[i].status == AwaitingDecision ==> was[i].status == AwaitingDecision
    ensures TwoUndecided(approvals) ==> TwoUndecided(was)
    ensures StillPending(approvals) ==> StillPending(was)
  {
  }

  lemma SettledOther(c: Config, s: Sys, e: Event)
    requires !Crowded(s) && Enabled(c, s, e) && !OfAction(e) && s.db.run.status == RunCancelled
    ensures !Crowded(Apply(c, s, e))
  {
    hide WasRefused, CancelWaiting, Trim, Chars, LeftOrphan, CallsOfRows, BuildToolInteractionTurns, GetSettlement,
         SettledTranscript, TwoUndecided, StillPending, PatchCall, RememberRefusal, RefusalPayload, CanExpire;
    FewerUndecided(s.db.approvals, Apply(c, s, e).db.approvals);
  }

  /** Deciding the only open request takes the run out of CANCELLED. */
  lemma NoDecisionStays(c: Config, s: Sys, e: Event)
    requires !Crowded(s) && Enabled(c, s, e) && e.Decide? && !e.decision.CancelDecision? && s.db.run.status == RunCancelled
    ensures Apply(c, s, e).db.run.status != RunCancelled
  {
    hide Apply;
    assert LeavesNonePending(s.db, e.a);
    LeavesCancelledExactly(c, s, e);
  }

  lemma {:induction false} NoneStartsCancelled(c: Config, s: Sys, run: seq<Event>)
    requires LeaseExclusion.MarginHolds(c) && LeaseExclusion.Lease(c, s) && Settled(s)
    requires Valid(c, s, run) && StaysCancelled(c, s, run)
    ensures Replay(c, s, run).hist.approvedRuns == s.hist.approvedRuns
    decreases |run|
  {
    hide LeaseExclusion.Lease, ApprovedWaits, Crowded, Apply, Enabled;
    if run != [] {
      var s' := Apply(c, s, run[0]);
      assert StaysCancelled(c, s', run[1..]);
      if run[0].Decide? && !run[0].decision.CancelDecision? {
        NoDecisionStays(c, s, run[0]);
        assert false;
      }
      NoneMore(c, s, run[0]);
      if OfAction(run[0]) {
        SettledAction(c, s, run[0]);
      } else {
        SettledOther(c, s, run[0]);
      }
      LeaseExclusion.LeaseStep(c, s, run[0]);
      NoneStartsCancelled(c, s', run[1..]);
    }
  }

  lemma OneMoreStart(c: Config, s: Sys, e: Event)
    requires s.db.run.status == RunCancelled && Enabled(c, s, e) && HandlerStartsCancelled(c, Apply(c, s, e))
    requires Apply(c, s, e).hist.approvedRuns == s.hist.approvedRuns
    ensures HandlerStartsCancelled(c, s)
  {
    hide Apply, Enabled;
    var s' := Apply(c, s, e);
    var run :| Valid(c, s', run) && StaysCancelled(c, s', run) && Replay(c, s', run).hist.approvedRuns != s'.hist.approvedRuns;
    var longer := [e] + run;
    assert longer[1..] == run;
    assert Valid(c, s, longer) && StaysCancelled(c, s, longer) && Replay(c, s, longer) == Replay(c, s', run);
  }

  lemma WaitingStarts(c: Config, s: Sys)
    requires s.db.run.status == RunCancelled && ApprovedWaits(s.db)
    ensures HandlerStartsCancelled(c, s)
  {
    var k :| 0 <= k < |s.db.resumes| && Startable(s.db, s.db.resumes[k]);
    HandlerStarts(c, s, k);
    var s' := Apply(c, s, StartResume(k));
    assert Valid(c, s', []) && Replay(c, s', []) == s' && StaysCancelled(c, s', []) && [StartResume(k)][1..] == [];
    assert Valid(c, s, [StartResume(k)]) && Replay(c, s, [StartResume(k)]) == s' && StaysCancelled(c, s, [StartResume(k)]);
  }

  /** With a second request open, approving the first changes no status and queues its resume. */
  lemma TwoStart(c: Config, s: Sys)
    requires ApprovalSafety.OneCallEach(s.db) && s.db.run.status == RunCancelled && TwoUndecided(s.db.approvals)
    ensures HandlerStartsCancelled(c, s)
  {
    var i, j :| 0 <= i < j < |s.db.approvals| && s.db.approvals[i].status == AwaitingDecision && s.db.approvals[j].status == AwaitingDecision;
    var s' := Apply(c, s, Decide(i, Approve));
    var db := s.db.(approvals := s.db.approvals[i := ApprovalRow(s.db.approvals[i].toolCall, Approved)]);
    assert db.approvals[j].status == AwaitingDecision;
    assert StillPending(db.approvals) && s'.db.run == s.db.run;
    assert s'.db.resumes[|s.db.resumes|] == ResumeJob(i, false) && Startable(s'.db, s'.db.resumes[|s.db.resumes|]);
    WaitingStarts(c, s');
    OneMoreStart(c, s, Decide(i, Approve));
  }

  lemma QueueingStarts(c: Config, s: Sys)
    requires ApprovalSafety.OneCallEach(s.db) && s.db.run.status == RunCancelled && StillPending(s.db.approvals) && MayQueueOne(s)
    ensures HandlerStartsCancelled(c, s)
  {
    hide WasRefused, HandlerStartsCancelled;
    var i :| 0 <= i < |s.execs| && MayQueue(s, s.execs[i]);
    var facts := RunTermination.Gated();
    var s' := Apply(c, s, RunCall(i, facts));
    assert FateOf(s, s.execs[i], s.execs[i].phase.calls[s.execs[i].phase.next], facts).Queue?;
    var n := |s.db.approvals|;
    assert s'.db.approvals == s.db.approvals + [ApprovalRow(|s.db.toolCalls|, AwaitingDecision)];
    var a :| 0 <= a < n && s.db.approvals[a].status == AwaitingDecision;
    assert s'.db.approvals[a].status == AwaitingDecision && s'.db.approvals[n].status == AwaitingDecision;
    TwoStart(c, s');
    OneMoreStart(c, s, RunCall(i, facts));
  }

  /**
   * However people go on deciding, a handler starts on a run that has been cancelled throughout - in
   * any reachable state, whatever cancelled it - exactly when an approved call already waits, or one
   * can be approved with another left open: two requests are undecided, or one is and a live action
   * past its stop check may still add one.
   */
  lemma HandlerStartsCancelledExactly(c: Config, s: Sys)
    requires LeaseExclusion.MarginHolds(c) && Reachable(c, s) && s.db.run.status == RunCancelled
    ensures HandlerStartsCancelled(c, s) <==> ApprovedWaits(s.db) || Crowded(s)
  {
    hide HandlerStartsCancelled, ApprovedWaits, MayQueueOne, TwoUndecided, StillPending;
    OneCallEachHolds(c, s);
    if ApprovedWaits(s.db) {
      WaitingStarts(c, s);
    } else if TwoUndecided(s.db.approvals) {
      TwoStart(c, s);
    } else if Crowded(s) {
      QueueingStarts(c, s);
    } else {
      LeaseHolds(c, s);
      assert !HandlerStartsCancelled(c, s) by { NeverStartsCancelled(c, s); }
    }
  }

  lemma LeaseHolds(c: Config, s: Sys)
    requires LeaseExclusion.MarginHolds(c) && Reachable(c, s)
    ensures LeaseExclusion.Lease(c, s)
  {
    var start, run :| Initial(start) && Valid(c, start, run) && Replay(c, start, run) == s;
    LeaseExclusion.InitialHoldsLease(c, start);
    LeaseExclusion.LeaseAlways(c, start, run);
  }

  lemma NeverStartsCancelled(c: Config, s: Sys)
    requires LeaseExclusion.MarginHolds(c) && LeaseExclusion.Lease(c, s) && Settled(s)
    ensures !HandlerStartsCancelled(c, s)
  {
    hide Settled, LeaseExclusion.Lease;
    forall run | Valid(c, s, run) && StaysCancelled(c, s, run)
      ensures Replay(c, s, run).hist.approvedRuns == s.hist.approvedRuns
    {
      NoneStartsCancelled(c, s, run);
    }
  }

  // ------------------------------------------------------------------ after cancelRun

  /** At most one call has started since, none is approved and waiting, and a request is open only if
      that call is what it asks about. */
  ghost predicate OneAtMost(s: Sys) {
    && NoneToRun(s.db.toolCalls) && !TwoUndecided(s.db.approvals)
    && s.hist.sinceCancel + (if s.execs != [] && Cleared(s.execs[0]) then 1 else 0) <= 1
    && (StillPending(s.db.approvals) ==> s.hist.sinceCancel == 1) && s.hist.handlersSince == 0
  }

  lemma OneAtMostCall(c: Config, s: Sys, i: nat, facts: CallFacts)
    requires LeaseExclusion.Lease(c, s) && OneAtMost(s) && Enabled(c, s, RunCall(i, facts))
    ensures OneAtMost(RunCallStep(s, i, facts))
  {
    hide WasRefused;
    assert s.execs == [s.execs[0]];
  }

  lemma OneAtMostAction(c: Config, s: Sys, e: Event)
    requires LeaseExclusion.Lease(c, s) && OneAtMost(s) && Enabled(c, s, e) && OfAction(e) && s.db.run.status == RunCancelled
    ensures OneAtMost(Apply(c, s, e))
  {
    hide WasRefused, RunCallStep, Trim, Chars, LeftOrphan, BuildToolInteractionTurns, StartContinuationStep, StartResumeStep,
         FinishHandlerStep, SettleStep, RecoverStalledRun, CancelRun, DecideApproval, ExpireApprovals, TwoUndecided, StillPending, NoneToRun,
         LoopSave;
    assert s.execs == [s.execs[0]];
    if e.RunCall? {
      OneAtMostCall(c, s, e.i, e.facts);
    }
  }

  lemma OneAtMostOther(c: Config, s: Sys, e: Event)
    requires OneAtMost(s) && Enabled(c, s, e) && !OfAction(e) && s.db.run.status == RunCancelled
    requires e.Decide? ==> e.decision.CancelDecision?
    ensures OneAtMost(Apply(c, s, e))
  {
    hide WasRefused, CancelWaiting, Trim, Chars, LeftOrphan, CallsOfRows, BuildToolInteractionTurns, GetSettlement,
         SettledTranscript, TwoUndecided, StillPending, RememberRefusal, RefusalPayload;
    FewerUndecided(s.db.approvals, Apply(c, s, e).db.approvals);
  }

  lemma FewOpen(c: Config, s: Sys)
    requires LeaseExclusion.Lease(c, s) && OneAtMost(s)
    ensures !Crowded(s)
  {
    hide WasRefused;
  }

  lemma {:induction false} OneAtMostAlways(c: Config, s: Sys, run: seq<Event>)
    requires LeaseExclusion.MarginHolds(c) && LeaseExclusion.Lease(c, s) && OneAtMost(s)
    requires Valid(c, s, run) && StaysCancelled(c, s, run)
    ensures OneAtMost(Replay(c, s, run))
    decreases |run|
  {
    hide LeaseExclusion.Lease, OneAtMost, Apply, Enabled;
    if run != [] {
      var s' := Apply(c, s, run[0]);
      assert StaysCancelled(c, s', run[1..]);
      if run[0].Decide? && !run[0].decision.CancelDecision? {
        assert !Crowded(s) by { FewOpen(c, s); }
        NoDecisionStays(c, s, run[0]);
        assert false;
      }
      if OfAction(run[0]) {
        OneAtMostAction(c, s, run[0]);
      } else {
        OneAtMostOther(c, s, run[0]);
      }
      LeaseExclusion.LeaseStep(c, s, run[0]);
      OneAtMostAlways(c, s', run[1..]);
    }
  }

  lemma NoneTwice(approvals: seq<ApprovalRow>)
    requires forall i :: 0 <= i < |approvals| ==> approvals[i].status != AwaitingDecision
    ensures !StillPending(approvals) && !TwoUndecided(approvals)
  {
  }

  /** For as long as a run cancelled by `cancelRun` stays cancelled, at most one call of any kind starts,
      and it is one the loop had in hand: no approved call's handler starts at all. */
  lemma CancelRunStopsCalls(c: Config, s: Sys, run: seq<Event>)
    requires LeaseExclusion.MarginHolds(c) && Reachable(c, s) && IsCancelable(s.db.run.status)
    requires Undecided(s.db.approvals) <= AGENT_RUN_DETAIL_LIMIT && Unfinished(s.db.toolCalls) <= AGENT_RUN_DETAIL_LIMIT
    requires Valid(c, Apply(c, s, Cancel), run) && StaysCancelled(c, Apply(c, s, Cancel), run)
    ensures var end := Replay(c, Apply(c, s, Cancel), run);
            end.hist.sinceCancel <= 1 && end.hist.handlersSince == 0
  {
    hide Undecided, Unfinished, LeaseExclusion.Lease, NoneToRun, CancelRun, Valid, Replay, StaysCancelled;
    var s' := Apply(c, s, Cancel);
    LeaseHolds(c, s);
    LeaseExclusion.LeaseStep(c, s, Cancel);
    AfterCancel(c, s);
    NoneTwice(s'.db.approvals);
    OneAtMostAlways(c, s', run);
  }

  lemma {:induction false} FinalStaysCancelled(c: Config, s: Sys, run: seq<Event>)
    requires !Escapes(c, s) && Valid(c, s, run)
    ensures StaysCancelled(c, s, run)
    decreases |run|
  {
    hide Apply, Enabled;
    assert Valid(c, s, []) && Replay(c, s, []) == s;
    if run != [] {
      if Escapes(c, Apply(c, s, run[0])) {
        EscapesInMore(c, s, run[0]);
      }
      FinalStaysCancelled(c, Apply(c, s, run[0]), run[1..]);
    }
  }

  /** With nothing in flight at the cancellation, that holds over every future. */
  lemma CancelRunStopsCallsForGood(c: Config, s: Sys, run: seq<Event>)
    requires LeaseExclusion.MarginHolds(c) && Reachable(c, s) && IsCancelable(s.db.run.status) && !InFlight(s)
    requires Undecided(s.db.approvals) <= AGENT_RUN_DETAIL_LIMIT && Unfinished(s.db.toolCalls) <= AGENT_RUN_DETAIL_LIMIT
    requires Valid(c, Apply(c, s, Cancel), run)
    ensures var end := Replay(c, Apply(c, s, Cancel), run);
            end.db.run.status == RunCancelled && end.hist.sinceCancel <= 1 && end.hist.handlersSince == 0
  {
    hide Undecided, Unfinished, InFlight, Escapes, Apply, Valid, Replay, StaysCancelled;
    ReachableResumes(c, s);
    CancelIsFinalExactly(c, s);
    FinalStaysCancelled(c, Apply(c, s, Cancel), run);
    CancelRunStopsCalls(c, s, run);
    StaysToTheEnd(c, Apply(c, s, Cancel), run);
  }

  lemma {:induction false} StaysToTheEnd(c: Config, s: Sys, run: seq<Event>)
    requires Valid(c, s, run) && StaysCancelled(c, s, run)
    ensures Replay(c, s, run).db.run.status == RunCancelled
    decreases |run|
  {
    hide Apply, Enabled;
    if run != [] {
      StaysToTheEnd(c, Apply(c, s, run[0]), run[1..]);
    }
  }

  // ------------------------------------------------------------- a run that goes on executing

  const ASKED := RunTermination.ASKED

  predicate ThreeCallsFit(c: Config) {
    c.maxSteps >= 1 && c.maxToolCalls >= 3 && c.maxRuntimeMs > 0 && c.cap >= 2
  }

  /** One more call of the batch of three waits for a person. */
  lemma OneMoreWaits(c: Config, s: Sys, n: nat, waiting: seq<ToolCallRow>, open: seq<ApprovalRow>) returns (s': Sys)
    requires Reachable(c, s) && n < 3 <= c.maxToolCalls && |waiting| == n && s.jobs == []
    requires s.execs == [Exec(0, 0, 0, Batch([ASKED, ASKED, ASKED], n, false, [], n), 0, n, [], 1, 1, [])]
    requires s.db == Db(RunRow(RunRunning, 0, false, []), None, waiting, open, [], [])
    ensures Reachable(c, s') && s'.jobs == [] && s'.hist.approvedRuns == s.hist.approvedRuns && s'.hist.handlersSince == s.hist.handlersSince
    ensures s'.execs == [Exec(0, 0, 0, Batch([ASKED, ASKED, ASKED], n + 1, false, [], n + 1), 0, n + 1, [], 1, 1, [])]
    ensures s'.db == Db(RunRow(RunRunning, 0, false, []), None, waiting + [GatedRow(ASKED, 0)], open + [ApprovalRow(n, AwaitingDecision)], [], [])
  {
    hide BuildRefusedToolCallKey;
    s' := StepIsReachable(c, s, CheckStop(0));
    s' := StepIsReachable(c, s', RunCall(0, RunTermination.Gated()));
  }

  lemma ThreeAsked(c: Config) returns (s: Sys)
    requires ThreeCallsFit(c)
    ensures Reachable(c, s) && s.jobs == [] && s.db == Start(0, 0, false, []).db && s.hist == Start(0, 0, false, []).hist
    ensures s.execs == [Exec(0, 0, 0, Batch([ASKED, ASKED, ASKED], 0, false, [], 0), 0, 0, [], 1, 1, [])]
  {
    hide Trim, Chars;
    var start := Start(0, 0, false, []);
    assert Initial(start);
    StartIsReachable(c, start);
    s := StepIsReachable(c, start, EnterLoop(0));
    s := StepIsReachable(c, s, LoopTop(0));
    s := StepIsReachable(c, s, ModelTurn(0, [ASKED, ASKED, ASKED], false));
  }

  lemma ThreeWait(c: Config) returns (s: Sys)
    requires ThreeCallsFit(c)
    ensures Reachable(c, s) && s.jobs == [] && s.hist.approvedRuns == [] && s.hist.handlersSince == 0
    ensures s.execs == [Exec(0, 0, 0, Batch([ASKED, ASKED, ASKED], 3, false, [], 3), 0, 3, [], 1, 1, [])]
    ensures s.db == Db(RunRow(RunRunning, 0, false, []), None, [GatedRow(ASKED, 0), GatedRow(ASKED, 0), GatedRow(ASKED, 0)],
                       [ApprovalRow(0, AwaitingDecision), ApprovalRow(1, AwaitingDecision), ApprovalRow(2, AwaitingDecision)], [], [])
  {
    hide Apply, Enabled, Reachable;
    s := ThreeAsked(c);
    s := OneMoreWaits(c, s, 0, [], []);
    s := OneMoreWaits(c, s, 1, s.db.toolCalls, s.db.approvals);
    s := OneMoreWaits(c, s, 2, s.db.toolCalls, s.db.approvals);
  }

  /** Three calls of one batch wait for people; nothing has run yet. */
  lemma ThreeParked(c: Config) returns (s: Sys)
    requires ThreeCallsFit(c)
    ensures Reachable(c, s) && s.jobs == [] && s.execs == [] && s.hist.approvedRuns == [] && s.hist.handlersSince == 0
    ensures s.db.run.status == RunPendingApproval && s.db.resumes == [] && s.db.continuations == []
    ensures s.db.toolCalls == [GatedRow(ASKED, 0), GatedRow(ASKED, 0), GatedRow(ASKED, 0)]
    ensures s.db.approvals == [ApprovalRow(0, AwaitingDecision), ApprovalRow(1, AwaitingDecision), ApprovalRow(2, AwaitingDecision)]
  {
    hide TopStep, ModelTurnStep, CheckStopStep, RunCallStep, StartContinuationStep, StartResumeStep, FinishHandlerStep, SettleStep,
         RecoverStalledRun, CancelRun, DecideApproval, ExpireApprovals, BuildToolInteractionTurns, Reachable, Trim, Chars;
    s := ThreeWait(c);
    s := StepIsReachable(c, s, EndBatch(0));
    RunTermination.NothingIsStored(c);
    s := StepIsReachable(c, s, ParkSave(0));
  }

  lemma TwoApproved(c: Config) returns (s: Sys)
    requires ThreeCallsFit(c)
    ensures Reachable(c, s) && s.db.run.status == RunPendingApproval && s.hist.approvedRuns == [] && s.hist.handlersSince == 0
    ensures s.db.resumes == [ResumeJob(0, false), ResumeJob(1, false)]
    ensures s.db.approvals == [ApprovalRow(0, Approved), ApprovalRow(1, Approved), ApprovalRow(2, AwaitingDecision)]
    ensures |s.db.toolCalls| == 3 && s.db.toolCalls[0].status == Pending && s.db.toolCalls[1].status == Pending
  {
    hide RejectCall, CancelByDecision, EndBatchStep, ParkSaveStep, CancelRun, ExpireApprovals, RecoverStalledRun, SettleStep;
    s := ThreeParked(c);
    s := StepIsReachable(c, s, Decide(0, Approve));
    assert s.db.approvals[2].status == AwaitingDecision;
    s := StepIsReachable(c, s, Decide(1, Approve));
    assert s.db.approvals[2].status == AwaitingDecision;
  }

  /** Two are approved, the third decision cancels the run. */
  lemma TwoApprovedOneCancels(c: Config) returns (s: Sys)
    requires ThreeCallsFit(c)
    ensures Reachable(c, s) && s.db.run.status == RunCancelled && s.hist.approvedRuns == [] && s.hist.sinceCancel == 0 && s.hist.handlersSince == 0
    ensures s.db.resumes == [ResumeJob(0, false), ResumeJob(1, false)]
    ensures s.db.approvals == [ApprovalRow(0, Approved), ApprovalRow(1, Approved), ApprovalRow(2, ApprovalCancelled)]
    ensures |s.db.toolCalls| == 3 && s.db.toolCalls[0].status == Pending && s.db.toolCalls[1].status == Pending
  {
    hide RejectCall, ApproveCall;
    s := TwoApproved(c);
    OneCallEachHolds(c, s);
    s := StepIsReachable(c, s, Decide(2, CancelDecision));
  }

  /** A cancelling decision stops nothing that was approved: both handlers start on the cancelled run. */
  lemma TwoHandlersAfterCancel(c: Config) returns (s: Sys)
    requires ThreeCallsFit(c)
    ensures Reachable(c, s) && s.db.run.status == RunCancelled
    ensures s.hist.approvedRuns == [0, 1] && s.hist.sinceCancel == 2 && s.hist.handlersSince == 2
  {
    hide TopStep, ModelTurnStep, CheckStopStep, RunCallStep, EndBatchStep, ParkSaveStep, StartContinuationStep, FinishHandlerStep,
         SettleStep, RecoverStalledRun, CancelRun, DecideApproval, ExpireApprovals, GetSettlement;
    s := TwoApprovedOneCancels(c);
    s := StepIsReachable(c, s, StartResume(0));
    assert s.db.resumes == [ResumeJob(1, false)];
    s := StepIsReachable(c, s, StartResume(0));
  }
}
