/** Deciding before the park: with an action still writing down its batch, exactly when the last open
    decision can end in an answer that leaves out a call of the batch
    (convex/agentObjectiveLoop.ts:518-876, convex/agentRunApprovals.ts:490-519 and 710-746,
    convex/agentObjectiveLoopService.ts:86-125). */
module MissingCall {
  import opened Common
  import opened ToolGate
  import opened Transcript
  import opened RefusalKey
  import opened RunRecords
  import opened RunProtocol
  import opened Parking
  import opened EarlyDecision
  import CallsAfterCancel
  import LeaseExclusion
  import ApprovalSafety

  /** How many of its calls the batch will still write down. */
  function Remaining(c: Config, e: Exec): nat
    requires e.phase.Batch?
  {
    var calls, budget := |e.phase.calls| - e.phase.next, c.maxToolCalls - e.toolCallCount;
    if calls <= 0 || budget <= 0 then 0 else if calls <= budget then calls else budget
  }

  /** None of them is malformed, so the batch comes to its end. */
  predicate RunsThrough(c: Config, e: Exec)
    requires e.phase.Batch?
  {
    forall i :: e.phase.next <= i < e.phase.next + Remaining(c, e) && i < |e.phase.calls| ==> e.phase.calls[i].args.Obj?
  }

  /** The approval is about a call of this turn. */
  predicate OfTurn(db: Db, a: nat, turn: nat) {
    && a < |db.approvals| && db.approvals[a].toolCall < |db.toolCalls|
    && db.toolCalls[db.approvals[a].toolCall].turnIndex == turn
  }

  function CallsOf(db: Db, turn: nat): nat { |RowsOfTurn(db.toolCalls, turn)| }

  /** A settlement of the turn, about to be acted on, holds fewer calls than the turn has. */
  predicate Short(db: Db, job: Job, turn: nat) {
    job.Settling? && job.settlement.settled && OfTurn(db, job.approval, turn) && |job.settlement.batch| < CallsOf(db, turn)
  }

  /** And the run is parked, so acting on it is the answer the model gets. */
  ghost predicate AnswersShort(s: Sys, turn: nat) {
    CanContinue(s.db) && exists k :: 0 <= k < |s.jobs| && Short(s.db, s.jobs[k], turn)
  }

  /** Some schedule leads there with nothing crashing and nobody cancelling. */
  ghost predicate MayAnswerShort(c: Config, s: Sys, turn: nat) {
    exists run: seq<Event> :: Valid(c, s, run) && (forall i :: 0 <= i < |run| ==> Unharmed(run[i])) && AnswersShort(Replay(c, s, run), turn)
  }

  /** What such an answer is: either the stored conversation gains the shorter batch alone and the run
      goes on, or the run is closed. The calls left out are in no conversation either way. */
  lemma ShortAnswerLeavesOut(c: Config, s: Sys, k: nat, turn: nat)
    requires CanContinue(s.db) && k < |s.jobs| && Short(s.db, s.jobs[k], turn)
    ensures var batch, was, s' := s.jobs[k].settlement.batch, s.db.checkpoint.value, Apply(c, s, Settle(k));
            && |CallsOfRows(batch)| < CallsOf(s.db, turn) && s'.db.toolCalls == s.db.toolCalls
            && if SettledTranscript(s.db, batch, c.cap).Some? then
                 && s'.db.checkpoint == Some(was.(status := Active, updatedAt := s.now,
                      transcript := Trim(was.transcript + BuildToolInteractionTurns(CallsOfRows(batch)), c.cap)))
                 && s'.db.continuations == s.db.continuations + [s.now]
               else s'.db.checkpoint == s.db.checkpoint && s'.db.run.status == if s.jobs[k].succeeded then RunSuccess else RunFailed
  {
    hide Trim, Chars, BuildToolInteractionTurns, RowsOfTurn, LeftOrphan;
  }

  // ---------------------------------------------------------------- counting a turn's rows

  lemma {:induction false} SameTurnsSameCalls(was: seq<ToolCallRow>, rows: seq<ToolCallRow>, turn: nat)
    requires SameTurns(was, rows)
    ensures |RowsOfTurn(rows, turn)| == |RowsOfTurn(was, turn)|
  {
    if was != [] {
      assert SameTurns(was[1..], rows[1..]);
      SameTurnsSameCalls(was[1..], rows[1..], turn);
    }
  }

  lemma OneRowMore(rows: seq<ToolCallRow>, row: ToolCallRow, turn: nat)
    ensures |RowsOfTurn(rows + [row], turn)| == |RowsOfTurn(rows, turn)| + if row.turnIndex == turn then 1 else 0
  {
    RowsOfTurnAdd(rows, [row], turn);
    assert RowsOfTurn([row][1..], turn) == [];
  }

  /** A settlement handed out now holds all the turn has, up to the query's limit. */
  lemma SettlementOfTurn(db: Db, a: nat, turn: nat)
    requires OfTurn(db, a, turn)
    ensures var batch := GetSettlement(db, a).batch;
            && |batch| <= CallsOf(db, turn)
            && (GetSettlement(db, a).settled && CallsOf(db, turn) <= AGENT_RUN_DETAIL_LIMIT ==> |batch| == CallsOf(db, turn))
  {
    hide RowsOfTurn;
  }

  // -------------------------------------------------------------- the schedules that do it

  lemma ShortNow(c: Config, s: Sys, turn: nat)
    requires AnswersShort(s, turn)
    ensures MayAnswerShort(c, s, turn)
  {
    hide AnswersShort;
    assert Valid(c, s, []) && Replay(c, s, []) == s;
  }

  lemma ShortLater(c: Config, s: Sys, e: Event, turn: nat)
    requires Enabled(c, s, e) && Unharmed(e) && MayAnswerShort(c, Apply(c, s, e), turn)
    ensures MayAnswerShort(c, s, turn)
  {
    hide Apply, Enabled, Unharmed, AnswersShort;
    var run: seq<Event> :| Valid(c, Apply(c, s, e), run) && (forall i :: 0 <= i < |run| ==> Unharmed(run[i]))
      && AnswersShort(Replay(c, Apply(c, s, e), run), turn);
    var longer := [e] + run;
    assert longer[1..] == run && longer[0] == e;
    assert Valid(c, s, longer) && Replay(c, s, longer) == Replay(c, Apply(c, s, e), run);
    assert forall i :: 0 <= i < |longer| ==> Unharmed(longer[i]);
  }

  /** The action is in its batch, some of which waits, and will park where it can be stored. */
  predicate InBatch(c: Config, s: Sys, turn: nat) {
    && |s.execs| == 1 && s.execs[0].phase.Batch? && s.execs[0].loopIndex == turn && s.execs[0].phase.deferred > 0
    && (s.execs[0].phase.cleared ==> Remaining(c, s.execs[0]) > 0) && Storable(Trim(s.execs[0].transcript, c.cap), c.cap)
  }

  /** Settlement `k` of the turn is in hand, and will be short by the end of the batch. */
  ghost predicate InHandShort(c: Config, s: Sys, turn: nat, k: nat) {
    && InBatch(c, s, turn) && RunsThrough(c, s.execs[0]) && s.db.run.status == RunRunning
    && k < |s.jobs| && s.jobs[k].Settling? && s.jobs[k].settlement.settled && OfTurn(s.db, s.jobs[k].approval, turn)
    && |s.jobs[k].settlement.batch| < CallsOf(s.db, turn) + Remaining(c, s.execs[0])
  }

  lemma CheckedOnce(c: Config, s: Sys, turn: nat, k: nat)
    requires InHandShort(c, s, turn, k) && !s.execs[0].phase.cleared && Remaining(c, s.execs[0]) > 0
    ensures Enabled(c, s, CheckStop(0))
    ensures var s' := Apply(c, s, CheckStop(0));
            InHandShort(c, s', turn, k) && s'.execs[0].phase.cleared && Remaining(c, s'.execs[0]) == Remaining(c, s.execs[0])
  {
    hide RowsOfTurn, Trim, Chars;
  }

  lemma WrittenOnce(c: Config, s: Sys, turn: nat, k: nat, facts: CallFacts)
    requires InHandShort(c, s, turn, k) && s.execs[0].phase.cleared && facts.ran.status == Failed
    ensures Enabled(c, s, RunCall(0, facts))
    ensures var s' := Apply(c, s, RunCall(0, facts));
            InHandShort(c, s', turn, k) && !s'.execs[0].phase.cleared && Remaining(c, s'.execs[0]) == Remaining(c, s.execs[0]) - 1
  {
    hide RowsOfTurn, Trim, Chars, FateOf, GetSettlement;
    var e := s.execs[0];
    assert e.phase.calls[e.phase.next].args.Obj?;
    var s' := Apply(c, s, RunCall(0, facts));
    var row := s'.db.toolCalls[|s.db.toolCalls|];
    assert s'.db.toolCalls == s.db.toolCalls + [row] && row.turnIndex == turn;
    OneRowMore(s.db.toolCalls, row, turn);
  }

  lemma {:induction false} WrittenToTheEnd(c: Config, s: Sys, turn: nat, k: nat)
    requires InHandShort(c, s, turn, k)
    ensures MayAnswerShort(c, s, turn)
    decreases Remaining(c, s.execs[0]), !s.execs[0].phase.cleared
  {
    hide Apply, MayAnswerShort, Enabled;
    if s.execs[0].phase.cleared {
      var e := RunCall(0, AnyFacts());
      WrittenOnce(c, s, turn, k, e.facts);
      WrittenToTheEnd(c, Apply(c, s, e), turn, k);
      ShortLater(c, s, e, turn);
    } else if Remaining(c, s.execs[0]) > 0 {
      CheckedOnce(c, s, turn, k);
      WrittenToTheEnd(c, Apply(c, s, CheckStop(0)), turn, k);
      ShortLater(c, s, CheckStop(0), turn);
    } else {
      ParksShort(c, s, turn, k);
    }
  }

  function AnyFacts(): CallFacts {
    CallFacts(Validation(true, ""), None, Allowed, Outcome(Failed, RehearsedPayload))
  }

  lemma ParksShort(c: Config, s: Sys, turn: nat, k: nat)
    requires InHandShort(c, s, turn, k) && Remaining(c, s.execs[0]) == 0
    ensures MayAnswerShort(c, s, turn)
  {
    hide RowsOfTurn, Trim, Chars, MayAnswerShort, LeftOrphan;
    var ended := Apply(c, s, EndBatch(0));
    var parked := Apply(c, ended, ParkSave(0));
    assert CanContinue(parked.db) && Short(parked.db, parked.jobs[k], turn);
    ShortNow(c, parked, turn);
    ShortLater(c, ended, ParkSave(0), turn);
    ShortLater(c, s, EndBatch(0), turn);
  }

  /** The last open decision yields a settlement of what is written down so far. */
  lemma SettlesEarly(c: Config, s: Sys, a: nat, d: Decision, turn: nat)
    requires ApprovalSafety.OneCallEach(s.db) && LastOpen(s.db, a) && !d.CancelDecision? && OfTurn(s.db, a, turn)
    requires InBatch(c, s, turn) && RunsThrough(c, s.execs[0]) && Remaining(c, s.execs[0]) > 0
    ensures MayAnswerShort(c, Apply(c, s, Decide(a, d)), turn)
  {
    hide RowsOfTurn, TakeRows, MayAnswerShort, Trim, Chars, AppendRefusedToolCall, BuildRefusedToolCallKey, RefusalPayload, Remaining, RunsThrough;
    var s1 := Apply(c, s, Decide(a, d));
    DecideFlight(c, s, a, d);
    var n, m := |s.db.resumes|, |s.jobs|;
    assert s1.db.resumes[n] == ResumeJob(a, d.Reject?) && s1.db.run.status == RunRunning;
    SameTurnsSameCalls(s.db.toolCalls, s1.db.toolCalls, turn);
    var s2 := Apply(c, s1, StartResume(n));
    if d.Reject? {
      assert s2.jobs[m] == Settling(a, GetSettlement(s2.db, a), false);
      SettlementOfTurn(s2.db, a, turn);
      WrittenToTheEnd(c, s2, turn, m);
    } else {
      assert s2.jobs[m] == Running(a);
      HandlerSettlesEarly(c, s2, m, turn);
    }
    ShortLater(c, s1, StartResume(n), turn);
  }

  lemma HandlerSettlesEarly(c: Config, s: Sys, k: nat, turn: nat)
    requires k < |s.jobs| && s.jobs[k].Running? && OfTurn(s.db, s.jobs[k].approval, turn) && !StillPending(s.db.approvals)
    requires InBatch(c, s, turn) && RunsThrough(c, s.execs[0]) && Remaining(c, s.execs[0]) > 0 && s.db.run.status == RunRunning
    ensures MayAnswerShort(c, s, turn)
  {
    hide RowsOfTurn, TakeRows, MayAnswerShort, Trim, Chars, Remaining, RunsThrough;
    var finish := FinishHandler(k, true, RehearsedPayload);
    var s' := Apply(c, s, finish);
    SettlementOfTurn(s'.db, s.jobs[k].approval, turn);
    WrittenToTheEnd(c, s', turn, k);
    ShortLater(c, s, finish, turn);
  }

  // ---------------------------------------------------------------- a batch that never parks

  /** The action has a malformed call ahead of it, or is gone for good. */
  ghost predicate Blocked(c: Config, s: Sys) {
    if s.execs == [] then s.db.continuations == [] && s.db.checkpoint == None
    else
      && |s.execs| == 1 && s.execs[0].phase.Batch?
      && !RunsThrough(c, s.execs[0])
  }

  lemma BlockedAction(c: Config, s: Sys, e: Event)
    requires LeaseExclusion.Lease(c, s) && Blocked(c, s) && Enabled(c, s, e) && Unharmed(e) && OfAction(e)
    ensures Blocked(c, Apply(c, s, e))
  {
    hide FateOf, Chars, Trim, LeftOrphan, TopStep, ModelTurnStep, ParkSaveStep;
    assert s.execs == [s.execs[0]] && Remove(s.execs, 0) == [] && s.db.continuations == [];
    var x := s.execs[0];
    var bad :| x.phase.next <= bad < x.phase.next + Remaining(c, x) && bad < |x.phase.calls| && !x.phase.calls[bad].args.Obj?;
    match e {
      case CheckStop(_) => assert !IsRunStopRequested(s.db.run.status) ==> Remaining(c, Apply(c, s, e).execs[0]) == Remaining(c, x);
      case RunCall(_, _) =>
        var x' := Apply(c, s, e).execs[0];
        assert x'.phase.next == x.phase.next + 1 <= bad && x'.phase.calls == x.phase.calls && x'.toolCallCount == x.toolCallCount + 1;
        assert Remaining(c, x') == Remaining(c, x) - 1;
    }
  }

  lemma BlockedStep(c: Config, s: Sys, e: Event)
    requires LeaseExclusion.MarginHolds(c) && LeaseExclusion.Lease(c, s) && Blocked(c, s) && Enabled(c, s, e) && Unharmed(e)
    ensures Blocked(c, Apply(c, s, e))
  {
    hide FateOf, Chars, Trim, LeftOrphan, TopStep, ModelTurnStep, CheckStopStep, RunCallStep, EndBatchStep, ParkSaveStep, GetSettlement, CallsOfRows,
         BuildToolInteractionTurns, ApproveCall, RejectCall, PatchCall, CancelRun, ExpireApprovals, RunsThrough;
    if e.Sweep? {
      LeaseExclusion.LeaseSweep(c, s);
    }
    if OfAction(e) {
      BlockedAction(c, s, e);
    }
  }

  lemma {:induction false} BlockedAlways(c: Config, s: Sys, run: seq<Event>)
    requires LeaseExclusion.MarginHolds(c) && LeaseExclusion.Lease(c, s) && Blocked(c, s)
    requires Valid(c, s, run) && forall i :: 0 <= i < |run| ==> Unharmed(run[i])
    ensures !CanContinue(Replay(c, s, run).db)
    decreases |run|
  {
    hide Apply, Enabled, Unharmed;
    if run != [] {
      hide LeaseExclusion.Lease, Blocked;
      BlockedStep(c, s, run[0]);
      LeaseExclusion.LeaseStep(c, s, run[0]);
      BlockedAlways(c, Apply(c, s, run[0]), run[1..]);
    }
  }

  // ------------------------------------------------------- a batch with nothing more to come

  /** The action has nothing left to write down, and parks next. */
  predicate AtTheEnd(c: Config, e: Exec, turn: nat) {
    && e.loopIndex == turn && Storable(Trim(e.transcript, c.cap), c.cap)
    && (e.phase.Parking? || (e.phase.Batch? && e.phase.deferred > 0 && !e.phase.cleared && Remaining(c, e) == 0))
  }

  /** Whoever goes on is past the turn. */
  ghost predicate Past(c: Config, s: Sys, turn: nat) {
    if s.execs == [] then s.db.checkpoint.Some? ==> s.db.checkpoint.value.loopIndex > turn
    else
      || AtTheEnd(c, s.execs[0], turn)
      || (s.execs[0].loopIndex > turn && (s.db.checkpoint.Some? ==> s.db.checkpoint.value.loopIndex > turn))
  }

  /** The turn has its `n` calls, and every settlement handed out for it has them all. */
  ghost predicate Whole(db: Db, jobs: seq<Job>, turn: nat, n: nat) {
    && CallsOf(db, turn) == n <= AGENT_RUN_DETAIL_LIMIT
    && forall k :: 0 <= k < |jobs| && jobs[k].Settling? && jobs[k].settlement.settled && OfTurn(db, jobs[k].approval, turn) ==> |jobs[k].settlement.batch| >= n
  }

  lemma PastEnd(c: Config, s: Sys, turn: nat)
    requires LeaseExclusion.Lease(c, s) && Past(c, s, turn) && Enabled(c, s, EndBatch(0))
    ensures Past(c, EndBatchStep(c, s, 0), turn)
  {
    hide Chars, Trim, LeftOrphan, BuildToolInteractionTurns;
    assert s.execs == [s.execs[0]];
  }

  lemma PastCall(c: Config, s: Sys, facts: CallFacts, turn: nat)
    requires LeaseExclusion.Lease(c, s) && Past(c, s, turn) && Enabled(c, s, RunCall(0, facts))
    ensures Past(c, RunCallStep(s, 0, facts), turn) && s.execs[0].loopIndex > turn
  {
    hide FateOf, Chars, Trim;
    assert s.execs == [s.execs[0]];
  }

  lemma PastAction(c: Config, s: Sys, e: Event, turn: nat)
    requires LeaseExclusion.Lease(c, s) && Past(c, s, turn) && Enabled(c, s, e) && Unharmed(e) && OfAction(e)
    ensures Past(c, Apply(c, s, e), turn)
    ensures e.RunCall? ==> s.execs[e.i].loopIndex > turn
  {
    hide FateOf, Chars, Trim, LeftOrphan, BuildToolInteractionTurns, GetSettlement, StartContinuationStep, StartResumeStep, FinishHandlerStep,
         SettleStep, RecoverStalledRun, CancelRun, DecideApproval, ExpireApprovals, EndBatchStep, RunCallStep;
    assert s.execs == [s.execs[0]] && Remove(s.execs, 0) == [];
    match e {
      case EndBatch(_) => PastEnd(c, s, turn);
      case RunCall(_, facts) => PastCall(c, s, facts, turn);
      case _ =>
    }
  }

  lemma PastOther(c: Config, s: Sys, e: Event, turn: nat)
    requires LeaseExclusion.MarginHolds(c) && LeaseExclusion.Lease(c, s) && Past(c, s, turn) && Enabled(c, s, e) && Unharmed(e) && !OfAction(e)
    ensures Past(c, Apply(c, s, e), turn)
  {
    hide Chars, Trim, LeftOrphan, BuildToolInteractionTurns, GetSettlement, CallsOfRows, ApproveCall, RejectCall, PatchCall, Remaining, CancelRun,
         ExpireApprovals;
    if e.Sweep? {
      LeaseExclusion.LeaseSweep(c, s);
    }
  }

  lemma WholeWithMore(db: Db, jobs: seq<Job>, turn: nat, n: nat, db': Db)
    requires Whole(db, jobs, turn, n) && |db.toolCalls| <= |db'.toolCalls| && |db.approvals| <= |db'.approvals|
    requires SameTurns(db.toolCalls, db'.toolCalls[..|db.toolCalls|])
    requires forall i :: |db.toolCalls| <= i < |db'.toolCalls| ==> db'.toolCalls[i].turnIndex != turn
    requires forall a :: 0 <= a < |db.approvals| ==> db'.approvals[a].toolCall == db.approvals[a].toolCall
    requires forall a :: |db.approvals| <= a < |db'.approvals| ==> db'.approvals[a].toolCall >= |db.toolCalls|
    ensures Whole(db', jobs, turn, n)
  {
    hide RowsOfTurn;
    var kept, more := db'.toolCalls[..|db.toolCalls|], db'.toolCalls[|db.toolCalls|..];
    assert db'.toolCalls == kept + more;
    RowsOfTurnAdd(kept, more, turn);
    NoRowOfTurn(more, turn);
    SameTurnsSameCalls(db.toolCalls, kept, turn);
    forall k | 0 <= k < |jobs| && jobs[k].Settling? && OfTurn(db', jobs[k].approval, turn)
      ensures OfTurn(db, jobs[k].approval, turn)
    {
      assert db'.toolCalls[db'.approvals[jobs[k].approval].toolCall].turnIndex == turn;
      assert db'.approvals[jobs[k].approval].toolCall < |db.toolCalls| ==>
        kept[db'.approvals[jobs[k].approval].toolCall] == db'.toolCalls[db'.approvals[jobs[k].approval].toolCall];
    }
  }

  lemma WholeAction(c: Config, s: Sys, e: Event, turn: nat, n: nat)
    requires LeaseExclusion.Lease(c, s) && Past(c, s, turn) && Enabled(c, s, e) && Unharmed(e) && OfAction(e)
    requires Whole(s.db, s.jobs, turn, n)
    ensures Whole(Apply(c, s, e).db, s.jobs, turn, n) && Apply(c, s, e).jobs == s.jobs
  {
    hide Whole, RunCallStep, FateOf, Chars, Trim, LeftOrphan, BuildToolInteractionTurns, GetSettlement, StartContinuationStep, StartResumeStep,
         FinishHandlerStep, SettleStep, RecoverStalledRun, CancelRun, DecideApproval, ExpireApprovals;
    PastAction(c, s, e, turn);
    if e.RunCall? {
      RowOfItsTurn(c, s, e.i, e.facts);
    }
    var db' := Apply(c, s, e).db;
    assert db'.toolCalls[..|s.db.toolCalls|] == s.db.toolCalls;
    WholeWithMore(s.db, s.jobs, turn, n, db');
  }

  lemma RowOfItsTurn(c: Config, s: Sys, i: nat, facts: CallFacts)
    requires Enabled(c, s, RunCall(i, facts))
    ensures var s' := RunCallStep(s, i, facts);
            && |s'.db.toolCalls| == |s.db.toolCalls| + 1 && s'.db.toolCalls[..|s.db.toolCalls|] == s.db.toolCalls
            && s'.db.toolCalls[|s.db.toolCalls|].turnIndex == s.execs[i].loopIndex && s'.jobs == s.jobs
            && (s'.db.approvals == s.db.approvals || s'.db.approvals == s.db.approvals + [ApprovalRow(|s.db.toolCalls|, AwaitingDecision)])
  {
    hide FateOf;
  }

  lemma WholeOther(c: Config, s: Sys, e: Event, turn: nat, n: nat)
    requires Enabled(c, s, e) && Unharmed(e) && !OfAction(e) && Whole(s.db, s.jobs, turn, n)
    ensures Whole(Apply(c, s, e).db, Apply(c, s, e).jobs, turn, n)
  {
    hide Chars, Trim, LeftOrphan, BuildToolInteractionTurns, GetSettlement, CallsOfRows, RowsOfTurn, SettledTranscript,
         RememberRefusal, RefusalPayload, Whole, CancelRun, ExpireApprovals;
    var s' := Apply(c, s, e);
    assert SameTurns(s.db.toolCalls, s'.db.toolCalls);
    assert s'.db.toolCalls[..|s.db.toolCalls|] == s'.db.toolCalls;
    WholeWithMore(s.db, s.jobs, turn, n, s'.db);
    WholeWithJobs(s, s', turn, n);
  }

  /** A job handed out now has the settlement of this moment. */
  lemma WholeWithJobs(s: Sys, s': Sys, turn: nat, n: nat)
    requires Whole(s'.db, s.jobs, turn, n)
    requires forall k :: 0 <= k < |s'.jobs| && s'.jobs[k].Settling? ==>
               s'.jobs[k] in s.jobs || s'.jobs[k].settlement == GetSettlement(s'.db, s'.jobs[k].approval)
    ensures Whole(s'.db, s'.jobs, turn, n)
  {
    hide RowsOfTurn, GetSettlement;
    forall k | 0 <= k < |s'.jobs| && s'.jobs[k].Settling? && s'.jobs[k].settlement.settled && OfTurn(s'.db, s'.jobs[k].approval, turn)
      ensures |s'.jobs[k].settlement.batch| >= n
    {
      if s'.jobs[k] in s.jobs {
        var l :| 0 <= l < |s.jobs| && s.jobs[l] == s'.jobs[k];
      } else {
        SettlementOfTurn(s'.db, s'.jobs[k].approval, turn);
      }
    }
  }

  lemma {:induction false} WholeAlways(c: Config, s: Sys, run: seq<Event>, turn: nat, n: nat)
    requires LeaseExclusion.MarginHolds(c) && LeaseExclusion.Lease(c, s) && Past(c, s, turn) && Whole(s.db, s.jobs, turn, n)
    requires Valid(c, s, run) && forall i :: 0 <= i < |run| ==> Unharmed(run[i])
    ensures !AnswersShort(Replay(c, s, run), turn)
    decreases |run|
  {
    hide Apply, Enabled, Unharmed;
    if run != [] {
      hide LeaseExclusion.Lease, Past, Whole, AnswersShort;
      if OfAction(run[0]) {
        PastAction(c, s, run[0], turn);
        WholeAction(c, s, run[0], turn, n);
      } else {
        PastOther(c, s, run[0], turn);
        WholeOther(c, s, run[0], turn, n);
      }
      LeaseExclusion.LeaseStep(c, s, run[0]);
      WholeAlways(c, Apply(c, s, run[0]), run[1..], turn, n);
    } else {
      hide RowsOfTurn;
    }
  }

  // ------------------------------------------------------------------ the exact condition

  /** An action past its stop check has a call within budget in hand. */
  ghost predicate CheckedForACall(c: Config, s: Sys) {
    forall i :: 0 <= i < |s.execs| && s.execs[i].phase.Batch? && s.execs[i].phase.cleared ==> Remaining(c, s.execs[i]) > 0
  }

  lemma CheckedAction(c: Config, s: Sys, e: Event)
    requires CheckedForACall(c, s) && Enabled(c, s, e) && OfAction(e)
    ensures CheckedForACall(c, Apply(c, s, e))
  {
    hide FateOf, Chars, Trim, LeftOrphan, BuildToolInteractionTurns, LoopSave, StartContinuationStep, StartResumeStep, FinishHandlerStep,
         SettleStep, RecoverStalledRun, CancelRun, DecideApproval, ExpireApprovals;
  }

  lemma CheckedStep(c: Config, s: Sys, e: Event)
    requires CheckedForACall(c, s) && Enabled(c, s, e)
    ensures CheckedForACall(c, Apply(c, s, e))
  {
    hide TopStep, ModelTurnStep, CheckStopStep, RunCallStep, EndBatchStep, ParkSaveStep, CancelRun, DecideApproval, ExpireApprovals,
         SettleBatchAndContinue, GetSettlement, RecoverStalledRun, Remaining, Chars, Trim, LeftOrphan;
    if OfAction(e) {
      CheckedAction(c, s, e);
    }
  }

  lemma {:induction false} CheckedAlways(c: Config, s: Sys, run: seq<Event>)
    requires CheckedForACall(c, s) && Valid(c, s, run)
    ensures CheckedForACall(c, Replay(c, s, run))
    decreases |run|
  {
    hide CheckedForACall, Apply, Enabled;
    if run != [] {
      CheckedStep(c, s, run[0]);
      CheckedAlways(c, Apply(c, s, run[0]), run[1..]);
    }
  }

  lemma CheckedWhenReachable(c: Config, s: Sys)
    requires Reachable(c, s)
    ensures CheckedForACall(c, s)
  {
    var start, run :| Initial(start) && Valid(c, start, run) && Replay(c, start, run) == s;
    CheckedAlways(c, start, run);
  }

  /** A settlement of the turn, handed out before, holds fewer calls than are written down. */
  ghost predicate EarlierIsShort(s: Sys, turn: nat) {
    exists k :: 0 <= k < |s.jobs| && Short(s.db, s.jobs[k], turn)
  }

  /**
   * With an action still in its batch and this request, about a call of it, the last one open: deciding
   * it now can end - nothing crashing, nobody cancelling - in an answer that leaves out a call of the
   * batch exactly when a call of it is still to be written down (or an earlier settlement is short
   * already) and no malformed call stops the batch before its end. Read before the decision.
   */
  lemma LeavesOutExactly(c: Config, s: Sys, a: nat, d: Decision, turn: nat)
    requires LeaseExclusion.MarginHolds(c) && Reachable(c, s) && LastOpen(s.db, a) && !d.CancelDecision?
    requires |s.execs| == 1 && s.execs[0].phase.Batch? && s.execs[0].phase.deferred > 0 && s.execs[0].loopIndex == turn
    requires Storable(Trim(s.execs[0].transcript, c.cap), c.cap)
    requires OfTurn(s.db, a, turn) && CallsOf(s.db, turn) <= AGENT_RUN_DETAIL_LIMIT
    ensures MayAnswerShort(c, Apply(c, s, Decide(a, d)), turn)
            <==> RunsThrough(c, s.execs[0]) && (Remaining(c, s.execs[0]) > 0 || EarlierIsShort(s, turn))
  {
    hide RowsOfTurn, MayAnswerShort, Trim, Chars, Remaining, RunsThrough, LeaseExclusion.Lease, Apply;
    CallsAfterCancel.OneCallEachHolds(c, s);
    CallsAfterCancel.LeaseHolds(c, s);
    CheckedWhenReachable(c, s);
    LeaseExclusion.LeaseStep(c, s, Decide(a, d));
    AfterDecision(c, s, a, d, turn);
    var s' := Apply(c, s, Decide(a, d));
    if !RunsThrough(c, s.execs[0]) {
      NeverWhileBlocked(c, s', turn);
    } else if Remaining(c, s.execs[0]) > 0 {
      SettlesEarly(c, s, a, d, turn);
    } else if EarlierIsShort(s, turn) {
      var k :| 0 <= k < |s.jobs| && Short(s.db, s.jobs[k], turn);
      WrittenToTheEnd(c, s', turn, k);
    } else {
      NeverWhileWhole(c, s', turn, CallsOf(s.db, turn));
    }
  }

  lemma AfterDecision(c: Config, s: Sys, a: nat, d: Decision, turn: nat)
    requires LastOpen(s.db, a) && !d.CancelDecision?
    ensures var s' := Apply(c, s, Decide(a, d));
            && s'.execs == s.execs && s'.jobs == s.jobs && s'.db.run.status == RunRunning && s'.db.checkpoint == s.db.checkpoint
            && CallsOf(s'.db, turn) == CallsOf(s.db, turn) && forall b: nat :: OfTurn(s'.db, b, turn) <==> OfTurn(s.db, b, turn)
  {
    hide RowsOfTurn, AppendRefusedToolCall, BuildRefusedToolCallKey, RefusalPayload;
    DecideFlight(c, s, a, d);
    var s' := Apply(c, s, Decide(a, d));
    SameTurnsSameCalls(s.db.toolCalls, s'.db.toolCalls, turn);
  }

  lemma NeverWhileBlocked(c: Config, s: Sys, turn: nat)
    requires LeaseExclusion.MarginHolds(c) && LeaseExclusion.Lease(c, s)
    requires |s.execs| == 1 && s.execs[0].phase.Batch? && !RunsThrough(c, s.execs[0])
    ensures !MayAnswerShort(c, s, turn)
  {
    hide LeaseExclusion.Lease, RunsThrough, Unharmed, CanContinue;
    forall run: seq<Event> | Valid(c, s, run) && forall i :: 0 <= i < |run| ==> Unharmed(run[i])
      ensures !AnswersShort(Replay(c, s, run), turn)
    {
      BlockedAlways(c, s, run);
    }
  }

  lemma NeverWhileWhole(c: Config, s: Sys, turn: nat, n: nat)
    requires LeaseExclusion.MarginHolds(c) && LeaseExclusion.Lease(c, s) && Past(c, s, turn) && Whole(s.db, s.jobs, turn, n)
    ensures !MayAnswerShort(c, s, turn)
  {
    hide LeaseExclusion.Lease, Past, Whole, Unharmed, AnswersShort;
    forall run: seq<Event> | Valid(c, s, run) && forall i :: 0 <= i < |run| ==> Unharmed(run[i])
      ensures !AnswersShort(Replay(c, s, run), turn)
    {
      WholeAlways(c, s, run, turn, n);
    }
  }
}
