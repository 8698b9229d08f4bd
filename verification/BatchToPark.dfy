/** From the model's request to the park and back: over every run that nothing crashes or cancels
    and whose decisions are taken one at a time, each batch begins clean, is written down call by
    call, and whether it parks or not leaves the checkpoint inline execution would have left
    (convex/agentObjectiveLoop.ts:500-892, convex/agentObjectiveLoopService.ts:98-125). */
module BatchToPark {
  import opened Common
  import opened ToolGate
  import opened Transcript
  import opened RefusalKey
  import opened RunRecords
  import opened RunProtocol
  import opened Parking
  import LeaseExclusion
  import ApprovalSafety
  import RunBudgets

  // ------------------------------------------------------------------ call by call

  /** The one live action is part-way through a batch, whose rows follow `prior`. */
  ghost predicate BatchSoFar(s: Sys, prior: seq<ToolCallRow>, rows: seq<ToolCallRow>) {
    && |s.execs| == 1 && s.execs[0].phase.Batch?
    && var e, b := s.execs[0], s.execs[0].phase;
       && BatchRows(s.db, prior, rows, e.loopIndex)
       && |rows| == b.next <= |b.calls| && |rows| <= e.toolCallCount
       && (forall j :: 0 <= j < |rows| ==> IsRowOf(rows[j], b.calls[j]) && rows[j].status != Pending)
       && (b.deferred == 0 ==> !StillPending(s.db.approvals) && b.executed == CallsOfRows(rows))
       && (b.deferred > 0 ==> StillPending(s.db.approvals))
  }

  predicate IsRowOf(row: ToolCallRow, call: Call) {
    row.name == call.name && row.args == call.args && row.signature == call.signature
  }

  /** A row added with its result, or with an approval request of its own, keeps the batch whole. */
  lemma RowJoins(db: Db, db': Db, prior: seq<ToolCallRow>, rows: seq<ToolCallRow>, turn: nat, row: ToolCallRow)
    requires BatchRows(db, prior, rows, turn) && row.turnIndex == turn && row.args.Obj?
    requires row.status == ApprovalRequired <==> row.result.None?
    requires row.status != Pending && db'.toolCalls == db.toolCalls + [row]
    requires db'.approvals == if row.result.Some? then db.approvals
                              else db.approvals + [ApprovalRow(|db.toolCalls|, AwaitingDecision)]
    ensures BatchRows(db', prior, rows + [row], turn)
  {
    assert db'.toolCalls == prior + (rows + [row]);
    forall a: nat | CanDecide(db', a)
      ensures a < |db.approvals| ==> CanDecide(db, a) && db.approvals[a] == db'.approvals[a]
      ensures a >= |db.approvals| ==> a == |db.approvals| && db'.approvals[a].toolCall == |prior| + |rows|
    {
    }
    assert ApprovalsFit(db', |prior|);
    forall j | 0 <= j <= |rows|
      ensures RowStands(db', |prior| + j, (rows + [row])[j])
    {
      if j < |rows| {
        assert RowStands(db, |prior| + j, rows[j]);
        if rows[j].result.None? {
          var a: nat :| Asks(db, a, |prior| + j, rows[j]);
          assert Asks(db', a, |prior| + j, rows[j]);
        }
      } else if row.result.None? {
        assert Asks(db', |db.approvals|, |prior| + j, row);
      }
    }
  }

  /** What is answered without execution is over. */
  lemma AnswersAreFinal(s: Sys, e: Exec, call: Call, facts: CallFacts)
    ensures var fate := FateOf(s, e, call, facts); fate.Answer? ==> fate.outcome.status in {Denied, Failed, Rehearsed}
  {
    hide WasRefused;
  }

  /** What one call adds: its row, and an approval request exactly when it has no result. */
  lemma CallAddsRow(c: Config, s: Sys, facts: CallFacts) returns (row: ToolCallRow)
    requires Enabled(c, s, RunCall(0, facts))
    ensures var s', b := Apply(c, s, RunCall(0, facts)), s.execs[0].phase;
            && IsRowOf(row, b.calls[b.next]) && row.turnIndex == s.execs[0].loopIndex && row.args.Obj?
            && (row.status == ApprovalRequired <==> row.result.None?) && row.status != Pending
            && s'.db.toolCalls == s.db.toolCalls + [row]
            && s'.db.approvals == (if row.result.Some? then s.db.approvals
                                   else s.db.approvals + [ApprovalRow(|s.db.toolCalls|, AwaitingDecision)])
            && |s'.execs| == |s.execs| && s'.execs[0].loopIndex == s.execs[0].loopIndex
            && s'.execs[0].toolCallCount == s.execs[0].toolCallCount + 1 && s'.execs[0].transcript == s.execs[0].transcript
            && var b' := s'.execs[0].phase;
               && b'.Batch? && b'.calls == b.calls && b'.next == b.next + 1
               && b'.deferred == b.deferred + (if row.result.None? then 1 else 0)
               && (row.result.Some? ==> b'.executed == b.executed + [CallOfRow(row)])
  {
    hide FateOf;
    AnswersAreFinal(s, s.execs[0], s.execs[0].phase.calls[s.execs[0].phase.next], facts);
    var s' := Apply(c, s, RunCall(0, facts));
    row := s'.db.toolCalls[|s.db.toolCalls|];
  }

  /** Each call appends its row: with its result, or open with an approval to decide. */
  lemma BatchGrows(c: Config, s: Sys, facts: CallFacts, prior: seq<ToolCallRow>, rows: seq<ToolCallRow>)
      returns (row: ToolCallRow)
    requires BatchSoFar(s, prior, rows) && Enabled(c, s, RunCall(0, facts))
    ensures BatchSoFar(Apply(c, s, RunCall(0, facts)), prior, rows + [row])
    ensures Apply(c, s, RunCall(0, facts)).db.toolCalls == s.db.toolCalls + [row]
  {
    hide Apply, BatchRows, CallOfRow;
    row := CallAddsRow(c, s, facts);
    var s' := Apply(c, s, RunCall(0, facts));
    RowJoins(s.db, s'.db, prior, rows, s.execs[0].loopIndex, row);
    assert CallsOfRows(rows + [row]) == CallsOfRows(rows) + [CallOfRow(row)];
    if row.result.None? {
      assert s'.db.approvals[|s.db.approvals|].status == AwaitingDecision;
    } else if StillPending(s.db.approvals) {
      assert StillPending(s'.db.approvals);
    }
  }

  // ----------------------------------------------------------------- orderly runs

  /** Nothing crashes, nobody cancels, each decision is taken while nothing else is under way, and the
      conversation can be stored where it parks. */
  predicate InOrder(c: Config, s: Sys, e: Event) {
    match e
    case Kill(_) => false
    case Throw(_) => false
    case KillResume(_) => false
    case Cancel => false
    case Expire => false
    case Decide(_, d) => !d.CancelDecision? && s.execs == [] && s.db.continuations == [] && s.db.resumes == [] && s.jobs == []
    case ParkSave(i) => i < |s.execs| ==> Storable(Trim(s.execs[i].transcript, c.cap), c.cap)
    case _ => true
  }

  ghost predicate OrderlyRun(c: Config, s: Sys, run: seq<Event>)
    requires Valid(c, s, run)
    decreases |run|
  {
    run == [] || (InOrder(c, s, run[0]) && OrderlyRun(c, Apply(c, s, run[0]), run[1..]))
  }

  ghost predicate RowsBelow(rows: seq<ToolCallRow>, turn: nat) {
    forall i :: 0 <= i < |rows| ==> rows[i].turnIndex < turn
  }

  /** The rows of the batch in hand are the last `next`; what came before belongs to earlier turns. */
  ghost predicate CleanBatch(s: Sys) {
    && |s.execs| == 1 && s.execs[0].phase.Batch? && s.execs[0].phase.next <= |s.db.toolCalls|
    && var at := |s.db.toolCalls| - s.execs[0].phase.next;
       BatchSoFar(s, s.db.toolCalls[..at], s.db.toolCalls[at..]) && RowsBelow(s.db.toolCalls[..at], s.execs[0].loopIndex)
  }

  ghost predicate OrderedAction(s: Sys, e: Exec) {
    && s.db.resumes == [] && s.jobs == [] && e.transcript != []
    && match e.phase
       case Batch(_, _, _, _, _) => CleanBatch(s)
       case Parking => RowsBelow(s.db.toolCalls, e.loopIndex + 1)
       case Finishing(_) => true
       case Clearing => true
       case HandingOver(_) =>
         && RowsBelow(s.db.toolCalls, e.loopIndex) && !StillPending(s.db.approvals)
         && s.db.checkpoint.Some? && s.db.checkpoint.value.status == Active && s.db.checkpoint.value.loopIndex == e.loopIndex
         && s.db.checkpoint.value.transcript != []
       case _ => RowsBelow(s.db.toolCalls, e.loopIndex) && !StillPending(s.db.approvals)
  }

  ghost predicate OrderedRest(s: Sys) {
    s.db.checkpoint.Some? ==>
      var k := s.db.checkpoint.value;
      && RowsBelow(s.db.toolCalls, k.loopIndex) && k.transcript != []
      && match k.status
         case Active => s.db.continuations != [] && !StillPending(s.db.approvals) && s.db.resumes == [] && s.jobs == []
         case AwaitingApproval =>
           && |s.db.resumes| + |s.jobs| <= 1
           && forall i :: 0 <= i < |s.jobs| && s.jobs[i].Settling? ==> !StillPending(s.db.approvals)
  }

  ghost predicate Ordered(s: Sys) {
    if s.execs != [] then OrderedAction(s, s.execs[0]) else OrderedRest(s)
  }

  lemma TrimKeepsATurn(t: seq<Turn>, cap: nat)
    requires t != []
    ensures Trim(t, cap) != []
  {
  }

  lemma OrderedTop(c: Config, s: Sys)
    requires LeaseExclusion.Lease(c, s) && Ordered(s) && Enabled(c, s, LoopTop(0))
    ensures Ordered(TopStep(c, s, 0))
  {
    hide Trim, Chars, LeftOrphan;
    TrimKeepsATurn(s.execs[0].transcript, c.cap);
  }

  /** Each batch begins clean: nothing written yet, nobody asked, no earlier row under its turn's index. */
  lemma OrderedAnswer(c: Config, s: Sys, calls: seq<Call>, overBudget: bool)
    requires LeaseExclusion.Lease(c, s) && Ordered(s) && Enabled(c, s, ModelTurn(0, calls, overBudget)) && ApprovalSafety.OneCallEach(s.db)
    ensures var s' := ModelTurnStep(c, s, 0, calls, overBudget);
            Ordered(s') && (s'.execs[0].phase.Batch? ==> BatchSoFar(s', s.db.toolCalls, []))
  {
    var s' := ModelTurnStep(c, s, 0, calls, overBudget);
    if s'.execs[0].phase.Batch? {
      var n := |s.db.toolCalls|;
      assert s.db.toolCalls[..n] == s.db.toolCalls && s.db.toolCalls[n..] == [] && s.db.toolCalls + [] == s.db.toolCalls;
      assert forall a: nat :: !CanDecide(s.db, a);
      assert CallsOfRows([]) == [];
    }
  }

  lemma OrderedStop(c: Config, s: Sys)
    requires LeaseExclusion.Lease(c, s) && Ordered(s) && Enabled(c, s, CheckStop(0))
    ensures Ordered(CheckStopStep(s, 0))
  {
    hide BatchRows;
  }

  lemma OrderedCall(c: Config, s: Sys, facts: CallFacts)
    requires LeaseExclusion.Lease(c, s) && Ordered(s) && Enabled(c, s, RunCall(0, facts))
    ensures Ordered(RunCallStep(s, 0, facts))
  {
    hide BatchSoFar, FateOf;
    var s' := Apply(c, s, RunCall(0, facts));
    var at := |s.db.toolCalls| - s.execs[0].phase.next;
    var row := BatchGrows(c, s, facts, s.db.toolCalls[..at], s.db.toolCalls[at..]);
    assert s'.db.toolCalls[..at] == s.db.toolCalls[..at] && s'.db.toolCalls[at..] == s.db.toolCalls[at..] + [row];
  }

  lemma OrderedEnd(c: Config, s: Sys)
    requires LeaseExclusion.Lease(c, s) && Ordered(s) && Enabled(c, s, EndBatch(0))
    ensures Ordered(EndBatchStep(c, s, 0))
  {
    hide Trim, Chars, LeftOrphan, BuildToolInteractionTurns, RowStands, ApprovalsFit, LoopSave;
    var at := |s.db.toolCalls| - s.execs[0].phase.next;
    assert s.db.toolCalls == s.db.toolCalls[..at] + s.db.toolCalls[at..];
    assert RowsBelow(s.db.toolCalls, s.execs[0].loopIndex + 1);
  }

  lemma OrderedPark(c: Config, s: Sys)
    requires LeaseExclusion.Lease(c, s) && Ordered(s) && Enabled(c, s, ParkSave(0)) && InOrder(c, s, ParkSave(0))
    ensures Ordered(ParkSaveStep(c, s, 0))
  {
    hide Trim, Chars, LeftOrphan;
    TrimKeepsATurn(s.execs[0].transcript, c.cap);
    assert Remove(s.execs, 0) == [];
  }

  lemma OrderedActionStep(c: Config, s: Sys, e: Event)
    requires LeaseExclusion.Lease(c, s) && Ordered(s) && Enabled(c, s, e) && OfAction(e) && InOrder(c, s, e)
    requires ApprovalSafety.OneCallEach(s.db)
    ensures Ordered(Apply(c, s, e))
  {
    hide TopStep, ModelTurnStep, CheckStopStep, RunCallStep, EndBatchStep, ParkSaveStep, CleanBatch, Trim, Chars;
    assert s.execs == [s.execs[0]] && Remove(s.execs, 0) == [];
    match e {
      case LoopTop(i) => OrderedTop(c, s);
      case ModelTurn(i, calls, overBudget) => OrderedAnswer(c, s, calls, overBudget);
      case CheckStop(i) => OrderedStop(c, s);
      case RunCall(i, facts) => OrderedCall(c, s, facts);
      case EndBatch(i) => OrderedEnd(c, s);
      case ParkSave(i) => OrderedPark(c, s);
      case _ =>
    }
  }

  lemma OrderedStart(c: Config, s: Sys, k: nat)
    requires LeaseExclusion.Lease(c, s) && Ordered(s) && k < |s.db.continuations|
    ensures Ordered(StartContinuationStep(s, k))
  {
    assert s.execs == [];
  }

  lemma OrderedDecision(c: Config, s: Sys, a: nat, d: Decision)
    requires LeaseExclusion.Lease(c, s) && Ordered(s) && CanDecide(s.db, a) && InOrder(c, s, Decide(a, d))
    ensures Ordered(Apply(c, s, Decide(a, d)))
  {
    hide AppendRefusedToolCall, BuildRefusedToolCallKey;
  }

  lemma OrderedResume(c: Config, s: Sys, e: Event)
    requires LeaseExclusion.Lease(c, s) && Ordered(s) && Enabled(c, s, e) && (e.StartResume? || e.FinishHandler?)
    ensures Ordered(Apply(c, s, e))
  {
    hide RowsOfTurn, TakeRows, TopStep, CheckStopStep, RunCallStep, EndBatchStep, ParkSaveStep, StartContinuationStep, SettleStep,
         RecoverStalledRun, CancelRun, DecideApproval, ExpireApprovals;
  }

  lemma OrderedSettle(c: Config, s: Sys, k: nat)
    requires LeaseExclusion.Lease(c, s) && Ordered(s) && Enabled(c, s, Settle(k))
    ensures Ordered(SettleStep(c, s, k))
  {
    hide Trim, Chars, LeftOrphan, CallsOfRows, BuildToolInteractionTurns;
    if s.db.checkpoint.Some? && s.db.checkpoint.value.transcript != [] {
      TrimKeepsATurn(s.db.checkpoint.value.transcript + BuildToolInteractionTurns(CallsOfRows(s.jobs[k].settlement.batch)), c.cap);
    }
  }

  /** In an orderly run the sweeper never finds anything to do. */
  lemma OrderedSweep(c: Config, s: Sys)
    requires LeaseExclusion.MarginHolds(c) && LeaseExclusion.Lease(c, s) && Ordered(s)
    ensures Apply(c, s, Sweep) == s
  {
    hide Chars;
    LeaseExclusion.LeaseSweep(c, s);
  }

  lemma OrderedStep(c: Config, s: Sys, e: Event)
    requires LeaseExclusion.MarginHolds(c) && LeaseExclusion.Lease(c, s) && Ordered(s) && ApprovalSafety.OneCallEach(s.db)
    requires Enabled(c, s, e) && InOrder(c, s, e)
    ensures Ordered(Apply(c, s, e))
  {
    hide LeaseExclusion.Lease, ApprovalSafety.OneCallEach, StartContinuationStep, SettleStep, DecideApproval;
    if OfAction(e) {
      OrderedActionStep(c, s, e);
    } else {
      match e {
        case StartContinuation(k) => OrderedStart(c, s, k);
        case Decide(a, d) => OrderedDecision(c, s, a, d);
        case StartResume(_) => OrderedResume(c, s, e);
        case FinishHandler(_, _, _) => OrderedResume(c, s, e);
        case Settle(k) => OrderedSettle(c, s, k);
        case Sweep => OrderedSweep(c, s);
        case Tick(to) => OrderedTick(s, to);
      }
    }
  }

  lemma OrderedTick(s: Sys, to: int)
    requires Ordered(s)
    ensures Ordered(s.(now := to))
  {
    hide BatchRows;
  }

  lemma {:induction false} OrderedAlways(c: Config, s: Sys, run: seq<Event>)
    requires LeaseExclusion.MarginHolds(c) && LeaseExclusion.Lease(c, s) && Ordered(s) && ApprovalSafety.Once(s)
    requires Valid(c, s, run) && OrderlyRun(c, s, run)
    ensures Ordered(Replay(c, s, run)) && LeaseExclusion.Lease(c, Replay(c, s, run)) && ApprovalSafety.Once(Replay(c, s, run))
    decreases |run|
  {
    hide LeaseExclusion.Lease, Ordered, Apply, Enabled, InOrder;
    if run != [] {
      CallsOfTheirOwn(s);
      OrderedStep(c, s, run[0]);
      LeaseExclusion.LeaseStep(c, s, run[0]);
      ApprovalSafety.OnceStep(c, s, run[0]);
      OrderedAlways(c, Apply(c, s, run[0]), run[1..]);
    }
  }

  lemma CallsOfTheirOwn(s: Sys)
    requires ApprovalSafety.Once(s)
    ensures ApprovalSafety.OneCallEach(s.db)
  {
  }

  /**
   * In every orderly run each batch begins clean and is written down call by call: at any point of it
   * the rows of the batch are exactly the run's last rows, one for each call decided so far, in
   * request order, each with its result or with one open approval.
   */
  lemma EachBatchIsClean(c: Config, start: Sys, run: seq<Event>)
    requires LeaseExclusion.MarginHolds(c) && Initial(start) && start.execs[0].transcript != []
    requires Valid(c, start, run) && OrderlyRun(c, start, run)
    ensures var s := Replay(c, start, run);
            s.execs != [] && s.execs[0].phase.Batch? ==>
              && CleanBatch(s) && s.db.resumes == [] && s.jobs == [] && s.execs[0].transcript != []
              && (s.execs[0].phase.next == 0 ==> BatchSoFar(s, s.db.toolCalls, []))
  {
    hide BatchSoFar, LeaseExclusion.Lease, ApprovalSafety.Once;
    LeaseExclusion.InitialHoldsLease(c, start);
    OnceInitially(start);
    OrderedAlways(c, start, run);
    var s := Replay(c, start, run);
    var n := |s.db.toolCalls|;
    assert s.db.toolCalls[..n] == s.db.toolCalls && s.db.toolCalls[n..] == [];
  }

  lemma OnceInitially(start: Sys)
    requires Initial(start)
    ensures ApprovalSafety.Once(start)
  {
  }

  // ------------------------------------------------------------- parked, or inline

  predicate Delay(e: Event) { e.Tick? || e.Sweep? }

  /** While an action lives, time and sweeps pass over it. */
  lemma {:induction false} Waiting(c: Config, s: Sys, d: seq<Event>)
    requires LeaseExclusion.MarginHolds(c) && LeaseExclusion.Lease(c, s) && s.execs != []
    requires Valid(c, s, d) && forall i :: 0 <= i < |d| ==> Delay(d[i])
    ensures Replay(c, s, d) == s.(now := Replay(c, s, d).now)
    decreases |d|
  {
    hide LeaseExclusion.Lease;
    if d != [] {
      LeaseExclusion.LeaseStep(c, s, d[0]);
      if d[0].Sweep? {
        assert Apply(c, s, d[0]) == s by { LiveIsNotStalled(c, s); }
      }
      Waiting(c, Apply(c, s, d[0]), d[1..]);
    }
  }

  lemma LiveIsNotStalled(c: Config, s: Sys)
    requires LeaseExclusion.MarginHolds(c) && LeaseExclusion.Lease(c, s) && s.execs != []
    ensures !IsStalled(s.db, s.now)
  {
    LeaseExclusion.LeaseSweep(c, s);
  }

  /** The end of a batch some of whose calls wait for people. */
  ghost predicate EndsWaiting(c: Config, s: Sys, prior: seq<ToolCallRow>, rows: seq<ToolCallRow>) {
    && BatchSoFar(s, prior, rows) && Enabled(c, s, EndBatch(0)) && s.execs[0].phase.deferred > 0
    && LeaseExclusion.Lease(c, s) && s.db.resumes == [] && s.jobs == []
    && c.threaded && s.execs[0].toolCallCount <= c.maxToolCalls <= AGENT_RUN_DETAIL_LIMIT
    && s.execs[0].transcript != [] && Storable(Trim(s.execs[0].transcript, c.cap), c.cap)
  }

  /** So it does in every orderly run: what is asked of a batch here is what such runs bring about. */
  lemma DeferredBatchEndsWaiting(c: Config, start: Sys, run: seq<Event>, prior: seq<ToolCallRow>, rows: seq<ToolCallRow>)
    requires LeaseExclusion.MarginHolds(c) && Initial(start) && start.execs[0].transcript != []
    requires Valid(c, start, run) && OrderlyRun(c, start, run)
    requires c.threaded && c.maxToolCalls <= AGENT_RUN_DETAIL_LIMIT
    requires var s := Replay(c, start, run);
             && Enabled(c, s, EndBatch(0)) && s.execs[0].phase.deferred > 0 && Storable(Trim(s.execs[0].transcript, c.cap), c.cap)
             && s.db.toolCalls == prior + rows && |rows| == s.execs[0].phase.next
    ensures EndsWaiting(c, Replay(c, start, run), prior, rows)
  {
    hide BatchSoFar, Ordered, OrderedAction, LeaseExclusion.Lease, ApprovalSafety.Once, Trim, Chars, Storable, RowsBelow;
    EachBatchIsClean(c, start, run);
    LeaseExclusion.InitialHoldsLease(c, start);
    LeaseExclusion.LeaseAlways(c, start, run);
    var s := Replay(c, start, run);
    assert Reachable(c, s);
    RunBudgets.ToolBudgetOverAllLives(c, s);
    var at := |s.db.toolCalls| - s.execs[0].phase.next;
    assert s.db.toolCalls[..at] == prior && s.db.toolCalls[at..] == rows;
  }

  /** The status is written, and after any delay the position saved. */
  ghost function ParkedAfter(c: Config, s: Sys, d: seq<Event>): Sys
    requires Enabled(c, s, EndBatch(0)) && Valid(c, Apply(c, s, EndBatch(0)), d)
    requires Enabled(c, Replay(c, Apply(c, s, EndBatch(0)), d), ParkSave(0))
  {
    Apply(c, Replay(c, Apply(c, s, EndBatch(0)), d), ParkSave(0))
  }

  /** A batch with something deferred parks in exactly the state approvers start from. */
  lemma BatchParks(c: Config, s: Sys, d: seq<Event>, prior: seq<ToolCallRow>, rows: seq<ToolCallRow>)
    requires LeaseExclusion.MarginHolds(c) && EndsWaiting(c, s, prior, rows)
    requires Valid(c, Apply(c, s, EndBatch(0)), d) && forall i :: 0 <= i < |d| ==> Delay(d[i])
    requires Enabled(c, Replay(c, Apply(c, s, EndBatch(0)), d), ParkSave(0))
    ensures var p, e := ParkedAfter(c, s, d), s.execs[0];
            && Parked(p, prior, rows, e.loopIndex) && p.execs == [] && p.db.continuations == s.db.continuations
            && p.db.approvals == s.db.approvals && p.db.toolCalls == s.db.toolCalls
            && p.db.checkpoint == Some(Checkpoint(AwaitingApproval, Trim(e.transcript, c.cap), e.loopIndex + 1, e.toolCallCount,
                 e.segmentCount, true, if s.db.checkpoint.Some? then s.db.checkpoint.value.resumeAttempts else 0, p.now))
  {
    hide BatchRows, LeaseExclusion.Lease, Chars, LeftOrphan, Trim, Valid, Replay, TopStep, ModelTurnStep, CheckStopStep, RunCallStep,
         StartContinuationStep, StartResumeStep, FinishHandlerStep, SettleStep, RecoverStalledRun, CancelRun, DecideApproval,
         ExpireApprovals;
    var ended := Apply(c, s, EndBatch(0));
    LeaseExclusion.LeaseStep(c, s, EndBatch(0));
    Waiting(c, ended, d);
    SameRows(s.db, ParkedAfter(c, s, d).db, prior, rows, s.execs[0].loopIndex);
    assert Remove(s.execs, 0) == [];
  }

  /** What the same action would have left, had it executed the waiting calls itself. */
  function Inline(c: Config, s: Sys, calls: seq<ExecutedCall>): Sys
    requires |s.execs| == 1 && s.execs[0].phase.Batch?
  {
    var e, b := s.execs[0], s.execs[0].phase;
    EndBatchStep(c, s.(execs := [e.(phase := Batch(b.calls, b.next, false, calls, 0))]), 0)
  }

  lemma BatchIsARequest(calls: seq<ExecutedCall>)
    requires calls != []
    ensures BuildToolInteractionTurns(calls) != [] && HeadClean(BuildToolInteractionTurns(calls))
  {
  }

  lemma TellsEach(db: Db, prior: nat, rows: seq<ToolCallRow>, answers: map<nat, Answer>, calls: seq<ExecutedCall>)
    requires Tells(db, prior, rows, answers, calls)
    ensures |calls| == |rows|
  {
  }

  lemma FitsUntrimmed(t: seq<Turn>, cap: nat)
    requires Chars(t) <= cap
    ensures Trim(t, cap) == t
  {
    assert t == [] || CutFrom(t, cap, 0) == 0;
    assert t[0..] == t;
  }

  /** What an action that parked has to answer can still be stored when it is answered. */
  lemma AnswerFits(h: seq<Turn>, more: seq<Turn>, cap: nat)
    requires more != [] && HeadClean(more) && Storable(Trim(h + more, cap), cap)
    ensures Storable(Trim(Trim(h, cap) + more, cap), cap)
  {
    hide Trim, Chars, LeftOrphan;
    TrimComposes(h, more, cap);
    if Chars(Trim(h, cap) + more) <= cap {
      FitsUntrimmed(Trim(h, cap) + more, cap);
    }
  }

  /**
   * A batch that parks, waits and is decided in any order leaves the very checkpoint an action would
   * have saved that executed the same calls with the same results inline - position, counters, revivals
   * and conversation alike, only later - exactly when the save at the park was not left holding an
   * orphaned tool result that still fits. (A batch cut short by the tool budget would have ended
   * inline; parked, it goes on.)
   */
  lemma ParkedEqualsInline(c: Config, s: Sys, d: seq<Event>, r: seq<Event>, k: nat, prior: seq<ToolCallRow>, rows: seq<ToolCallRow>,
    answers: map<nat, Answer>, calls: seq<ExecutedCall>)
    requires LeaseExclusion.MarginHolds(c) && EndsWaiting(c, s, prior, rows) && Tells(s.db, |prior|, rows, answers, calls)
    requires Valid(c, Apply(c, s, EndBatch(0)), d) && forall i :: 0 <= i < |d| ==> Delay(d[i])
    requires Enabled(c, Replay(c, Apply(c, s, EndBatch(0)), d), ParkSave(0))
    requires Valid(c, ParkedAfter(c, s, d), r) && OrderlyReview(c, ParkedAfter(c, s, d), r, answers)
    requires Enabled(c, Replay(c, ParkedAfter(c, s, d), r), Settle(k))
    requires var h := s.execs[0].transcript; Storable(Trim(h + BuildToolInteractionTurns(calls), c.cap), c.cap)
    ensures var h, more := s.execs[0].transcript, BuildToolInteractionTurns(calls);
            var end := Replay(c, ParkedAfter(c, s, d), r);
            var after, inline := Apply(c, end, Settle(k)), Inline(c, s, calls);
            if s.execs[0].phase.next < |s.execs[0].phase.calls| then inline.execs[0].phase == Finishing(RunFailed)
            else
              && inline.db.checkpoint.Some?
              && (after.db.checkpoint == Some(inline.db.checkpoint.value.(updatedAt := end.now))
                  <==> !(LeftOrphan(h, c.cap) && Chars(Trim(h, c.cap) + more) <= c.cap))
  {
    hide BatchRows, LeaseExclusion.Lease, Valid, Replay, OrderlyReview, Chars, Trim, LeftOrphan, ParkedAfter, Tells, BuildToolInteractionTurns, Storable;
    var h, more, parked := s.execs[0].transcript, BuildToolInteractionTurns(calls), ParkedAfter(c, s, d);
    BatchParks(c, s, d, prior, rows);
    SameTells(s.db, parked.db, |prior|, rows, answers, calls);
    SomeCallWaits(s.db, prior, rows, s.execs[0].loopIndex);
    TellsEach(s.db, |prior|, rows, answers, calls);
    BatchIsARequest(calls);
    TrimComposes(h, more, c.cap);
    AnswerFits(h, more, c.cap);
    TrimKeepsATurn(h, c.cap);
    AnyOrderGivesTheSameTurns(c, parked, r, k, prior, rows, s.execs[0].loopIndex, answers, calls);
  }
}
