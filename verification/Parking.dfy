/** Parking a batch on people's decisions. Approvals, refusals, handlers and the clock interleave
    as they may; the settlement hands back the batch as it stands, with a result missing exactly
    when an approved call has not been recorded. Decided one at a time, in any order and however
    slowly, the conversation gains the two turns inline execution would have added
    (convex/agentObjectiveLoop.ts:593-691 and 820-876, convex/agentRunApprovals.ts:156-303,
    437-520 and 710-746, convex/agentObjectiveLoopService.ts:98-125). */
module Parking {
  import opened Common
  import opened ToolGate
  import opened Transcript
  import opened RefusalKey
  import opened RunRecords
  import opened RunProtocol

  // ---------------------------------------------------------------- the parked batch

  /** Approval `a` is what the unanswered call at `at` waits for: a decision, or its recorded result. */
  predicate Asks(db: Db, a: nat, at: nat, row: ToolCallRow) {
    && a < |db.approvals| && db.approvals[a].toolCall == at
    && ((db.approvals[a].status == AwaitingDecision && row.status == ApprovalRequired)
        || (db.approvals[a].status == Approved && row.status == Pending))
  }

  /** A call with a result is over and nobody is asked about it; one without waits. */
  ghost predicate RowStands(db: Db, at: nat, row: ToolCallRow) {
    if row.result.Some? then
      row.status !in {Pending, ApprovalRequired} && forall a: nat :: CanDecide(db, a) ==> db.approvals[a].toolCall != at
    else exists a: nat :: Asks(db, a, at, row)
  }

  /** Each approval is for a call of its own, and whatever is undecided is about this batch. */
  ghost predicate ApprovalsFit(db: Db, prior: nat) {
    && (forall a :: 0 <= a < |db.approvals| ==> db.approvals[a].toolCall < |db.toolCalls|)
    && (forall a, b :: 0 <= a < b < |db.approvals| ==> db.approvals[a].toolCall != db.approvals[b].toolCall)
    && (forall a: nat :: CanDecide(db, a) ==> prior <= db.approvals[a].toolCall)
  }

  /** The rows of the parked turn come last and alone carry its index. */
  ghost predicate BatchRows(db: Db, prior: seq<ToolCallRow>, rows: seq<ToolCallRow>, turn: nat) {
    && db.toolCalls == prior + rows
    && (forall i :: 0 <= i < |prior| ==> prior[i].turnIndex != turn)
    && (forall j :: 0 <= j < |rows| ==> rows[j].turnIndex == turn && rows[j].args.Obj?)
    && ApprovalsFit(db, |prior|)
    && (forall j :: 0 <= j < |rows| ==> RowStands(db, |prior| + j, rows[j]))
  }

  /** The approval a job is about, when it is one of this batch. */
  predicate OfBatch(db: Db, a: nat, prior: nat) {
    a < |db.approvals| && prior <= db.approvals[a].toolCall < |db.toolCalls|
  }

  predicate AwaitsItsRun(db: Db, a: nat, prior: nat) {
    OfBatch(db, a, prior) && db.approvals[a].status == Approved && db.toolCalls[db.approvals[a].toolCall].status == Pending
  }

  predicate QueueFits(db: Db, job: ResumeJob, prior: nat) {
    if job.refused then OfBatch(db, job.approval, prior) && db.approvals[job.approval].status == Rejected
    else AwaitsItsRun(db, job.approval, prior)
  }

  predicate JobFits(db: Db, job: Job, prior: nat) {
    match job
    case Running(a) => AwaitsItsRun(db, a, prior)
    case Settling(a, settlement, _) => settlement.settled && !StillPending(db.approvals)
  }

  /** What is queued or running stands for a decision of its own about this batch. */
  ghost predicate FlightFits(s: Sys, prior: nat) {
    && (forall k :: 0 <= k < |s.db.resumes| ==> QueueFits(s.db, s.db.resumes[k], prior))
    && (forall k :: 0 <= k < |s.jobs| ==> JobFits(s.db, s.jobs[k], prior))
    && EachItsOwn(s)
  }

  ghost predicate EachItsOwn(s: Sys) {
    && (forall k, l :: 0 <= k < l < |s.db.resumes| ==> s.db.resumes[k].approval != s.db.resumes[l].approval)
    && (forall k, l :: 0 <= k < l < |s.jobs| && s.jobs[k].Running? && s.jobs[l].Running? ==> s.jobs[k].approval != s.jobs[l].approval)
    && (forall k, l :: 0 <= k < |s.db.resumes| && 0 <= l < |s.jobs| && s.jobs[l].Running? ==>
          s.db.resumes[k].approval != s.jobs[l].approval)
  }

  ghost predicate Reviewing(s: Sys, prior: seq<ToolCallRow>, rows: seq<ToolCallRow>, turn: nat) {
    && BatchRows(s.db, prior, rows, turn) && |rows| <= AGENT_RUN_DETAIL_LIMIT
    && FlightFits(s, |prior|) && CanContinue(s.db)
  }

  /** Freshly parked: somebody is asked, and nothing is queued or running yet. */
  ghost predicate Parked(s: Sys, prior: seq<ToolCallRow>, rows: seq<ToolCallRow>, turn: nat) {
    && Reviewing(s, prior, rows, turn) && s.db.resumes == [] && s.jobs == []
    && StillPending(s.db.approvals) && forall j :: 0 <= j < |rows| ==> rows[j].status != Pending
  }

  // --------------------------------------------------------------- reading the batch

  lemma {:induction false} OtherTurnsSkipped(prior: seq<ToolCallRow>, rows: seq<ToolCallRow>, turn: nat)
    requires forall i :: 0 <= i < |prior| ==> prior[i].turnIndex != turn
    ensures RowsOfTurn(prior + rows, turn) == RowsOfTurn(rows, turn)
  {
    if prior == [] {
      assert prior + rows == rows;
    } else {
      assert (prior + rows)[1..] == prior[1..] + rows;
      OtherTurnsSkipped(prior[1..], rows, turn);
    }
  }

  lemma {:induction false} WholeTurnKept(rows: seq<ToolCallRow>, turn: nat)
    requires forall j :: 0 <= j < |rows| ==> rows[j].turnIndex == turn
    ensures RowsOfTurn(rows, turn) == rows
  {
    if rows != [] {
      WholeTurnKept(rows[1..], turn);
    }
  }

  /** The settlement hands back exactly this batch, in request order. */
  lemma SettlementIsTheBatch(db: Db, prior: seq<ToolCallRow>, rows: seq<ToolCallRow>, turn: nat, a: nat)
    requires db.toolCalls == prior + rows && |rows| <= AGENT_RUN_DETAIL_LIMIT
    requires forall i :: 0 <= i < |prior| ==> prior[i].turnIndex != turn
    requires forall j :: 0 <= j < |rows| ==> rows[j].turnIndex == turn
    requires a < |db.approvals| && |prior| <= db.approvals[a].toolCall < |prior| + |rows|
    ensures GetSettlement(db, a) == if StillPending(db.approvals) then Settlement(false, []) else Settlement(true, rows)
  {
    hide RowsOfTurn;
    OtherTurnsSkipped(prior, rows, turn);
    WholeTurnKept(rows, turn);
    assert db.toolCalls[db.approvals[a].toolCall] == rows[db.approvals[a].toolCall - |prior|];
  }

  lemma {:induction false} RowsOfTurnAdd(a: seq<ToolCallRow>, b: seq<ToolCallRow>, turn: nat)
    ensures RowsOfTurn(a + b, turn) == RowsOfTurn(a, turn) + RowsOfTurn(b, turn)
  {
    if a == [] {
      assert a + b == b;
    } else {
      RowsOfTurnAdd(a[1..], b, turn);
      var first := if a[0].turnIndex == turn then [a[0]] else [];
      assert (a + b)[0] == a[0] && (a + b)[1..] == a[1..] + b;
      assert RowsOfTurn(a + b, turn) == first + RowsOfTurn(a[1..] + b, turn);
      assert RowsOfTurn(a, turn) == first + RowsOfTurn(a[1..], turn);
      hide RowsOfTurn;
      assert first + (RowsOfTurn(a[1..], turn) + RowsOfTurn(b, turn)) == first + RowsOfTurn(a[1..], turn) + RowsOfTurn(b, turn);
    }
  }

  lemma {:induction false} NoRowOfTurn(rows: seq<ToolCallRow>, turn: nat)
    ensures RowsOfTurn(rows, turn) == [] <==> forall i :: 0 <= i < |rows| ==> rows[i].turnIndex != turn
  {
    if rows != [] {
      NoRowOfTurn(rows[1..], turn);
      assert forall i :: 0 < i < |rows| ==> rows[i] == rows[1..][i - 1];
    }
  }

  /** It hands back this batch and nothing else exactly when no earlier row carries the turn's
      index - as one does when an action died inside the turn and a continuation began it again. */
  lemma SettlementIsExactly(db: Db, prior: seq<ToolCallRow>, rows: seq<ToolCallRow>, turn: nat, a: nat)
    requires db.toolCalls == prior + rows && |rows| < AGENT_RUN_DETAIL_LIMIT && !StillPending(db.approvals)
    requires forall j :: 0 <= j < |rows| ==> rows[j].turnIndex == turn
    requires a < |db.approvals| && |prior| <= db.approvals[a].toolCall < |prior| + |rows|
    ensures GetSettlement(db, a) == Settlement(true, rows) <==> forall i :: 0 <= i < |prior| ==> prior[i].turnIndex != turn
  {
    hide RowsOfTurn;
    RowsOfTurnAdd(prior, rows, turn);
    WholeTurnKept(rows, turn);
    NoRowOfTurn(prior, turn);
    assert db.toolCalls[db.approvals[a].toolCall] == rows[db.approvals[a].toolCall - |prior|];
    var early := RowsOfTurn(prior, turn);
    assert early == [] ==> early + rows == rows;
    assert early != [] ==> |TakeRows(early + rows, AGENT_RUN_DETAIL_LIMIT)| > |rows|;
  }

  // ------------------------------------------------------------------- one step of many

  /** What may happen to a parked run short of its answer, crashes of resume actions included. */
  predicate ReviewStep(e: Event) {
    e.Tick? || e.Sweep? || (e.Decide? && !e.decision.CancelDecision?) || e.StartResume? || e.FinishHandler? || e.KillResume?
  }

  /** The approval whose call a step changes, if any. */
  function Concerns(s: Sys, e: Event): Option<nat> {
    if e.Decide? then Some(e.a)
    else if e.FinishHandler? && e.k < |s.jobs| then Some(s.jobs[e.k].approval)
    else None
  }

  function ChangedRow(row: ToolCallRow, e: Event): ToolCallRow {
    match e
    case Decide(_, Approve) => row.(status := Pending)
    case Decide(_, Reject(reason)) => row.(status := Denied, result := Some(ErrorPayload(RefusedByPerson(row.name, reason))))
    case FinishHandler(_, succeeded, payload) => row.(status := if succeeded then Success else Failed, result := Some(payload))
    case _ => row
  }

  function ChangedRows(s: Sys, e: Event, prior: nat, rows: seq<ToolCallRow>): (r: seq<ToolCallRow>)
    ensures |r| == |rows|
  {
    var a := Concerns(s, e);
    if a.Some? && a.value < |s.db.approvals| && prior <= s.db.approvals[a.value].toolCall < prior + |rows| then
      var j := s.db.approvals[a.value].toolCall - prior;
      rows[j := ChangedRow(rows[j], e)]
    else rows
  }

  lemma OneRowChanges(db: Db, db': Db, prior: seq<ToolCallRow>, rows: seq<ToolCallRow>, turn: nat,
    a: nat, status: ApprovalStatus, row: ToolCallRow)
    requires BatchRows(db, prior, rows, turn) && OfBatch(db, a, |prior|) && status != AwaitingDecision
    requires var t := db.approvals[a].toolCall;
             db'.approvals == db.approvals[a := ApprovalRow(t, status)] && db'.toolCalls == db.toolCalls[t := row]
    requires row.turnIndex == turn && row.args.Obj?
    requires if row.result.Some? then row.status !in {Pending, ApprovalRequired} else status == Approved && row.status == Pending
    ensures BatchRows(db', prior, rows[db.approvals[a].toolCall - |prior| := row], turn)
  {
    var t := db.approvals[a].toolCall;
    var rows' := rows[t - |prior| := row];
    assert db'.toolCalls == prior + rows';
    assert ApprovalsFit(db', |prior|);
    forall j | 0 <= j < |rows|
      ensures RowStands(db', |prior| + j, rows'[j])
    {
      assert RowStands(db, |prior| + j, rows[j]);
      if j == t - |prior| {
        assert row.result.None? ==> Asks(db', a, t, row);
      } else {
        OtherRowStands(db, db', a, status, |prior| + j, rows[j]);
      }
    }
  }

  lemma OtherRowStands(db: Db, db': Db, a: nat, status: ApprovalStatus, at: nat, row: ToolCallRow)
    requires RowStands(db, at, row) && a < |db.approvals| && db.approvals[a].toolCall != at && status != AwaitingDecision
    requires db'.approvals == db.approvals[a := ApprovalRow(db.approvals[a].toolCall, status)]
    ensures RowStands(db', at, row)
  {
    if row.result.None? {
      var b: nat :| Asks(db, b, at, row);
      assert Asks(db', b, at, row);
    } else {
      forall b: nat | CanDecide(db', b)
        ensures db'.approvals[b].toolCall != at
      {
        assert b != a && CanDecide(db, b);
      }
    }
  }

  /** An undecided call is still unanswered, and so is an approved one that awaits its run. */
  lemma UnansweredSoFar(db: Db, prior: seq<ToolCallRow>, rows: seq<ToolCallRow>, turn: nat, a: nat)
    requires BatchRows(db, prior, rows, turn) && (CanDecide(db, a) || AwaitsItsRun(db, a, |prior|))
    ensures OfBatch(db, a, |prior|) && |db.toolCalls| == |prior| + |rows|
    ensures var row := db.toolCalls[db.approvals[a].toolCall];
            row.result.None? && row == rows[db.approvals[a].toolCall - |prior|] && row.turnIndex == turn && row.args.Obj?
    ensures CanDecide(db, a) ==> db.toolCalls[db.approvals[a].toolCall].status == ApprovalRequired
  {
    var t := db.approvals[a].toolCall;
    assert db.toolCalls[t] == rows[t - |prior|];
    assert RowStands(db, t, rows[t - |prior|]);
    if CanDecide(db, a) {
      var b: nat :| Asks(db, b, t, rows[t - |prior|]);
      assert a == b;
    }
  }

  lemma DecideRows(c: Config, s: Sys, a: nat, d: Decision, prior: seq<ToolCallRow>, rows: seq<ToolCallRow>, turn: nat)
    requires BatchRows(s.db, prior, rows, turn) && CanDecide(s.db, a) && !d.CancelDecision?
    ensures var db', t := DecideApproval(s.db, a, d), s.db.approvals[a].toolCall;
            && OfBatch(s.db, a, |prior|)
            && db'.approvals == s.db.approvals[a := ApprovalRow(t, if d.Approve? then Approved else Rejected)]
            && db'.toolCalls == s.db.toolCalls[t := ChangedRow(s.db.toolCalls[t], Decide(a, d))]
            && db'.resumes == s.db.resumes + [ResumeJob(a, d.Reject?)] && db'.checkpoint == s.db.checkpoint
            && db'.continuations == s.db.continuations
            && BatchRows(db', prior, ChangedRows(s, Decide(a, d), |prior|, rows), turn)
  {
    hide RowStands, AppendRefusedToolCall, BuildRefusedToolCallKey;
    UnansweredSoFar(s.db, prior, rows, turn, a);
    var t := s.db.approvals[a].toolCall;
    var db', row := DecideApproval(s.db, a, d), ChangedRow(s.db.toolCalls[t], Decide(a, d));
    assert db'.toolCalls == s.db.toolCalls[t := row];
    OneRowChanges(s.db, db', prior, rows, turn, a, if d.Approve? then Approved else Rejected, row);
  }

  lemma HandlerRows(c: Config, s: Sys, k: nat, succeeded: bool, payload: Payload, prior: seq<ToolCallRow>,
    rows: seq<ToolCallRow>, turn: nat)
    requires BatchRows(s.db, prior, rows, turn) && k < |s.jobs| && s.jobs[k].Running? && AwaitsItsRun(s.db, s.jobs[k].approval, |prior|)
    ensures var e := FinishHandler(k, succeeded, payload);
            var db', t := RecordApprovedToolResult(s.db, s.jobs[k].approval, succeeded, payload), s.db.approvals[s.jobs[k].approval].toolCall;
            && db' == s.db.(toolCalls := s.db.toolCalls[t := ChangedRow(s.db.toolCalls[t], e)])
            && BatchRows(db', prior, ChangedRows(s, e, |prior|, rows), turn)
  {
    hide RowStands;
    var a := s.jobs[k].approval;
    UnansweredSoFar(s.db, prior, rows, turn, a);
    var t := s.db.approvals[a].toolCall;
    var db', row := RecordApprovedToolResult(s.db, a, succeeded, payload), ChangedRow(s.db.toolCalls[t], FinishHandler(k, succeeded, payload));
    assert db'.approvals == s.db.approvals[a := ApprovalRow(t, Approved)];
    OneRowChanges(s.db, db', prior, rows, turn, a, Approved, row);
  }

  lemma OthersStillAwait(db: Db, db': Db, prior: nat, a: nat, status: ApprovalStatus, row: ToolCallRow, b: nat)
    requires ApprovalsFit(db, prior) && OfBatch(db, a, prior) && a != b
    requires var t := db.approvals[a].toolCall;
             db'.approvals == db.approvals[a := ApprovalRow(t, status)] && db'.toolCalls == db.toolCalls[t := row]
    ensures OfBatch(db', b, prior) <==> OfBatch(db, b, prior)
    ensures AwaitsItsRun(db', b, prior) <==> AwaitsItsRun(db, b, prior)
    ensures b < |db.approvals| ==> db'.approvals[b] == db.approvals[b]
  {
  }

  lemma FlightAfterDecision(c: Config, s: Sys, a: nat, d: Decision, prior: seq<ToolCallRow>, rows: seq<ToolCallRow>, turn: nat)
    requires Reviewing(s, prior, rows, turn) && CanDecide(s.db, a) && !d.CancelDecision?
    ensures FlightFits(Apply(c, s, Decide(a, d)), |prior|)
  {
    hide BatchRows, DecideApproval;
    DecideRows(c, s, a, d, prior, rows, turn);
    var s', row := Apply(c, s, Decide(a, d)), ChangedRow(s.db.toolCalls[s.db.approvals[a].toolCall], Decide(a, d));
    assert ApprovalsFit(s.db, |prior|) by { FitOfRows(s.db, prior, rows, turn); }
    forall b: nat | b != a
      ensures AwaitsItsRun(s'.db, b, |prior|) <==> AwaitsItsRun(s.db, b, |prior|)
      ensures OfBatch(s'.db, b, |prior|) <==> OfBatch(s.db, b, |prior|)
      ensures b < |s.db.approvals| ==> s'.db.approvals[b] == s.db.approvals[b]
    {
      OthersStillAwait(s.db, s'.db, |prior|, a, if d.Approve? then Approved else Rejected, row, b);
    }
    assert StillPending(s.db.approvals);
    forall k | 0 <= k < |s.jobs|
      ensures JobFits(s'.db, s'.jobs[k], |prior|) && s.jobs[k].approval != a
    {
      assert JobFits(s.db, s.jobs[k], |prior|);
    }
    forall k | 0 <= k < |s.db.resumes|
      ensures QueueFits(s'.db, s'.db.resumes[k], |prior|) && s.db.resumes[k].approval != a
    {
      assert QueueFits(s.db, s.db.resumes[k], |prior|);
    }
  }

  lemma FitOfRows(db: Db, prior: seq<ToolCallRow>, rows: seq<ToolCallRow>, turn: nat)
    requires BatchRows(db, prior, rows, turn)
    ensures ApprovalsFit(db, |prior|)
  {
  }

  lemma FlightAfterStart(c: Config, s: Sys, k: nat, prior: seq<ToolCallRow>, rows: seq<ToolCallRow>, turn: nat)
    requires Reviewing(s, prior, rows, turn) && k < |s.db.resumes|
    ensures FlightFits(Apply(c, s, StartResume(k)), |prior|)
    ensures var job, s' := s.db.resumes[k], Apply(c, s, StartResume(k));
            && s'.db == s.db.(resumes := Remove(s.db.resumes, k))
            && s'.jobs == s.jobs + (if !job.refused then [Running(job.approval)]
                                    else if StillPending(s.db.approvals) then []
                                    else [Settling(job.approval, GetSettlement(s.db, job.approval), false)])
  {
    hide BatchRows, RowsOfTurn, TakeRows;
    assert QueueFits(s.db, s.db.resumes[k], |prior|);
    var s' := Apply(c, s, StartResume(k));
    forall l | 0 <= l < |s'.db.resumes|
      ensures QueueFits(s'.db, s'.db.resumes[l], |prior|) && s'.db.resumes[l].approval != s.db.resumes[k].approval
    {
      assert s'.db.resumes[l] == s.db.resumes[if l < k then l else l + 1];
    }
    forall l | 0 <= l < |s.jobs|
      ensures JobFits(s'.db, s'.jobs[l], |prior|)
    {
      assert JobFits(s.db, s.jobs[l], |prior|);
    }
  }

  lemma FlightAfterHandler(c: Config, s: Sys, k: nat, succeeded: bool, payload: Payload, prior: seq<ToolCallRow>,
    rows: seq<ToolCallRow>, turn: nat)
    requires Reviewing(s, prior, rows, turn) && Enabled(c, s, FinishHandler(k, succeeded, payload))
    ensures FlightFits(Apply(c, s, FinishHandler(k, succeeded, payload)), |prior|)
  {
    hide BatchRows, GetSettlement, EachItsOwn;
    assert JobFits(s.db, s.jobs[k], |prior|);
    HandlerRows(c, s, k, succeeded, payload, prior, rows, turn);
    FitOfRows(s.db, prior, rows, turn);
    NoOtherFor(s, k);
    var e := FinishHandler(k, succeeded, payload);
    var a, s' := s.jobs[k].approval, Apply(c, s, e);
    var t := s.db.approvals[a].toolCall;
    assert s'.db.approvals == s.db.approvals[a := ApprovalRow(t, Approved)];
    forall b: nat | b != a
      ensures AwaitsItsRun(s'.db, b, |prior|) <==> AwaitsItsRun(s.db, b, |prior|)
      ensures OfBatch(s'.db, b, |prior|) <==> OfBatch(s.db, b, |prior|)
    {
      OthersStillAwait(s.db, s'.db, |prior|, a, Approved, ChangedRow(s.db.toolCalls[t], e), b);
    }
    forall l | 0 <= l < |s.db.resumes|
      ensures QueueFits(s'.db, s'.db.resumes[l], |prior|)
    {
      assert QueueFits(s.db, s.db.resumes[l], |prior|);
    }
    var settled := GetSettlement(s'.db, a).settled;
    assert settled <==> !StillPending(s.db.approvals) by { SettledWhenNonePending(s'.db, a); }
    forall l | 0 <= l < |s'.jobs|
      ensures JobFits(s'.db, s'.jobs[l], |prior|)
    {
      if !(settled && l == k) {
        assert s'.jobs[l] == s.jobs[if settled || l < k then l else l + 1];
      }
    }
    assert EachItsOwn(s') by { JobEnds(s, s', k, Settling(a, GetSettlement(s'.db, a), succeeded)); }
  }

  /** A running handler is alone in standing for its approval. */
  lemma NoOtherFor(s: Sys, k: nat)
    requires EachItsOwn(s) && k < |s.jobs| && s.jobs[k].Running?
    ensures forall l :: 0 <= l < |s.db.resumes| ==> s.db.resumes[l].approval != s.jobs[k].approval
    ensures forall l :: 0 <= l < |s.jobs| && l != k && s.jobs[l].Running? ==> s.jobs[l].approval != s.jobs[k].approval
  {
  }

  lemma JobEnds(s: Sys, s': Sys, k: nat, job: Job)
    requires EachItsOwn(s) && k < |s.jobs| && s'.db.resumes == s.db.resumes
    requires s'.jobs == Remove(s.jobs, k) || (job.Settling? && s'.jobs == s.jobs[k := job])
    ensures EachItsOwn(s')
  {
    if s'.jobs == Remove(s.jobs, k) {
      assert forall l :: 0 <= l < |s'.jobs| ==> s'.jobs[l] == s.jobs[if l < k then l else l + 1];
    }
  }

  lemma SettledWhenNonePending(db: Db, a: nat)
    ensures GetSettlement(db, a).settled <==> !StillPending(db.approvals)
  {
  }

  lemma FlightAfterKill(c: Config, s: Sys, k: nat, prior: seq<ToolCallRow>, rows: seq<ToolCallRow>, turn: nat)
    requires Reviewing(s, prior, rows, turn) && k < |s.jobs|
    ensures FlightFits(Apply(c, s, KillResume(k)), |prior|)
  {
    hide BatchRows;
    var s' := Apply(c, s, KillResume(k));
    assert forall l :: 0 <= l < |s'.jobs| ==> s'.jobs[l] == s.jobs[if l < k then l else l + 1];
  }

  /** Under review: whatever happens short of the answer, the batch keeps its shape, and only the
      row concerned changes. */
  lemma ReviewKeeps(c: Config, s: Sys, e: Event, prior: seq<ToolCallRow>, rows: seq<ToolCallRow>, turn: nat)
    requires Reviewing(s, prior, rows, turn) && Enabled(c, s, e) && ReviewStep(e)
    ensures var s' := Apply(c, s, e);
            && Reviewing(s', prior, ChangedRows(s, e, |prior|, rows), turn)
            && s'.db.checkpoint == s.db.checkpoint && s'.db.continuations == s.db.continuations && s'.execs == s.execs
            && (!e.Tick? ==> s'.now == s.now)
  {
    hide BatchRows, FlightFits, DecideApproval, GetSettlement;
    match e {
      case Decide(a, d) =>
        DecideRows(c, s, a, d, prior, rows, turn);
        FlightAfterDecision(c, s, a, d, prior, rows, turn);
      case StartResume(k) =>
        FlightAfterStart(c, s, k, prior, rows, turn);
        SameRows(s.db, Apply(c, s, e).db, prior, rows, turn);
      case FinishHandler(k, succeeded, payload) =>
        RunningAwaits(s, k, prior, rows, turn);
        HandlerRows(c, s, k, succeeded, payload, prior, rows, turn);
        FlightAfterHandler(c, s, k, succeeded, payload, prior, rows, turn);
      case KillResume(k) => FlightAfterKill(c, s, k, prior, rows, turn);
      case Tick(to) => SameFlight(s, s.(now := to), |prior|);
      case Sweep => assert Apply(c, s, e) == s;
    }
  }

  lemma RunningAwaits(s: Sys, k: nat, prior: seq<ToolCallRow>, rows: seq<ToolCallRow>, turn: nat)
    requires Reviewing(s, prior, rows, turn) && k < |s.jobs| && s.jobs[k].Running?
    ensures AwaitsItsRun(s.db, s.jobs[k].approval, |prior|)
  {
    hide BatchRows;
    assert JobFits(s.db, s.jobs[k], |prior|);
  }

  lemma SameFlight(s: Sys, s': Sys, prior: nat)
    requires FlightFits(s, prior) && s'.db == s.db && s'.jobs == s.jobs
    ensures FlightFits(s', prior)
  {
  }

  lemma SameRows(db: Db, db': Db, prior: seq<ToolCallRow>, rows: seq<ToolCallRow>, turn: nat)
    requires BatchRows(db, prior, rows, turn) && db'.approvals == db.approvals && db'.toolCalls == db.toolCalls
    ensures BatchRows(db', prior, rows, turn)
  {
    forall j | 0 <= j < |rows|
      ensures RowStands(db', |prior| + j, rows[j])
    {
      assert RowStands(db, |prior| + j, rows[j]);
      if rows[j].result.None? {
        var a: nat :| Asks(db, a, |prior| + j, rows[j]);
        assert Asks(db', a, |prior| + j, rows[j]);
      } else {
        assert forall a: nat :: CanDecide(db', a) ==> CanDecide(db, a);
      }
    }
  }

  // ------------------------------------------------- when a settlement misses a result

  predicate Complete(rows: seq<ToolCallRow>) { forall j :: 0 <= j < |rows| ==> rows[j].result.Some? }

  /** A settlement about to be acted on answers some call with "no recorded result". */
  predicate AboutToMiss(s: Sys) {
    exists k :: 0 <= k < |s.jobs| && s.jobs[k].Settling? && !Complete(s.jobs[k].settlement.batch)
  }

  /** A call other than `own` has been approved, and its result is not recorded yet. */
  predicate AnotherUnrecorded(rows: seq<ToolCallRow>, own: int) {
    exists j :: 0 <= j < |rows| && j != own && rows[j].status == Pending
  }

  predicate RefusalQueued(s: Sys) { exists k :: 0 <= k < |s.db.resumes| && s.db.resumes[k].refused }

  /** Nobody but `a` is still undecided. */
  predicate LastOpen(db: Db, a: nat) {
    CanDecide(db, a) && forall i :: 0 <= i < |db.approvals| && i != a ==> db.approvals[i].status != AwaitingDecision
  }

  /** With nothing undecided, a call is unanswered exactly while its row is Pending. */
  lemma UnansweredIsPending(db: Db, prior: seq<ToolCallRow>, rows: seq<ToolCallRow>, turn: nat, j: nat)
    requires BatchRows(db, prior, rows, turn) && j < |rows|
    ensures rows[j].status == Pending ==> rows[j].result.None?
    ensures rows[j].result.None? && rows[j].status != Pending ==>
              exists a: nat :: CanDecide(db, a) && db.approvals[a].toolCall == |prior| + j
  {
    assert RowStands(db, |prior| + j, rows[j]);
    if rows[j].result.None? {
      var a: nat :| Asks(db, a, |prior| + j, rows[j]);
    }
  }

  /** A handler's result settles the batch exactly when nobody is undecided; the settlement is the
      batch as it stands, and misses a result exactly when another approved call has none yet. */
  lemma HandlerSettlesExactly(c: Config, s: Sys, k: nat, succeeded: bool, payload: Payload, prior: seq<ToolCallRow>,
    rows: seq<ToolCallRow>, turn: nat)
    requires Reviewing(s, prior, rows, turn) && Enabled(c, s, FinishHandler(k, succeeded, payload))
    ensures var e := FinishHandler(k, succeeded, payload);
            var a, s', rows' := s.jobs[k].approval, Apply(c, s, e), ChangedRows(s, e, |prior|, rows);
            s'.jobs == if StillPending(s.db.approvals) then Remove(s.jobs, k) else s.jobs[k := Settling(a, Settlement(true, rows'), succeeded)]
    ensures !StillPending(s.db.approvals) ==>
              (Complete(ChangedRows(s, FinishHandler(k, succeeded, payload), |prior|, rows))
               <==> !AnotherUnrecorded(rows, s.db.approvals[s.jobs[k].approval].toolCall - |prior|))
  {
    hide RowStands, FlightFits, RowsOfTurn, TakeRows;
    RunningAwaits(s, k, prior, rows, turn);
    HandlerRows(c, s, k, succeeded, payload, prior, rows, turn);
    var e := FinishHandler(k, succeeded, payload);
    var s', rows' := Apply(c, s, e), ChangedRows(s, e, |prior|, rows);
    SettlementIsTheBatch(s'.db, prior, rows', turn, s.jobs[k].approval);
    if !StillPending(s.db.approvals) {
      CompleteExactly(s.db, prior, rows, turn, s.db.approvals[s.jobs[k].approval].toolCall - |prior|, rows');
    }
  }

  lemma CompleteExactly(db: Db, prior: seq<ToolCallRow>, rows: seq<ToolCallRow>, turn: nat, own: nat, rows': seq<ToolCallRow>)
    requires BatchRows(db, prior, rows, turn) && !StillPending(db.approvals) && own < |rows| == |rows'|
    requires rows'[own].result.Some? && forall j :: 0 <= j < |rows| && j != own ==> rows'[j] == rows[j]
    ensures Complete(rows') <==> !AnotherUnrecorded(rows, own)
  {
    forall j | 0 <= j < |rows|
      ensures rows[j].result.None? <==> rows[j].status == Pending
    {
      UnansweredIsPending(db, prior, rows, turn, j);
    }
  }

  /** So does the resume of a refusal, which records nothing of its own. */
  lemma RefusalSettlesExactly(c: Config, s: Sys, k: nat, prior: seq<ToolCallRow>, rows: seq<ToolCallRow>, turn: nat)
    requires Reviewing(s, prior, rows, turn) && k < |s.db.resumes| && s.db.resumes[k].refused && !StillPending(s.db.approvals)
    ensures Apply(c, s, StartResume(k)).jobs == s.jobs + [Settling(s.db.resumes[k].approval, Settlement(true, rows), false)]
    ensures Complete(rows) <==> !AnotherUnrecorded(rows, -1)
  {
    hide RowStands, RowsOfTurn, TakeRows;
    assert QueueFits(s.db, s.db.resumes[k], |prior|);
    FlightAfterStart(c, s, k, prior, rows, turn);
    SettlementIsTheBatch(s.db, prior, rows, turn, s.db.resumes[k].approval);
    forall j | 0 <= j < |rows|
      ensures rows[j].result.None? <==> rows[j].status == Pending
    {
      UnansweredIsPending(s.db, prior, rows, turn, j);
    }
  }

  /** Some schedule of what is under way, crashes and delays included, leads to a missed result. */
  ghost predicate MayMiss(c: Config, s: Sys) {
    exists run: seq<Event> :: Valid(c, s, run) && (forall i :: 0 <= i < |run| ==> ReviewStep(run[i])) && AboutToMiss(Replay(c, s, run))
  }

  /** All decided, and every result is recorded - or one approved call alone awaits its run, with no
      refusal queued that could settle the batch before it. */
  ghost predicate Safe(s: Sys, prior: seq<ToolCallRow>, rows: seq<ToolCallRow>, turn: nat, own: int) {
    && Reviewing(s, prior, rows, turn) && !StillPending(s.db.approvals) && !AboutToMiss(s)
    && !AnotherUnrecorded(rows, own) && (Complete(rows) || !RefusalQueued(s))
  }

  lemma SafeStep(c: Config, s: Sys, e: Event, prior: seq<ToolCallRow>, rows: seq<ToolCallRow>, turn: nat, own: int)
    requires Safe(s, prior, rows, turn, own) && Enabled(c, s, e) && ReviewStep(e)
    ensures Safe(Apply(c, s, e), prior, ChangedRows(s, e, |prior|, rows), turn, own)
  {
    hide BatchRows, FlightFits, RowsOfTurn, TakeRows;
    ReviewKeeps(c, s, e, prior, rows, turn);
    match e {
      case Decide(a, d) => assert false;
      case StartResume(k) => SafeStart(c, s, k, prior, rows, turn, own);
      case FinishHandler(k, succeeded, payload) => SafeHandler(c, s, k, succeeded, payload, prior, rows, turn, own);
      case KillResume(k) =>
        var s' := Apply(c, s, e);
        assert forall l :: 0 <= l < |s'.jobs| ==> s'.jobs[l] == s.jobs[if l < k then l else l + 1];
      case Tick(_) =>
      case Sweep => assert Apply(c, s, e) == s;
    }
  }

  lemma SafeStart(c: Config, s: Sys, k: nat, prior: seq<ToolCallRow>, rows: seq<ToolCallRow>, turn: nat, own: int)
    requires Safe(s, prior, rows, turn, own) && k < |s.db.resumes|
    ensures var s' := Apply(c, s, StartResume(k)); !StillPending(s'.db.approvals) && !AboutToMiss(s') && (RefusalQueued(s') ==> RefusalQueued(s))
  {
    hide BatchRows, FlightFits, Apply, Complete;
    FlightAfterStart(c, s, k, prior, rows, turn);
    var s' := Apply(c, s, StartResume(k));
    if s.db.resumes[k].refused {
      assert RefusalQueued(s);
      RefusalSettlesExactly(c, s, k, prior, rows, turn);
    }
    forall l | 0 <= l < |s'.db.resumes| && s'.db.resumes[l].refused
      ensures RefusalQueued(s)
    {
      assert s'.db.resumes[l] == s.db.resumes[if l < k then l else l + 1];
    }
  }

  lemma SafeHandler(c: Config, s: Sys, k: nat, succeeded: bool, payload: Payload, prior: seq<ToolCallRow>,
    rows: seq<ToolCallRow>, turn: nat, own: int)
    requires Safe(s, prior, rows, turn, own) && Enabled(c, s, FinishHandler(k, succeeded, payload))
    ensures var e := FinishHandler(k, succeeded, payload);
            var s', rows' := Apply(c, s, e), ChangedRows(s, e, |prior|, rows);
            !StillPending(s'.db.approvals) && !AboutToMiss(s') && s'.db.resumes == s.db.resumes && Complete(rows') && !AnotherUnrecorded(rows', own)
  {
    hide RowStands, ApprovalsFit, FlightFits, RowsOfTurn, TakeRows;
    RunningAwaits(s, k, prior, rows, turn);
    UnansweredSoFar(s.db, prior, rows, turn, s.jobs[k].approval);
    HandlerSettlesExactly(c, s, k, succeeded, payload, prior, rows, turn);
    var mine := s.db.approvals[s.jobs[k].approval].toolCall - |prior|;
    assert rows[mine].status == Pending && mine == own;
  }

  lemma {:induction false} SafeAlways(c: Config, s: Sys, run: seq<Event>, prior: seq<ToolCallRow>, rows: seq<ToolCallRow>,
    turn: nat, own: int)
    requires Safe(s, prior, rows, turn, own) && Valid(c, s, run) && forall i :: 0 <= i < |run| ==> ReviewStep(run[i])
    ensures !AboutToMiss(Replay(c, s, run))
    decreases |run|
  {
    hide Safe, Apply, Enabled, ReviewStep, AboutToMiss;
    if run == [] {
      assert !AboutToMiss(s) by { SafeIsSafe(s, prior, rows, turn, own); }
    } else {
      SafeStep(c, s, run[0], prior, rows, turn, own);
      SafeAlways(c, Apply(c, s, run[0]), run[1..], prior, ChangedRows(s, run[0], |prior|, rows), turn, own);
    }
  }

  lemma SafeIsSafe(s: Sys, prior: seq<ToolCallRow>, rows: seq<ToolCallRow>, turn: nat, own: int)
    requires Safe(s, prior, rows, turn, own)
    ensures !AboutToMiss(s)
  {
  }

  // -- the schedules that do miss one

  lemma MissNow(c: Config, s: Sys)
    requires AboutToMiss(s)
    ensures MayMiss(c, s)
  {
    assert Valid(c, s, []) && Replay(c, s, []) == s;
  }

  lemma MissLater(c: Config, s: Sys, e: Event)
    requires Enabled(c, s, e) && ReviewStep(e) && MayMiss(c, Apply(c, s, e))
    ensures MayMiss(c, s)
  {
    hide Apply, Enabled, ReviewStep, AboutToMiss;
    var run: seq<Event> :| Valid(c, Apply(c, s, e), run) && (forall i :: 0 <= i < |run| ==> ReviewStep(run[i]))
      && AboutToMiss(Replay(c, Apply(c, s, e), run));
    var longer := [e] + run;
    assert longer[1..] == run && longer[0] == e;
    assert Valid(c, s, longer) && Replay(c, s, longer) == Replay(c, Apply(c, s, e), run);
    assert forall i :: 0 <= i < |longer| ==> ReviewStep(longer[i]);
  }

  /** A queued refusal settles the batch while an approved call is unrecorded. */
  lemma RefusalMisses(c: Config, s: Sys, k: nat, prior: seq<ToolCallRow>, rows: seq<ToolCallRow>, turn: nat)
    requires Reviewing(s, prior, rows, turn) && k < |s.db.resumes| && s.db.resumes[k].refused && !StillPending(s.db.approvals)
    requires AnotherUnrecorded(rows, -1)
    ensures MayMiss(c, s)
  {
    hide Reviewing, Complete, MayMiss, Apply;
    RefusalSettlesExactly(c, s, k, prior, rows, turn);
    var s' := Apply(c, s, StartResume(k));
    assert s'.jobs[|s.jobs|].Settling? && !Complete(s'.jobs[|s.jobs|].settlement.batch);
    MissNow(c, s');
    MissLater(c, s, StartResume(k));
  }

  /** So does the handler of one approved call while another is unrecorded. */
  lemma HandlerMisses(c: Config, s: Sys, k: nat, prior: seq<ToolCallRow>, rows: seq<ToolCallRow>, turn: nat)
    requires Reviewing(s, prior, rows, turn) && k < |s.db.resumes| && !s.db.resumes[k].refused && !StillPending(s.db.approvals)
    requires s.db.resumes[k].approval < |s.db.approvals|
    requires AnotherUnrecorded(rows, s.db.approvals[s.db.resumes[k].approval].toolCall - |prior|)
    ensures MayMiss(c, s)
  {
    hide Complete, MayMiss, Apply, BatchRows, FlightFits;
    FlightAfterStart(c, s, k, prior, rows, turn);
    var s1 := Apply(c, s, StartResume(k));
    ReviewKeeps(c, s, StartResume(k), prior, rows, turn);
    var n := |s.jobs|;
    assert s1.jobs[n] == Running(s.db.resumes[k].approval);
    var finish := FinishHandler(n, true, RehearsedPayload);
    HandlerSettlesExactly(c, s1, n, true, RehearsedPayload, prior, rows, turn);
    var s2 := Apply(c, s1, finish);
    assert s2.jobs[n].Settling? && !Complete(s2.jobs[n].settlement.batch);
    MissNow(c, s2);
    MissLater(c, s1, finish);
    MissLater(c, s, StartResume(k));
  }

  /**
   * When the last decision on a parked batch can lose a result, read before it is taken: exactly when
   * another approved call's row is still Pending, or the decision is an approval and a refusal waits
   * in the queue, whose resume may settle the batch before the approved call has run. Otherwise no
   * interleaving, delay or crash of the resume actions makes a settlement miss anything.
   */
  lemma LosesAResultExactly(c: Config, s: Sys, a: nat, d: Decision, prior: seq<ToolCallRow>, rows: seq<ToolCallRow>, turn: nat)
    requires Reviewing(s, prior, rows, turn) && LastOpen(s.db, a) && !d.CancelDecision?
    ensures MayMiss(c, Apply(c, s, Decide(a, d)))
            <==> AnotherUnrecorded(rows, s.db.approvals[a].toolCall - |prior|) || (d.Approve? && RefusalQueued(s))
  {
    hide Reviewing, MayMiss, Safe, DecideApproval, Complete;
    var e, own := Decide(a, d), s.db.approvals[a].toolCall - |prior|;
    var s', rows' := Apply(c, s, e), ChangedRows(s, e, |prior|, rows);
    ReviewKeeps(c, s, e, prior, rows, turn);
    AfterLastDecision(c, s, a, d, prior, rows, turn);
    var n := |s.db.resumes|;
    if AnotherUnrecorded(rows, own) {
      if d.Approve? {
        HandlerMisses(c, s', n, prior, rows', turn);
      } else {
        RefusalMisses(c, s', n, prior, rows', turn);
      }
    } else if d.Approve? && RefusalQueued(s) {
      var k :| 0 <= k < n && s.db.resumes[k].refused;
      assert s'.db.resumes[k].refused;
      RefusalMisses(c, s', k, prior, rows', turn);
    } else {
      forall run: seq<Event> | Valid(c, s', run) && (forall i :: 0 <= i < |run| ==> ReviewStep(run[i]))
        ensures !AboutToMiss(Replay(c, s', run))
      {
        SafeAlways(c, s', run, prior, rows', turn, if d.Approve? then own else -1);
      }
      assert !MayMiss(c, s') by { NeverMisses(c, s'); }
    }
  }

  lemma NeverMisses(c: Config, s: Sys)
    requires forall run: seq<Event> :: Valid(c, s, run) && (forall i :: 0 <= i < |run| ==> ReviewStep(run[i])) ==> !AboutToMiss(Replay(c, s, run))
    ensures !MayMiss(c, s)
  {
  }

  lemma AfterLastDecision(c: Config, s: Sys, a: nat, d: Decision, prior: seq<ToolCallRow>, rows: seq<ToolCallRow>, turn: nat)
    requires Reviewing(s, prior, rows, turn) && LastOpen(s.db, a) && !d.CancelDecision?
    ensures var own := s.db.approvals[a].toolCall - |prior|;
            var s', rows' := Apply(c, s, Decide(a, d)), ChangedRows(s, Decide(a, d), |prior|, rows);
            && 0 <= own < |rows| && !StillPending(s'.db.approvals) && s'.jobs == s.jobs && |s'.db.approvals| == |s.db.approvals|
            && s'.db.approvals[a].toolCall == s.db.approvals[a].toolCall
            && s'.db.resumes == s.db.resumes + [ResumeJob(a, d.Reject?)]
            && (AnotherUnrecorded(rows', own) <==> AnotherUnrecorded(rows, own))
            && (AnotherUnrecorded(rows', -1) <==> AnotherUnrecorded(rows, own) || d.Approve?)
            && (!AnotherUnrecorded(rows, own) && !(d.Approve? && RefusalQueued(s)) ==> Safe(s', prior, rows', turn, if d.Approve? then own else -1))
  {
    hide RowStands, ApprovalsFit, FlightFits, Apply, DecideApproval;
    ReviewKeeps(c, s, Decide(a, d), prior, rows, turn);
    DecideRows(c, s, a, d, prior, rows, turn);
    DecideFlight(c, s, a, d);
    var own := s.db.approvals[a].toolCall - |prior|;
    var s', rows' := Apply(c, s, Decide(a, d)), ChangedRows(s, Decide(a, d), |prior|, rows);
    assert forall j :: 0 <= j < |rows| && j != own ==> rows'[j] == rows[j];
    NoSettlementYet(s, a, prior, rows, turn);
    assert rows'[own].status == if d.Approve? then Pending else Denied;
    assert AnotherUnrecorded(rows', own) <==> AnotherUnrecorded(rows, own);
    assert AnotherUnrecorded(rows', -1) <==> AnotherUnrecorded(rows, own) || d.Approve?;
    assert !AboutToMiss(s');
    if !AnotherUnrecorded(rows, own) && !(d.Approve? && RefusalQueued(s)) {
      if d.Reject? {
        CompleteExactly(s'.db, prior, rows', turn, own, rows');
      } else {
        assert forall k :: 0 <= k < |s'.db.resumes| ==> k == |s.db.resumes| || s'.db.resumes[k] == s.db.resumes[k];
        assert !RefusalQueued(s');
      }
    }
  }

  lemma DecideFlight(c: Config, s: Sys, a: nat, d: Decision)
    requires LastOpen(s.db, a) && !d.CancelDecision?
    ensures var s' := Apply(c, s, Decide(a, d)); s'.db == DecideApproval(s.db, a, d) && s'.jobs == s.jobs
    ensures !StillPending(DecideApproval(s.db, a, d).approvals)
  {
    hide AppendRefusedToolCall, BuildRefusedToolCallKey;
  }

  /** While someone is undecided no settlement has been handed out. */
  lemma NoSettlementYet(s: Sys, a: nat, prior: seq<ToolCallRow>, rows: seq<ToolCallRow>, turn: nat)
    requires Reviewing(s, prior, rows, turn) && CanDecide(s.db, a)
    ensures forall k :: 0 <= k < |s.jobs| ==> s.jobs[k].Running?
  {
    hide BatchRows;
    forall k | 0 <= k < |s.jobs|
      ensures s.jobs[k].Running?
    {
      assert JobFits(s.db, s.jobs[k], |prior|);
    }
  }

  /** A settlement acted on when the run no longer waits ends it, whatever the first one began. */
  lemma SecondSettlementEndsTheRun(c: Config, s: Sys, k: nat)
    requires Enabled(c, s, Settle(k)) && s.jobs[k].settlement.settled && !CanContinue(s.db)
    ensures Apply(c, s, Settle(k)).db.run.status == if s.jobs[k].succeeded then RunSuccess else RunFailed
    ensures Apply(c, s, Settle(k)).db.continuations == s.db.continuations
  {
    hide Trim, Chars, BuildToolInteractionTurns, CallsOfRows;
  }

  // --------------------------------------------------------------- one decision at a time

  datatype Answer = Ran(succeeded: bool, payload: Payload) | Turned(reason: string)

  /** What the model is told about a gated call once it has been answered. */
  function AnswerPayload(name: string, answer: Answer): Payload {
    if answer.Ran? then answer.payload else ErrorPayload(RefusedByPerson(name, answer.reason))
  }

  /** `call` is what this row comes to, given what each approval is answered with. */
  ghost predicate RowTells(db: Db, at: nat, row: ToolCallRow, answers: map<nat, Answer>, call: ExecutedCall) {
    && call.name == row.name && call.args == row.args && call.signature == row.signature
    && (row.result.Some? ==> call.payload == row.result.value)
    && (row.result.None? ==> forall a: nat :: a < |db.approvals| && db.approvals[a].toolCall == at ==>
          a in answers && call.payload == AnswerPayload(row.name, answers[a]))
  }

  ghost predicate Tells(db: Db, prior: nat, rows: seq<ToolCallRow>, answers: map<nat, Answer>, calls: seq<ExecutedCall>) {
    |calls| == |rows| && forall j :: 0 <= j < |rows| ==> RowTells(db, prior + j, rows[j], answers, calls[j])
  }

  /** What the model is told about the batch: one turn with every request as it was made, one with every
      call's own answer in the same order - what its row had already, or what was decided about it:
      the handler's result, or who refused it and why. */
  ghost predicate TellsTheBatch(turns: seq<Turn>, db: Db, prior: nat, rows: seq<ToolCallRow>, answers: map<nat, Answer>) {
    && |turns| == 2 && turns[0].Calls? && turns[1].Results?
    && |turns[0].calls| == |rows| && |turns[1].results| == |rows|
    && forall j :: 0 <= j < |rows| ==> TellsTheCall(turns[0].calls[j], turns[1].results[j], db, prior + j, rows[j], answers)
  }

  ghost predicate TellsTheCall(asked: CallPart, told: ResultPart, db: Db, at: nat, row: ToolCallRow, answers: map<nat, Answer>) {
    && asked.name == row.name && asked.args == row.args && told.name == row.name
    && asked.signature == (if row.signature == Some("") then None else row.signature)
    && (row.result.Some? ==> told.content == row.result.value)
    && (row.result.None? ==> forall a: nat :: a < |db.approvals| && db.approvals[a].toolCall == at ==>
          a in answers && match answers[a]
                          case Ran(_, payload) => told.content == payload
                          case Turned(reason) => told.content == ErrorPayload(RefusedByPerson(row.name, reason)))
  }

  lemma TurnsTellTheBatch(db: Db, prior: nat, rows: seq<ToolCallRow>, answers: map<nat, Answer>, calls: seq<ExecutedCall>)
    requires Tells(db, prior, rows, answers, calls) && rows != []
    ensures TellsTheBatch(BuildToolInteractionTurns(calls), db, prior, rows, answers)
  {
    hide BuildToolInteractionTurns;
    var turns := BuildToolInteractionTurns(calls);
    TurnsTellTheCalls(turns, calls);
    forall j | 0 <= j < |rows|
      ensures TellsTheCall(turns[0].calls[j], turns[1].results[j], db, prior + j, rows[j], answers)
    {
      assert RowTells(db, prior + j, rows[j], answers, calls[j]);
    }
  }

  /** Somebody is asked about a call of the batch, so it has one. */
  lemma SomeCallWaits(db: Db, prior: seq<ToolCallRow>, rows: seq<ToolCallRow>, turn: nat)
    requires BatchRows(db, prior, rows, turn) && StillPending(db.approvals)
    ensures rows != []
  {
    hide RowStands;
    var a :| 0 <= a < |db.approvals| && db.approvals[a].status == AwaitingDecision;
    assert CanDecide(db, a);
  }

  /** This step answers its approval with what `answers` says. */
  predicate Gives(s: Sys, e: Event, answers: map<nat, Answer>) {
    match e
    case Decide(a, Approve) => a in answers && answers[a].Ran?
    case Decide(a, Reject(reason)) => a in answers && answers[a] == Turned(reason)
    case FinishHandler(k, succeeded, payload) =>
      k < |s.jobs| ==> s.jobs[k].approval in answers && answers[s.jobs[k].approval] == Ran(succeeded, payload)
    case _ => true
  }

  /** Each decision is carried through before the next is taken, and nothing crashes. */
  predicate OneAtATime(s: Sys, e: Event) {
    !e.KillResume? && (e.Decide? ==> s.db.resumes == [] && s.jobs == [])
  }

  /** The one call in hand: approved, and its resume queued or its handler running. */
  predicate InHand(s: Sys, at: nat) {
    || (|s.db.resumes| == 1 && !s.db.resumes[0].refused && s.db.resumes[0].approval < |s.db.approvals|
        && s.db.approvals[s.db.resumes[0].approval].toolCall == at)
    || (|s.jobs| == 1 && s.jobs[0].Running? && s.jobs[0].approval < |s.db.approvals|
        && s.db.approvals[s.jobs[0].approval].toolCall == at)
  }

  ghost predicate Serial(s: Sys, prior: nat, rows: seq<ToolCallRow>) {
    && |s.db.resumes| + |s.jobs| <= 1
    && (!StillPending(s.db.approvals) ==> |s.db.resumes| + |s.jobs| == 1)
    && (forall j :: 0 <= j < |rows| && rows[j].status == Pending ==> InHand(s, prior + j))
    && (forall k :: 0 <= k < |s.jobs| && s.jobs[k].Settling? ==> s.jobs[k].settlement == Settlement(true, rows) && Complete(rows))
  }

  lemma SerialDecision(c: Config, s: Sys, a: nat, d: Decision, prior: seq<ToolCallRow>, rows: seq<ToolCallRow>, turn: nat)
    requires Reviewing(s, prior, rows, turn) && Serial(s, |prior|, rows) && CanDecide(s.db, a) && !d.CancelDecision?
    requires s.db.resumes == [] && s.jobs == []
    ensures Serial(Apply(c, s, Decide(a, d)), |prior|, ChangedRows(s, Decide(a, d), |prior|, rows))
  {
    hide RowStands, ApprovalsFit, FlightFits, DecideApproval;
    DecideRows(c, s, a, d, prior, rows, turn);
  }

  lemma SerialStart(c: Config, s: Sys, k: nat, prior: seq<ToolCallRow>, rows: seq<ToolCallRow>, turn: nat)
    requires Reviewing(s, prior, rows, turn) && Serial(s, |prior|, rows) && k < |s.db.resumes|
    ensures Serial(Apply(c, s, StartResume(k)), |prior|, rows)
  {
    hide BatchRows, FlightFits, Apply, Complete;
    FlightAfterStart(c, s, k, prior, rows, turn);
    var s' := Apply(c, s, StartResume(k));
    assert s'.db.resumes == [];
    if s.db.resumes[k].refused && !StillPending(s.db.approvals) {
      RefusalSettlesExactly(c, s, k, prior, rows, turn);
    }
  }

  lemma SerialHandler(c: Config, s: Sys, k: nat, succeeded: bool, payload: Payload, prior: seq<ToolCallRow>,
    rows: seq<ToolCallRow>, turn: nat)
    requires Reviewing(s, prior, rows, turn) && Serial(s, |prior|, rows) && Enabled(c, s, FinishHandler(k, succeeded, payload))
    ensures Serial(Apply(c, s, FinishHandler(k, succeeded, payload)), |prior|, ChangedRows(s, FinishHandler(k, succeeded, payload), |prior|, rows))
  {
    hide RowStands, ApprovalsFit, FlightFits, Complete, GetSettlement;
    var e := FinishHandler(k, succeeded, payload);
    RunningAwaits(s, k, prior, rows, turn);
    HandlerRows(c, s, k, succeeded, payload, prior, rows, turn);
    HandlerSettlesExactly(c, s, k, succeeded, payload, prior, rows, turn);
    var own := s.db.approvals[s.jobs[k].approval].toolCall - |prior|;
    var s', rows' := Apply(c, s, e), ChangedRows(s, e, |prior|, rows);
    forall j | 0 <= j < |rows| && rows[j].status == Pending
      ensures j == own
    {
      assert InHand(s, |prior| + j);
    }
    assert rows'[own].status != Pending && forall j :: 0 <= j < |rows| && j != own ==> rows'[j] == rows[j];
  }

  lemma SerialStep(c: Config, s: Sys, e: Event, prior: seq<ToolCallRow>, rows: seq<ToolCallRow>, turn: nat)
    requires Reviewing(s, prior, rows, turn) && Serial(s, |prior|, rows)
    requires Enabled(c, s, e) && ReviewStep(e) && OneAtATime(s, e)
    ensures Serial(Apply(c, s, e), |prior|, ChangedRows(s, e, |prior|, rows))
  {
    hide Reviewing, Complete;
    match e {
      case Decide(a, d) => SerialDecision(c, s, a, d, prior, rows, turn);
      case StartResume(k) => SerialStart(c, s, k, prior, rows, turn);
      case FinishHandler(k, succeeded, payload) => SerialHandler(c, s, k, succeeded, payload, prior, rows, turn);
      case Tick(_) =>
      case Sweep => assert Apply(c, s, e) == s by { NotStalled(s, prior, rows, turn); }
    }
  }

  lemma NotStalled(s: Sys, prior: seq<ToolCallRow>, rows: seq<ToolCallRow>, turn: nat)
    requires Reviewing(s, prior, rows, turn)
    ensures !IsStalled(s.db, s.now)
  {
    hide BatchRows, FlightFits;
  }

  /** Every recorded answer is the one given, so what the batch will come to never changes. */
  lemma TellsKept(c: Config, s: Sys, e: Event, prior: seq<ToolCallRow>, rows: seq<ToolCallRow>, turn: nat,
    answers: map<nat, Answer>, calls: seq<ExecutedCall>)
    requires Reviewing(s, prior, rows, turn) && Enabled(c, s, e) && ReviewStep(e) && Gives(s, e, answers)
    requires Tells(s.db, |prior|, rows, answers, calls)
    ensures Tells(Apply(c, s, e).db, |prior|, ChangedRows(s, e, |prior|, rows), answers, calls)
  {
    hide BatchRows, FlightFits, DecideApproval, GetSettlement, Tells;
    match e {
      case Decide(a, d) => TellsDecision(c, s, a, d, prior, rows, turn, answers, calls);
      case StartResume(k) =>
        FlightAfterStart(c, s, k, prior, rows, turn);
        SameTells(s.db, Apply(c, s, e).db, |prior|, rows, answers, calls);
      case FinishHandler(k, succeeded, payload) => TellsHandler(c, s, k, succeeded, payload, prior, rows, turn, answers, calls);
      case KillResume(k) =>
      case Tick(_) =>
      case Sweep => assert Apply(c, s, e) == s;
    }
  }

  lemma TellsDecision(c: Config, s: Sys, a: nat, d: Decision, prior: seq<ToolCallRow>, rows: seq<ToolCallRow>, turn: nat,
    answers: map<nat, Answer>, calls: seq<ExecutedCall>)
    requires BatchRows(s.db, prior, rows, turn) && CanDecide(s.db, a) && !d.CancelDecision? && Gives(s, Decide(a, d), answers)
    requires Tells(s.db, |prior|, rows, answers, calls)
    ensures Tells(DecideApproval(s.db, a, d), |prior|, ChangedRows(s, Decide(a, d), |prior|, rows), answers, calls)
  {
    hide BatchRows, DecideApproval, Tells;
    DecideRows(c, s, a, d, prior, rows, turn);
    UnansweredSoFar(s.db, prior, rows, turn, a);
    OneRowTells(s.db, DecideApproval(s.db, a, d), |prior|, rows, answers, calls, a,
                ChangedRow(s.db.toolCalls[s.db.approvals[a].toolCall], Decide(a, d)));
  }

  lemma TellsHandler(c: Config, s: Sys, k: nat, succeeded: bool, payload: Payload, prior: seq<ToolCallRow>, rows: seq<ToolCallRow>,
    turn: nat, answers: map<nat, Answer>, calls: seq<ExecutedCall>)
    requires Reviewing(s, prior, rows, turn) && Enabled(c, s, FinishHandler(k, succeeded, payload))
    requires Gives(s, FinishHandler(k, succeeded, payload), answers) && Tells(s.db, |prior|, rows, answers, calls)
    ensures Tells(Apply(c, s, FinishHandler(k, succeeded, payload)).db, |prior|,
                  ChangedRows(s, FinishHandler(k, succeeded, payload), |prior|, rows), answers, calls)
  {
    hide BatchRows, FlightFits, GetSettlement, Tells;
    RunningAwaits(s, k, prior, rows, turn);
    HandlerRows(c, s, k, succeeded, payload, prior, rows, turn);
    var a, e := s.jobs[k].approval, FinishHandler(k, succeeded, payload);
    UnansweredSoFar(s.db, prior, rows, turn, a);
    OneRowTells(s.db, Apply(c, s, e).db, |prior|, rows, answers, calls, a, ChangedRow(s.db.toolCalls[s.db.approvals[a].toolCall], e));
  }

  lemma SameTells(db: Db, db': Db, prior: nat, rows: seq<ToolCallRow>, answers: map<nat, Answer>, calls: seq<ExecutedCall>)
    requires Tells(db, prior, rows, answers, calls) && db'.approvals == db.approvals
    ensures Tells(db', prior, rows, answers, calls)
  {
    forall j | 0 <= j < |rows|
      ensures RowTells(db', prior + j, rows[j], answers, calls[j])
    {
      assert RowTells(db, prior + j, rows[j], answers, calls[j]);
    }
  }

  lemma OneRowTells(db: Db, db': Db, prior: nat, rows: seq<ToolCallRow>, answers: map<nat, Answer>, calls: seq<ExecutedCall>,
    a: nat, row: ToolCallRow)
    requires Tells(db, prior, rows, answers, calls) && a < |db.approvals| && prior <= db.approvals[a].toolCall < prior + |rows|
    requires |db'.approvals| == |db.approvals| && forall b :: 0 <= b < |db.approvals| ==> db'.approvals[b].toolCall == db.approvals[b].toolCall
    requires var was := rows[db.approvals[a].toolCall - prior];
             && was.result.None? && row.name == was.name && row.args == was.args && row.signature == was.signature
             && (row.result.Some? ==> a in answers ==> row.result.value == AnswerPayload(was.name, answers[a]))
    ensures Tells(db', prior, rows[db.approvals[a].toolCall - prior := row], answers, calls)
  {
    var own := db.approvals[a].toolCall - prior;
    forall j | 0 <= j < |rows|
      ensures RowTells(db', prior + j, rows[own := row][j], answers, calls[j])
    {
      assert RowTells(db, prior + j, rows[j], answers, calls[j]);
    }
  }

  ghost predicate OrderlyReview(c: Config, s: Sys, run: seq<Event>, answers: map<nat, Answer>)
    requires Valid(c, s, run)
    decreases |run|
  {
    run == [] || (ReviewStep(run[0]) && OneAtATime(s, run[0]) && Gives(s, run[0], answers)
                  && OrderlyReview(c, Apply(c, s, run[0]), run[1..], answers))
  }

  lemma {:induction false} ReviewRun(c: Config, s: Sys, run: seq<Event>, prior: seq<ToolCallRow>, rows: seq<ToolCallRow>,
    turn: nat, answers: map<nat, Answer>, calls: seq<ExecutedCall>) returns (rows': seq<ToolCallRow>)
    requires Reviewing(s, prior, rows, turn) && Serial(s, |prior|, rows) && Tells(s.db, |prior|, rows, answers, calls)
    requires Valid(c, s, run) && OrderlyReview(c, s, run, answers)
    ensures var s' := Replay(c, s, run);
            && Reviewing(s', prior, rows', turn) && Serial(s', |prior|, rows') && Tells(s'.db, |prior|, rows', answers, calls)
            && s'.db.checkpoint == s.db.checkpoint && s'.db.continuations == s.db.continuations && s'.execs == s.execs
    decreases |run|
  {
    hide Reviewing, Serial, Tells, Apply, Enabled, ReviewStep, OneAtATime, Gives;
    if run == [] {
      rows' := rows;
    } else {
      ReviewKeeps(c, s, run[0], prior, rows, turn);
      SerialStep(c, s, run[0], prior, rows, turn);
      TellsKept(c, s, run[0], prior, rows, turn, answers, calls);
      rows' := ReviewRun(c, Apply(c, s, run[0]), run[1..], prior, ChangedRows(s, run[0], |prior|, rows), turn, answers, calls);
    }
  }

  /** With every result recorded, the rows are the calls. */
  lemma CompleteRowsAreTheCalls(db: Db, prior: nat, rows: seq<ToolCallRow>, answers: map<nat, Answer>, calls: seq<ExecutedCall>)
    requires Tells(db, prior, rows, answers, calls) && Complete(rows) && forall j :: 0 <= j < |rows| ==> rows[j].args.Obj?
    ensures CallsOfRows(rows) == calls
  {
    forall j | 0 <= j < |rows|
      ensures CallOfRow(rows[j]) == calls[j]
    {
      assert RowTells(db, prior + j, rows[j], answers, calls[j]);
    }
  }

  /**
   * Parking is transparent, order-independent and patient: let the open approvals of a parked batch be
   * decided in any order, each carried through before the next, with any delays and sweeps in between.
   * When the batch settles, the stored conversation is the parked one plus exactly the model turn and
   * function turn of `calls` - the calls of the batch, in request order, each with the result
   * `answers` gives it - one continuation is scheduled, and nothing is left waiting. Those two turns
   * tell every call its own answer.
   */
  lemma AnyOrderGivesTheSameTurns(c: Config, s: Sys, run: seq<Event>, k: nat, prior: seq<ToolCallRow>, rows: seq<ToolCallRow>,
    turn: nat, answers: map<nat, Answer>, calls: seq<ExecutedCall>)
    requires Parked(s, prior, rows, turn) && Tells(s.db, |prior|, rows, answers, calls)
    requires s.db.checkpoint.value.threaded && s.db.checkpoint.value.transcript != []
    requires Valid(c, s, run) && OrderlyReview(c, s, run, answers) && Enabled(c, Replay(c, s, run), Settle(k))
    ensures var end := Replay(c, s, run);
            var after, t := Apply(c, end, Settle(k)), Trim(s.db.checkpoint.value.transcript + BuildToolInteractionTurns(calls), c.cap);
            Storable(t, c.cap) ==>
              && after.db.checkpoint == Some(s.db.checkpoint.value.(status := Active, transcript := t, updatedAt := end.now))
              && after.db.continuations == s.db.continuations + [end.now] && after.db.run.status == RunRunning
              && after.db.resumes == [] && after.jobs == [] && !StillPending(after.db.approvals)
    ensures TellsTheBatch(BuildToolInteractionTurns(calls), s.db, |prior|, rows, answers)
  {
    hide BatchRows, Tells, TellsTheBatch, Complete, Trim, Chars, BuildToolInteractionTurns, CallsOfRows, Valid, Replay, OrderlyReview;
    SomeCallWaits(s.db, prior, rows, turn);
    TurnsTellTheBatch(s.db, |prior|, rows, answers, calls);
    var end := Replay(c, s, run);
    var rows' := ReviewRun(c, s, run, prior, rows, turn, answers, calls);
    assert JobFits(end.db, end.jobs[k], |prior|);
    ObjectArguments(end.db, prior, rows', turn);
    CompleteRowsAreTheCalls(end.db, |prior|, rows', answers, calls);
    assert Remove(end.jobs, k) == [];
  }

  lemma ObjectArguments(db: Db, prior: seq<ToolCallRow>, rows: seq<ToolCallRow>, turn: nat)
    requires BatchRows(db, prior, rows, turn)
    ensures forall j :: 0 <= j < |rows| ==> rows[j].args.Obj?
  {
  }

  /** Until the batch is answered there is always a step to take: a decision, a resume or a settlement. */
  lemma NeverStuck(c: Config, s: Sys, prior: seq<ToolCallRow>, rows: seq<ToolCallRow>, turn: nat) returns (e: Event)
    requires Reviewing(s, prior, rows, turn) && Serial(s, |prior|, rows)
    ensures Enabled(c, s, e) && ((ReviewStep(e) && OneAtATime(s, e) && !e.Tick? && !e.Sweep?) || e.Settle?)
  {
    hide BatchRows;
    if s.db.resumes != [] {
      e := StartResume(0);
    } else if s.jobs != [] {
      assert JobFits(s.db, s.jobs[0], |prior|);
      e := if s.jobs[0].Running? then FinishHandler(0, true, RehearsedPayload) else Settle(0);
    } else {
      var i :| 0 <= i < |s.db.approvals| && s.db.approvals[i].status == AwaitingDecision;
      e := Decide(i, Approve);
    }
  }
}
