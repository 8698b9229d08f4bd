/** What each mutation on the approval side leaves behind, row by row: which row changes and to what,
    which others stay, what is queued and what the run is told to be (convex/agentRunApprovals.ts:148-346,
    437-520 and 592-841, convex/agentRunCheckpoints.ts:156-228, convex/agentObjectiveLoopService.ts:72-135). */
module RowByRow {
  import opened Common
  import opened ToolGate
  import opened Transcript
  import opened RefusalKey
  import opened RunRecords
  import opened RunProtocol
  import opened Cancellation
  import Parking

  /** Request `a` has been answered, and the call it is about is `row` now; no other row has changed. */
  ghost predicate OneAnswered(was: Db, db: Db, a: nat, status: ApprovalStatus, row: ToolCallRow)
    requires a < |was.approvals|
  {
    var t := was.approvals[a].toolCall;
    && |db.approvals| == |was.approvals| && |db.toolCalls| == |was.toolCalls|
    && db.approvals[a] == ApprovalRow(t, status)
    && (forall i :: 0 <= i < |was.approvals| && i != a ==> db.approvals[i] == was.approvals[i])
    && (t < |was.toolCalls| ==> db.toolCalls[t] == row)
    && (forall i :: 0 <= i < |was.toolCalls| && i != t ==> db.toolCalls[i] == was.toolCalls[i])
  }

  /** The call a request is about, as far as it is there. */
  function CallAsked(db: Db, a: nat): ToolCallRow
    requires a < |db.approvals|
  {
    if db.approvals[a].toolCall < |db.toolCalls| then db.toolCalls[db.approvals[a].toolCall]
    else ToolCallRow("", Null, None, Cancelled, 0, None)
  }

  /** An approval lets its call run and nothing else: one resume is queued, and the run is RUNNING again
      exactly when nobody else is asked. */
  lemma ApprovalRowByRow(db: Db, a: nat)
    requires CanDecide(db, a)
    ensures var db' := DecideApproval(db, a, Approve);
            && OneAnswered(db, db', a, Approved, CallAsked(db, a).(status := Pending))
            && db'.resumes == db.resumes + [ResumeJob(a, false)]
            && db'.checkpoint == db.checkpoint && db'.continuations == db.continuations
            && db'.run == db.run.(status := if LeavesNonePending(db, a) then RunRunning else db.run.status)
  {
    PendingAfter(db, a, Approved);
  }

  /** A rejection answers its call DENIED, in the rejecter's words, remembers the request on the run, and
      queues one resume that runs nothing. */
  lemma RejectionRowByRow(db: Db, a: nat, reason: string)
    requires CanDecide(db, a) && db.approvals[a].toolCall < |db.toolCalls|
    ensures var db', was := DecideApproval(db, a, Reject(reason)), CallAsked(db, a);
            && OneAnswered(db, db', a, Rejected, was.(status := Denied, result := Some(ErrorPayload(RefusedByPerson(was.name, reason)))))
            && db'.resumes == db.resumes + [ResumeJob(a, true)]
            && db'.checkpoint == db.checkpoint && db'.continuations == db.continuations
            && db'.run == db.run.(status := if LeavesNonePending(db, a) then RunRunning else db.run.status, refused := db'.run.refused)
            && BuildRefusedToolCallKey(was.name, Readable(was.args)) in db'.run.refused
  {
    PendingAfter(db, a, Rejected);
    KeyIsKept(db.run.refused, BuildRefusedToolCallKey(CallAsked(db, a).name, Readable(CallAsked(db, a).args)));
  }

  lemma KeyIsKept(existing: seq<RefusedKey>, key: RefusedKey)
    ensures key in AppendRefusedToolCall(existing, key)
  {
    var r := AppendRefusedToolCall(existing, key);
    assert key !in existing ==> r[|r| - 1] == key;
  }

  /** A decision to cancel closes its own request and call, ends the run and drops its position; whatever
      else is asked or approved stays as it is. */
  lemma CancellingDecisionRowByRow(db: Db, a: nat)
    requires CanDecide(db, a)
    ensures var db' := DecideApproval(db, a, CancelDecision);
            && OneAnswered(db, db', a, ApprovalCancelled, CallAsked(db, a).(status := Cancelled))
            && db'.resumes == db.resumes && db'.continuations == db.continuations && db'.checkpoint == None
            && db'.run == db.run.(status := RunCancelled)
  {
  }

  /** An approved call's result: SUCCESS or FAILED with the payload, on its own row. */
  lemma ResultRowByRow(db: Db, a: nat, succeeded: bool, payload: Payload)
    requires a < |db.approvals|
    ensures var db' := RecordApprovedToolResult(db, a, succeeded, payload);
            && db' == db.(toolCalls := db'.toolCalls) && |db'.toolCalls| == |db.toolCalls|
            && forall i :: 0 <= i < |db.toolCalls| ==>
                 db'.toolCalls[i] == if i == db.approvals[a].toolCall
                                     then db.toolCalls[i].(status := if succeeded then Success else Failed, result := Some(payload))
                                     else db.toolCalls[i]
  {
  }

  // ---------------------------------------------------------------------------- expiry

  /** One of the first `limit` open requests is about call `t`. */
  ghost predicate AskedEarly(approvals: seq<ApprovalRow>, limit: nat, t: nat) {
    exists a :: 0 <= a < |approvals| && approvals[a].status == AwaitingDecision && approvals[a].toolCall == t
                && Undecided(approvals[..a]) < limit
  }

  lemma {:induction false} WaitingRow(approvals: seq<ApprovalRow>, rows: seq<ToolCallRow>, limit: nat, t: nat)
    requires t < |rows|
    ensures CancelWaiting(approvals, rows, limit)[t] == if AskedEarly(approvals, limit, t) then rows[t].(status := Cancelled) else rows[t]
    decreases |approvals|
  {
    if approvals != [] {
      var mine := approvals[0].status == AwaitingDecision && limit > 0;
      var left := if mine then limit - 1 else limit;
      var rows' := if mine then PatchCall(rows, approvals[0].toolCall, Cancelled, None) else rows;
      WaitingRow(approvals[1..], rows', left, t);
      FirstOrLater(approvals, limit, t);
    }
  }

  lemma FirstOrLater(approvals: seq<ApprovalRow>, limit: nat, t: nat)
    requires approvals != []
    ensures var mine := approvals[0].status == AwaitingDecision && limit > 0;
            AskedEarly(approvals, limit, t) <==>
              (mine && approvals[0].toolCall == t) || AskedEarly(approvals[1..], if mine then limit - 1 else limit, t)
  {
    var mine := approvals[0].status == AwaitingDecision && limit > 0;
    var left := if mine then limit - 1 else limit;
    forall a | 0 < a < |approvals|
      ensures approvals[1..][a - 1] == approvals[a]
      ensures Undecided(approvals[..a]) < limit && approvals[a].status == AwaitingDecision
              <==> Undecided(approvals[1..][..a - 1]) < left && approvals[a].status == AwaitingDecision
    {
      assert approvals[..a][1..] == approvals[1..][..a - 1];
    }
    if AskedEarly(approvals[1..], left, t) {
      var b :| 0 <= b < |approvals| - 1 && approvals[1..][b].status == AwaitingDecision && approvals[1..][b].toolCall == t
               && Undecided(approvals[1..][..b]) < left;
      assert approvals[b + 1] == approvals[1..][b];
    }
    if mine && approvals[0].toolCall == t {
      assert approvals[..0] == [];
    }
  }

  /**
   * What an expiry leaves: the first five hundred open requests EXPIRED and the calls they are about
   * CANCELLED, every other row as it was; the run CANCELLED and its position dropped.
   */
  lemma ExpiryRowByRow(db: Db)
    requires db.run.status == RunPendingApproval && StillPending(db.approvals)
    ensures var db' := ExpireApprovals(db);
            && db' == db.(run := db.run.(status := RunCancelled), checkpoint := None, approvals := db'.approvals, toolCalls := db'.toolCalls)
            && |db'.approvals| == |db.approvals| && |db'.toolCalls| == |db.toolCalls|
            && (forall i :: 0 <= i < |db.approvals| ==>
                  db'.approvals[i] == if db.approvals[i].status == AwaitingDecision && Undecided(db.approvals[..i]) < 500
                                      then db.approvals[i].(status := Expired) else db.approvals[i])
            && (forall t :: 0 <= t < |db.toolCalls| ==>
                  db'.toolCalls[t] == if AskedEarly(db.approvals, 500, t) then db.toolCalls[t].(status := Cancelled) else db.toolCalls[t])
  {
    hide CancelWaiting, CloseApprovals, AskedEarly;
    forall i | 0 <= i < |db.approvals|
      ensures CloseApprovals(db.approvals, Expired, 500)[i] ==
                if db.approvals[i].status == AwaitingDecision && Undecided(db.approvals[..i]) < 500
                then db.approvals[i].(status := Expired) else db.approvals[i]
    {
      ApprovalClosed(db.approvals, Expired, 500, i);
    }
    forall t | 0 <= t < |db.toolCalls|
      ensures CancelWaiting(db.approvals, db.toolCalls, 500)[t] ==
                if AskedEarly(db.approvals, 500, t) then db.toolCalls[t].(status := Cancelled) else db.toolCalls[t]
    {
      WaitingRow(db.approvals, db.toolCalls, 500, t);
    }
  }

  /** Only a run that is over refuses an operator's cancellation, and only one that waits for people expires. */
  lemma CancelledOrExpiredExactly(c: Config, s: Sys)
    ensures Enabled(c, s, Cancel) <==> s.db.run.status !in {RunSuccess, RunFailed, RunCancelled}
    ensures Enabled(c, s, Expire) <==>
              s.db.run.status == RunPendingApproval && exists i :: 0 <= i < |s.db.approvals| && s.db.approvals[i].status == AwaitingDecision
  {
    match s.db.run.status {
      case RunQueued =>
      case RunRunning =>
      case _ =>
    }
  }

  // ------------------------------------------------------------------------ settlement

  /** How many of these rows belong to the turn. */
  function InTurn(rows: seq<ToolCallRow>, turn: nat): nat {
    if rows == [] then 0 else InTurn(rows[..|rows| - 1], turn) + if rows[|rows| - 1].turnIndex == turn then 1 else 0
  }

  /** `batch` holds the turn's rows in their order: each stands where as many of the turn came before it. */
  ghost predicate HoldsTheTurn(batch: seq<ToolCallRow>, rows: seq<ToolCallRow>, turn: nat, limit: nat) {
    && |batch| == (if InTurn(rows, turn) <= limit then InTurn(rows, turn) else limit)
    && forall i :: 0 <= i < |rows| && rows[i].turnIndex == turn && InTurn(rows[..i], turn) < |batch| ==>
         batch[InTurn(rows[..i], turn)] == rows[i]
  }

  lemma {:induction false} RowsOfTurnHold(rows: seq<ToolCallRow>, turn: nat)
    ensures |RowsOfTurn(rows, turn)| == InTurn(rows, turn)
    ensures forall i :: 0 <= i < |rows| && rows[i].turnIndex == turn ==>
              InTurn(rows[..i], turn) < InTurn(rows, turn) && RowsOfTurn(rows, turn)[InTurn(rows[..i], turn)] == rows[i]
    decreases |rows|
  {
    if rows != [] {
      var front, last := rows[..|rows| - 1], rows[|rows| - 1];
      RowsOfTurnHold(front, turn);
      assert rows == front + [last];
      Parking.RowsOfTurnAdd(front, [last], turn);
      assert RowsOfTurn([last][1..], turn) == [];
      forall i | 0 <= i < |front|
        ensures rows[..i] == front[..i] && rows[i] == front[i]
      {
      }
    }
  }

  /** A settlement is ready exactly when nobody is asked, and then holds the first five hundred calls of the
      turn in request order. */
  lemma SettlementRowByRow(db: Db, a: nat)
    requires a < |db.approvals| && db.approvals[a].toolCall < |db.toolCalls|
    ensures var s, turn := GetSettlement(db, a), db.toolCalls[db.approvals[a].toolCall].turnIndex;
            && (s.settled <==> forall i :: 0 <= i < |db.approvals| ==> db.approvals[i].status != AwaitingDecision)
            && (if s.settled then HoldsTheTurn(s.batch, db.toolCalls, turn, 500) else s.batch == [])
  {
    RowsOfTurnHold(db.toolCalls, db.toolCalls[db.approvals[a].toolCall].turnIndex);
  }

  /** What the model is told of a row: arguments that are no object count as none given, and a result that
      is missing is said to be missing. */
  lemma RowIsTold(row: ToolCallRow)
    ensures var told := CallOfRow(row);
            && told.name == row.name && told.signature == row.signature
            && (row.args.Obj? ==> told.args == row.args) && (!row.args.Obj? ==> told.args == Obj([]))
            && (row.result.Some? ==> told.payload == row.result.value) && (row.result.None? ==> told.payload == ErrorPayload(NoRecordedResult))
  {
  }

  /** The conversation a settled batch would be answered in, if there is one that can hold the answer. */
  ghost predicate Answerable(db: Db, turns: seq<Turn>, cap: nat) {
    && db.checkpoint.Some? && db.checkpoint.value.status == AwaitingApproval && db.checkpoint.value.threaded
    && db.checkpoint.value.transcript != [] && Storable(Trim(db.checkpoint.value.transcript + turns, cap), cap)
  }

  /**
   * What acting on a settlement leaves: nothing while it is not settled; with a parked conversation that
   * can hold the answer, that conversation with the turns that tell the batch, taken up by one
   * continuation; otherwise a run that is over, SUCCESS or FAILED as its last call went.
   */
  lemma AnswerRowByRow(db: Db, settlement: Settlement, turns: seq<Turn>, succeeded: bool, now: int, cap: nat)
    requires Tell(turns, CallsOfRows(settlement.batch))
    ensures var db' := SettleBatchAndContinue(db, settlement, succeeded, now, cap);
            if !settlement.settled then db' == db
            else if Answerable(db, turns, cap) then
              var k := db.checkpoint.value;
              db' == db.(run := db.run.(status := RunRunning), continuations := db.continuations + [now],
                         checkpoint := Some(Checkpoint(Active, Trim(k.transcript + turns, cap), k.loopIndex, k.toolCallCount, k.segmentCount,
                                                       k.threaded, k.resumeAttempts, now)))
            else db' == db.(run := db.run.(status := if succeeded then RunSuccess else RunFailed))
  {
    hide Trim, Chars, BuildToolInteractionTurns;
    TurnsTellTheCalls(turns, CallsOfRows(settlement.batch));
  }

  // ----------------------------------------------------------------------------- sweep

  /**
   * What one sweep does to a run: nothing unless its position is ACTIVE and was last touched more than
   * twelve minutes ago; then the position of a run that is not RUNNING is dropped, one revived fewer than
   * three times is revived once more - one continuation, the claim stamped with the time - and any other
   * is failed.
   */
  lemma SweepRowByRow(db: Db, now: int)
    ensures var db' := RecoverStalledRun(db, now);
            if db.checkpoint == None || db.checkpoint.value.status == AwaitingApproval || now - db.checkpoint.value.updatedAt <= 720_000
            then db' == db
            else
              var k := db.checkpoint.value;
              if db.run.status != RunRunning then db' == db.(checkpoint := None)
              else if k.resumeAttempts < 3
              then db' == db.(continuations := db.continuations + [now],
                              checkpoint := Some(Checkpoint(Active, k.transcript, k.loopIndex, k.toolCallCount, k.segmentCount, k.threaded,
                                                            k.resumeAttempts + 1, now)))
              else db' == db.(run := db.run.(status := RunFailed), checkpoint := None)
  {
    hide BodyChars;
  }
}
