/** The rows one agent run owns and what each mutation does to them, as functions of the
    whole record. `RunStore` performs the same mutations field by field, row by row
    (convex/agentRuns.ts, convex/agentRunCheckpoints.ts, convex/agentRunApprovals.ts). */
module RunRecords {
  import opened Common
  import opened Transcript
  import opened ToolGate
  import opened RefusalKey

  const AGENT_RUN_SEGMENT_BUDGET_MS := 180_000
  const AGENT_RUN_MAX_ACTION_LIFETIME_MS := 600_000
  const AGENT_RUN_STALL_MS := AGENT_RUN_MAX_ACTION_LIFETIME_MS + 120_000
  const AGENT_RUN_MAX_RESUME_ATTEMPTS := 3
  const AGENT_RUN_MAX_SEGMENTS := 30
  const AGENT_RUN_DETAIL_LIMIT := 500

  datatype RunStatus = RunQueued | RunRunning | RunPendingApproval | RunSuccess | RunFailed | RunCancelled

  datatype RunRow = RunRow(status: RunStatus, startedAt: int, isRehearsal: bool, refused: seq<RefusedKey>)

  datatype ToolCallRow = ToolCallRow(
    name: string, args: Json, result: Option<Payload>, status: CallStatus, turnIndex: nat, signature: Option<string>)

  datatype ApprovalStatus = AwaitingDecision | Approved | Rejected | ApprovalCancelled | Expired

  /** `toolCall` is the position of the call in the run's tool call rows. */
  datatype ApprovalRow = ApprovalRow(toolCall: nat, status: ApprovalStatus)

  datatype CheckpointStatus = Active | AwaitingApproval

  datatype Checkpoint = Checkpoint(
    status: CheckpointStatus, transcript: seq<Turn>, loopIndex: nat, toolCallCount: nat,
    segmentCount: nat, threaded: bool, resumeAttempts: nat, updatedAt: int)

  /** A scheduled `resumeApprovedToolCall` (or, for a refusal, `resumeAfterRefusedToolCall`). */
  datatype ResumeJob = ResumeJob(approval: nat, refused: bool)

  datatype Db = Db(
    run: RunRow,
    checkpoint: Option<Checkpoint>,
    toolCalls: seq<ToolCallRow>,
    approvals: seq<ApprovalRow>,
    continuations: seq<int>,
    resumes: seq<ResumeJob>)

  datatype Decision = Approve | Reject(reason: string) | CancelDecision

  datatype Settlement = Settlement(settled: bool, batch: seq<ToolCallRow>)

  /** The arguments of one `saveCheckpointInternal` call. */
  datatype Save = Save(status: CheckpointStatus, transcript: seq<Turn>, loopIndex: nat, toolCallCount: nat,
                       segmentCount: nat, threaded: bool)

  predicate IsTerminal(status: RunStatus) { status in {RunSuccess, RunFailed, RunCancelled} }

  predicate IsRunStopRequested(status: RunStatus) { IsTerminal(status) }

  // ---------------------------------------------------------------------- checkpoint

  function SaveCheckpoint(db: Db, save: Save, now: int): Db {
    var attempts := if db.checkpoint.Some? then db.checkpoint.value.resumeAttempts else 0;
    db.(checkpoint := Some(Checkpoint(save.status, save.transcript, save.loopIndex, save.toolCallCount,
                                      save.segmentCount, save.threaded, attempts, now)))
  }

  function ClearCheckpoint(db: Db): Db { db.(checkpoint := None) }

  datatype StalledRunDecision = Wait | Resume | Fail

  function DecideStalledRunAction(updatedAt: int, now: int, resumeAttempts: nat, hasTranscript: bool): StalledRunDecision {
    if now - updatedAt < AGENT_RUN_STALL_MS then Wait
    else if !hasTranscript then Fail
    else if resumeAttempts >= AGENT_RUN_MAX_RESUME_ATTEMPTS then Fail
    else Resume
  }

  /** Only an ACTIVE checkpoint strictly older than the cutoff is a candidate. */
  predicate IsStalled(db: Db, now: int) {
    db.checkpoint.Some? && db.checkpoint.value.status == Active
    && db.checkpoint.value.updatedAt < now - AGENT_RUN_STALL_MS
  }

  function RecoverStalledRun(db: Db, now: int): Db {
    if !IsStalled(db, now) then db
    else if db.run.status != RunRunning then db.(checkpoint := None)
    else
      var checkpoint := db.checkpoint.value;
      match DecideStalledRunAction(checkpoint.updatedAt, now, checkpoint.resumeAttempts, Chars(checkpoint.transcript) > 0)
      case Wait => db
      case Resume =>
        db.(checkpoint := Some(checkpoint.(resumeAttempts := checkpoint.resumeAttempts + 1, updatedAt := now)),
            continuations := db.continuations + [now])
      case Fail => db.(run := db.run.(status := RunFailed), checkpoint := None)
  }

  // ------------------------------------------------------------------------- status

  function UpdateRunStatus(db: Db, status: RunStatus): Db {
    if db.run.status == RunCancelled && status != RunCancelled then db else SetStatus(db, status)
  }

  function SetStatus(db: Db, status: RunStatus): Db { db.(run := db.run.(status := status)) }

  predicate IsCancelable(status: RunStatus) { status in {RunQueued, RunRunning, RunPendingApproval} }

  /** The first `limit` undecided approvals take `status`. */
  function CloseApprovals(approvals: seq<ApprovalRow>, status: ApprovalStatus, limit: nat): (r: seq<ApprovalRow>)
    ensures |r| == |approvals|
    ensures forall i {:trigger r[i]} :: 0 <= i < |r| ==>
              && r[i].toolCall == approvals[i].toolCall
              && (approvals[i].status != AwaitingDecision ==> r[i] == approvals[i])
              && (approvals[i].status == AwaitingDecision ==> r[i].status in {AwaitingDecision, status})
  {
    if approvals == [] then []
    else if approvals[0].status == AwaitingDecision && limit > 0 then
      [approvals[0].(status := status)] + CloseApprovals(approvals[1..], status, limit - 1)
    else [approvals[0]] + CloseApprovals(approvals[1..], status, limit)
  }

  /** The first `limit` calls that are waiting or approved but not yet run are cancelled. */
  function CancelCalls(rows: seq<ToolCallRow>, limit: nat): (r: seq<ToolCallRow>)
    ensures |r| == |rows|
  {
    if rows == [] then []
    else if rows[0].status in {Pending, ApprovalRequired} && limit > 0 then
      [rows[0].(status := Cancelled)] + CancelCalls(rows[1..], limit - 1)
    else [rows[0]] + CancelCalls(rows[1..], limit)
  }

  function CancelRun(db: Db): (r: Db)
    ensures r.checkpoint == db.checkpoint && r.continuations == db.continuations && r.resumes == db.resumes
    ensures |r.toolCalls| == |db.toolCalls| && |r.approvals| == |db.approvals|
    ensures r.run == db.run.(status := r.run.status)
  {
    if !IsCancelable(db.run.status) then db
    else db.(run := db.run.(status := RunCancelled),
             approvals := CloseApprovals(db.approvals, ApprovalCancelled, AGENT_RUN_DETAIL_LIMIT),
             toolCalls := CancelCalls(db.toolCalls, AGENT_RUN_DETAIL_LIMIT))
  }

  // ----------------------------------------------------------------------- tool calls

  function InsertToolCall(db: Db, row: ToolCallRow): Db { db.(toolCalls := db.toolCalls + [row]) }

  /** A gated call is written with its approval request. */
  function InsertGatedCall(db: Db, row: ToolCallRow): Db {
    InsertToolCall(db, row).(approvals := db.approvals + [ApprovalRow(|db.toolCalls|, AwaitingDecision)])
  }

  function PatchCall(rows: seq<ToolCallRow>, i: nat, status: CallStatus, result: Option<Payload>): (r: seq<ToolCallRow>)
    ensures |r| == |rows|
  {
    if i < |rows| then
      rows[i := rows[i].(status := status, result := if result.Some? then result else rows[i].result)]
    else rows
  }

  // ------------------------------------------------------------------------ approvals

  predicate StillPending(approvals: seq<ApprovalRow>) {
    exists i :: 0 <= i < |approvals| && approvals[i].status == AwaitingDecision
  }

  predicate CanDecide(db: Db, a: nat) {
    a < |db.approvals| && db.approvals[a].status == AwaitingDecision
  }

  function RunIfNothingPending(db: Db): Db {
    if StillPending(db.approvals) then db else SetStatus(db, RunRunning)
  }

  function ApproveCall(db: Db, a: nat): Db
    requires CanDecide(db, a)
  {
    var t := db.approvals[a].toolCall;
    RunIfNothingPending(db.(
      approvals := db.approvals[a := ApprovalRow(t, Approved)],
      toolCalls := PatchCall(db.toolCalls, t, Pending, None),
      resumes := db.resumes + [ResumeJob(a, false)]))
  }

  /** The key is added to the list the loop answers from, so the same call is not queued again. */
  function RememberRefusal(run: RunRow, rows: seq<ToolCallRow>, t: nat): (r: RunRow)
    ensures r == run.(refused := r.refused)
  {
    if t < |rows| then
      run.(refused := AppendRefusedToolCall(run.refused, BuildRefusedToolCallKey(rows[t].name, Readable(rows[t].args))))
    else run
  }

  function RefusalPayload(rows: seq<ToolCallRow>, t: nat, reason: string): Payload {
    ErrorPayload(RefusedByPerson(if t < |rows| then rows[t].name else "this tool", reason))
  }

  function RejectCall(db: Db, a: nat, reason: string): Db
    requires CanDecide(db, a)
  {
    var t := db.approvals[a].toolCall;
    RunIfNothingPending(db.(
      run := RememberRefusal(db.run, db.toolCalls, t),
      approvals := db.approvals[a := ApprovalRow(t, Rejected)],
      toolCalls := PatchCall(db.toolCalls, t, Denied, Some(RefusalPayload(db.toolCalls, t, reason))),
      resumes := db.resumes + [ResumeJob(a, true)]))
  }

  function CancelByDecision(db: Db, a: nat): Db
    requires CanDecide(db, a)
  {
    var t := db.approvals[a].toolCall;
    db.(run := db.run.(status := RunCancelled),
        checkpoint := None,
        approvals := db.approvals[a := ApprovalRow(t, ApprovalCancelled)],
        toolCalls := PatchCall(db.toolCalls, t, Cancelled, None))
  }

  function DecideApproval(db: Db, a: nat, decision: Decision): (r: Db)
    requires CanDecide(db, a)
    ensures r.checkpoint == (if decision.CancelDecision? then None else db.checkpoint)
    ensures r.continuations == db.continuations
    ensures |r.toolCalls| == |db.toolCalls| && |r.approvals| == |db.approvals|
    ensures r.run == db.run.(status := r.run.status, refused := r.run.refused)
  {
    match decision
    case Approve => ApproveCall(db, a)
    case Reject(reason) => RejectCall(db, a, reason)
    case CancelDecision => CancelByDecision(db, a)
  }

  function RowsOfTurn(rows: seq<ToolCallRow>, turn: nat): seq<ToolCallRow> {
    if rows == [] then []
    else (if rows[0].turnIndex == turn then [rows[0]] else []) + RowsOfTurn(rows[1..], turn)
  }

  function TakeRows(rows: seq<ToolCallRow>, limit: nat): seq<ToolCallRow> {
    if |rows| <= limit then rows else rows[..limit]
  }

  /** The settle-or-wait answer: it asks about undecided approvals, not about missing results. */
  function GetSettlement(db: Db, a: nat): Settlement {
    if StillPending(db.approvals) then Settlement(false, [])
    else if a < |db.approvals| && db.approvals[a].toolCall < |db.toolCalls| then
      Settlement(true, TakeRows(RowsOfTurn(db.toolCalls, db.toolCalls[db.approvals[a].toolCall].turnIndex),
                                AGENT_RUN_DETAIL_LIMIT))
    else Settlement(true, [])
  }

  function RecordApprovedToolResult(db: Db, a: nat, succeeded: bool, payload: Payload): Db
    requires a < |db.approvals|
  {
    db.(toolCalls := PatchCall(db.toolCalls, db.approvals[a].toolCall,
                               if succeeded then Success else Failed, Some(payload)))
  }

  predicate CanContinue(db: Db) {
    db.checkpoint.Some? && db.checkpoint.value.status == AwaitingApproval
  }

  function ContinueRunAfterApproval(db: Db, transcript: seq<Turn>, now: int): Db {
    if !CanContinue(db) then db
    else db.(run := db.run.(status := RunRunning),
             checkpoint := Some(db.checkpoint.value.(status := Active, transcript := transcript, updatedAt := now)),
             continuations := db.continuations + [now])
  }

  function CompleteApprovalResume(db: Db, status: RunStatus): Db { SetStatus(db, status) }

  function ParseToolArguments(args: Json): Json { if args.Obj? then args else Obj([]) }

  function ParseToolResult(result: Option<Payload>): Payload {
    if result.Some? then result.value else ErrorPayload(NoRecordedResult)
  }

  function CallOfRow(row: ToolCallRow): ExecutedCall {
    ExecutedCall(row.name, ParseToolArguments(row.args), ParseToolResult(row.result), row.signature)
  }

  function CallsOfRows(rows: seq<ToolCallRow>): seq<ExecutedCall> {
    seq(|rows|, i requires 0 <= i < |rows| => CallOfRow(rows[i]))
  }

  /** What `settleBatchAndContinue` would write into the conversation, when it may. */
  function SettledTranscript(db: Db, batch: seq<ToolCallRow>, cap: nat): Option<seq<Turn>> {
    if CanContinue(db) && db.checkpoint.value.threaded && db.checkpoint.value.transcript != [] then
      var t := Trim(db.checkpoint.value.transcript + BuildToolInteractionTurns(CallsOfRows(batch)), cap);
      if Storable(t, cap) then Some(t) else None
    else None
  }

  function SettleBatchAndContinue(db: Db, settlement: Settlement, succeeded: bool, now: int, cap: nat): Db {
    if !settlement.settled then db
    else
      var t := SettledTranscript(db, settlement.batch, cap);
      if t.Some? then ContinueRunAfterApproval(db, t.value, now)
      else CompleteApprovalResume(db, if succeeded then RunSuccess else RunFailed)
  }

  // --------------------------------------------------------------------------- expiry

  predicate CanExpire(db: Db) {
    db.run.status == RunPendingApproval && StillPending(db.approvals)
  }

  /** The calls behind the first `limit` undecided approvals are cancelled. */
  function CancelWaiting(approvals: seq<ApprovalRow>, rows: seq<ToolCallRow>, limit: nat): (r: seq<ToolCallRow>)
    ensures |r| == |rows|
    decreases |approvals|
  {
    if approvals == [] then rows
    else if approvals[0].status == AwaitingDecision && limit > 0 then
      CancelWaiting(approvals[1..], PatchCall(rows, approvals[0].toolCall, Cancelled, None), limit - 1)
    else CancelWaiting(approvals[1..], rows, limit)
  }

  function ExpireApprovals(db: Db): (r: Db)
    ensures r.checkpoint == (if CanExpire(db) then None else db.checkpoint)
    ensures r.continuations == db.continuations && r.resumes == db.resumes
    ensures |r.toolCalls| == |db.toolCalls| && |r.approvals| == |db.approvals|
    ensures r.run == db.run.(status := r.run.status)
  {
    if !CanExpire(db) then db
    else db.(run := db.run.(status := RunCancelled),
             checkpoint := None,
             approvals := CloseApprovals(db.approvals, Expired, AGENT_RUN_DETAIL_LIMIT),
             toolCalls := CancelWaiting(db.approvals, db.toolCalls, AGENT_RUN_DETAIL_LIMIT))
  }
}
