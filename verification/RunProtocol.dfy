/** One durable run as a step system: the rows, the live actions, the scheduler's queue, a
    clock, and every step the loop, the sweeper, an operator or an approver may take. An
    action reads and writes through separate mutations, so steps of different actions
    interleave freely; only time limits what may happen when. */
module RunProtocol {
  import opened Common
  import opened Transcript
  import opened ToolGate
  import opened RefusalKey
  import opened RunRecords

  /** `startSlack` and `handoverDelay` bound what nothing in the program bounds: how long a
      scheduled continuation waits, and how long an action takes between saving its
      position and scheduling its successor. */
  datatype Config = Config(
    maxSteps: nat, maxToolCalls: nat, maxRuntimeMs: int, cap: nat, threaded: bool,
    startSlack: nat, handoverDelay: nat)

  datatype Call = Call(name: string, args: Json, signature: Option<string>)

  /** What the world answers about one call; `ran` is the classified result if it executes. */
  datatype CallFacts = CallFacts(schema: Validation, metadata: Option<ToolMetadata>, access: AccessDecision, ran: Outcome)

  /** Where an action stands in the objective loop. */
  datatype Phase =
    | Loading
    | Top
    | Thinking
    | Batch(calls: seq<Call>, next: nat, cleared: bool, executed: seq<ExecutedCall>, deferred: nat)
    | HandingOver(savedAt: int)
    | Parking
    | Finishing(outcome: RunStatus)
    | Clearing

  datatype Exec = Exec(
    born: int, segmentStart: int, clockFrom: int, phase: Phase, loopIndex: nat, toolCallCount: nat,
    transcript: seq<Turn>, segmentCount: nat, turns: nat, refused: seq<RefusedKey>)

  /** A resume action: running the approved tool, or about to answer the settled batch. */
  datatype Job = Running(approval: nat) | Settling(approval: nat, settlement: Settlement, succeeded: bool)

  /** What has happened so far; no step reads it. `sinceCancel` counts the calls started, by the loop
      or by an approval, since the run last became CANCELLED, `handlersSince` the latter alone. */
  datatype History = History(
    charged: nat, awaitingSaves: nat, resumed: nat, handovers: nat, revivals: nat,
    executed: seq<Level>, approvedRuns: seq<nat>, sinceCancel: nat, orphaned: bool, forgotten: nat,
    handlersSince: nat)

  datatype Sys = Sys(now: int, db: Db, execs: seq<Exec>, jobs: seq<Job>, hist: History)

  datatype Event =
    | Tick(to: int)
    | EnterLoop(i: nat)
    | LoopTop(i: nat)
    | ModelTurn(i: nat, calls: seq<Call>, overBudget: bool)
    | CheckStop(i: nat)
    | RunCall(i: nat, facts: CallFacts)
    | EndBatch(i: nat)
    | ParkSave(i: nat)
    | ScheduleHandover(i: nat)
    | WriteFinal(i: nat)
    | ClearFinal(i: nat)
    | Throw(i: nat)
    | Kill(i: nat)
    | StartContinuation(k: nat)
    | Sweep
    | Cancel
    | Decide(a: nat, decision: Decision)
    | Expire
    | StartResume(k: nat)
    | FinishHandler(k: nat, succeeded: bool, payload: Payload)
    | Settle(k: nat)
    | KillResume(k: nat)

  // ------------------------------------------------------------------------- helpers

  function Remove<T>(s: seq<T>, i: nat): (r: seq<T>)
    requires i < |s|
    ensures |r| == |s| - 1
  {
    s[..i] + s[i + 1..]
  }

  function Put(s: Sys, i: nat, e: Exec): Sys
    requires i < |s.execs|
  {
    s.(execs := s.execs[i := e])
  }

  function Leave(s: Sys, i: nat, db: Db): Sys
    requires i < |s.execs|
  {
    s.(execs := Remove(s.execs, i), db := db)
  }

  /** The loop's own `saveCheckpoint`: nothing is written when the transcript cannot be stored. */
  function LoopSave(c: Config, db: Db, e: Exec, status: CheckpointStatus, nextLoopIndex: nat, now: int): (r: Db)
    ensures r == db.(checkpoint := r.checkpoint)
  {
    var kept := Trim(e.transcript, c.cap);
    if Storable(kept, c.cap) then
      SaveCheckpoint(db, Save(status, kept, nextLoopIndex, e.toolCallCount, e.segmentCount, c.threaded), now)
    else db
  }

  /** Notes a save whose trim kept nothing but an orphaned tool result. */
  function NoteTrim(hist: History, t: seq<Turn>, cap: nat): History {
    hist.(orphaned := hist.orphaned || LeftOrphan(t, cap))
  }

  /** A cancellation starts the counts; one on a run already cancelled leaves them running. */
  function CancelledNow(s: Sys): History {
    if s.db.run.status == RunCancelled then s.hist else s.hist.(sinceCancel := 0, handlersSince := 0)
  }

  /** A person or an expiry cancels the run and deletes its checkpoint. While an action or a queued
      continuation holds the run, the revivals recorded there are forgotten: the next save starts
      a fresh count. */
  function PositionDropped(s: Sys): History {
    CancelledNow(s).(forgotten := s.hist.forgotten +
      if s.db.checkpoint.Some? && (s.execs != [] || s.db.continuations != []) then s.db.checkpoint.value.resumeAttempts else 0)
  }

  function FailAndClear(db: Db): Db { ClearCheckpoint(UpdateRunStatus(db, RunFailed)) }

  // ------------------------------------------------------------------------ the loop

  function TopStep(c: Config, s: Sys, i: nat): Sys
    requires i < |s.execs|
  {
    var e := s.execs[i];
    if e.loopIndex >= c.maxSteps then Put(s, i, e.(phase := Finishing(RunFailed)))
    else if IsRunStopRequested(s.db.run.status) then Leave(s, i, ClearCheckpoint(s.db))
    else if e.turns > 0 && s.now - e.segmentStart >= AGENT_RUN_SEGMENT_BUDGET_MS && Storable(Trim(e.transcript, c.cap), c.cap) then
      Put(s.(db := LoopSave(c, s.db, e, Active, e.loopIndex, s.now), hist := NoteTrim(s.hist, e.transcript, c.cap)), i, e.(phase := HandingOver(s.now)))
    else Put(s, i, e.(phase := Thinking, turns := e.turns + 1))
  }

  function ModelTurnStep(c: Config, s: Sys, i: nat, calls: seq<Call>, overBudget: bool): Sys
    requires i < |s.execs|
  {
    var e := s.execs[i];
    Put(s, i, e.(phase :=
      if s.now - e.clockFrom >= c.maxRuntimeMs || overBudget then Finishing(RunFailed)
      else if calls == [] then Finishing(RunSuccess)
      else if e.toolCallCount >= c.maxToolCalls then Finishing(RunFailed)
      else Batch(calls, 0, false, [], 0)))
  }

  function CheckStopStep(s: Sys, i: nat): Sys
    requires i < |s.execs| && s.execs[i].phase.Batch?
  {
    var e := s.execs[i];
    if IsRunStopRequested(s.db.run.status) then Leave(s, i, ClearCheckpoint(s.db))
    else Put(s, i, e.(phase := e.phase.(cleared := true)))
  }

  predicate WasRefused(e: Exec, call: Call) {
    BuildRefusedToolCallKey(call.name, Readable(call.args)) in e.refused
  }

  function FateOf(s: Sys, e: Exec, call: Call, facts: CallFacts): Fate {
    CallFate(call.name, WasRefused(e, call), facts.schema, s.db.run.isRehearsal, facts.metadata, facts.access)
  }

  /** The row of a call that did not have to wait. */
  function SettledRow(call: Call, outcome: Outcome, turn: nat): ToolCallRow {
    ToolCallRow(call.name, call.args, Some(outcome.payload), outcome.status, turn, call.signature)
  }

  function GatedRow(call: Call, turn: nat): ToolCallRow {
    ToolCallRow(call.name, call.args, None, ApprovalRequired, turn, call.signature)
  }

  function RunCallStep(s: Sys, i: nat, facts: CallFacts): Sys
    requires i < |s.execs| && s.execs[i].phase.Batch? && s.execs[i].phase.next < |s.execs[i].phase.calls|
  {
    var e := s.execs[i];
    var b := e.phase;
    var call := b.calls[b.next];
    var fate := FateOf(s, e, call, facts);
    var outcome := if fate.Answer? then fate.outcome else facts.ran;
    var e' := e.(toolCallCount := e.toolCallCount + 1,
                 phase := if fate.Queue? then b.(next := b.next + 1, cleared := false, deferred := b.deferred + 1)
                          else b.(next := b.next + 1, cleared := false,
                                  executed := b.executed + [ExecutedCall(call.name, call.args, outcome.payload, call.signature)]));
    var hist := s.hist.(
      charged := s.hist.charged + 1,
      sinceCancel := s.hist.sinceCancel + 1,
      executed := s.hist.executed + if fate.Execute? && facts.metadata.Some? then [facts.metadata.value.level] else []);
    Put(s.(hist := hist,
           db := if fate.Queue? then InsertGatedCall(s.db, GatedRow(call, e.loopIndex))
                 else InsertToolCall(s.db, SettledRow(call, outcome, e.loopIndex))), i, e')
  }

  function EndBatchStep(c: Config, s: Sys, i: nat): Sys
    requires i < |s.execs| && s.execs[i].phase.Batch?
  {
    var e := s.execs[i];
    var b := e.phase;
    if b.deferred > 0 then
      Put(s.(db := UpdateRunStatus(s.db, RunPendingApproval)), i, e.(phase := Parking))
    else
      var e' := e.(transcript := e.transcript + BuildToolInteractionTurns(b.executed));
      if b.next < |b.calls| then Put(s, i, e'.(phase := Finishing(RunFailed)))
      else Put(s.(db := LoopSave(c, s.db, e', Active, e.loopIndex + 1, s.now), hist := NoteTrim(s.hist, e'.transcript, c.cap)), i,
               e'.(phase := Top, loopIndex := e.loopIndex + 1))
  }

  function ParkSaveStep(c: Config, s: Sys, i: nat): Sys
    requires i < |s.execs|
  {
    var e := s.execs[i];
    var hist := NoteTrim(s.hist, e.transcript, c.cap);
    Leave(s.(hist := if Storable(Trim(e.transcript, c.cap), c.cap)
                     then hist.(awaitingSaves := s.hist.awaitingSaves + 1) else hist),
          i, LoopSave(c, s.db, e, AwaitingApproval, e.loopIndex + 1, s.now))
  }

  // ------------------------------------------------------------------- other actions

  function StartContinuationStep(s: Sys, k: nat): Sys
    requires k < |s.db.continuations|
  {
    var db := s.db.(continuations := Remove(s.db.continuations, k));
    if db.checkpoint.None? || db.checkpoint.value.status != Active then s.(db := db)
    else if IsRunStopRequested(db.run.status) then s.(db := ClearCheckpoint(db))
    else
      var k := db.checkpoint.value;
      if k.segmentCount >= AGENT_RUN_MAX_SEGMENTS || k.transcript == [] then s.(db := FailAndClear(db))
      else s.(db := db, execs := s.execs + [Exec(s.now, s.now, db.run.startedAt, Loading, k.loopIndex, k.toolCallCount,
                                                 k.transcript, k.segmentCount + 1, 0, [])])
  }

  function StartResumeStep(s: Sys, k: nat): Sys
    requires k < |s.db.resumes|
  {
    var job := s.db.resumes[k];
    var db := s.db.(resumes := Remove(s.db.resumes, k));
    if job.approval >= |db.approvals| then s.(db := db)
    else
      var approval := db.approvals[job.approval];
      if job.refused then
        var settlement := GetSettlement(db, job.approval);
        if approval.status != Rejected || !settlement.settled then s.(db := db)
        else s.(db := db, jobs := s.jobs + [Settling(job.approval, settlement, false)])
      else if approval.status != Approved || approval.toolCall >= |db.toolCalls|
              || db.toolCalls[approval.toolCall].status != Pending then s.(db := db)
      else s.(db := db, jobs := s.jobs + [Running(job.approval)],
              hist := s.hist.(approvedRuns := s.hist.approvedRuns + [job.approval],
                              sinceCancel := s.hist.sinceCancel + 1, handlersSince := s.hist.handlersSince + 1))
  }

  function FinishHandlerStep(s: Sys, k: nat, succeeded: bool, payload: Payload): Sys
    requires k < |s.jobs| && s.jobs[k].Running? && s.jobs[k].approval < |s.db.approvals|
  {
    var a := s.jobs[k].approval;
    var db := RecordApprovedToolResult(s.db, a, succeeded, payload);
    var settlement := GetSettlement(db, a);
    s.(db := db, jobs := if settlement.settled then s.jobs[k := Settling(a, settlement, succeeded)]
                         else Remove(s.jobs, k))
  }

  function SettleStep(c: Config, s: Sys, k: nat): Sys
    requires k < |s.jobs| && s.jobs[k].Settling?
  {
    var job := s.jobs[k];
    var resumed := job.settlement.settled && SettledTranscript(s.db, job.settlement.batch, c.cap).Some?;
    s.(jobs := Remove(s.jobs, k),
       db := SettleBatchAndContinue(s.db, job.settlement, job.succeeded, s.now, c.cap),
       hist := if resumed then
                 NoteTrim(s.hist.(resumed := s.hist.resumed + 1),
                          s.db.checkpoint.value.transcript + BuildToolInteractionTurns(CallsOfRows(job.settlement.batch)), c.cap)
               else s.hist)
  }

  // ------------------------------------------------------------------------ the step

  /** Time may pass only while no action has outlived its window and no queued one its slack. */
  predicate MayTick(c: Config, s: Sys, to: int) {
    && to >= s.now
    && (forall i :: 0 <= i < |s.execs| ==>
          && to <= s.execs[i].born + AGENT_RUN_MAX_ACTION_LIFETIME_MS
          && (s.execs[i].phase.HandingOver? ==> to <= s.execs[i].phase.savedAt + c.handoverDelay))
    && (forall k :: 0 <= k < |s.db.continuations| ==> to <= s.db.continuations[k] + c.startSlack)
  }

  /** A call whose arguments are no object throws, so it never gets as far as a decision. */
  predicate Enabled(c: Config, s: Sys, e: Event) {
    match e
    case Tick(to) => MayTick(c, s, to)
    case EnterLoop(i) => i < |s.execs| && s.execs[i].phase.Loading?
    case LoopTop(i) => i < |s.execs| && s.execs[i].phase.Top?
    case ModelTurn(i, _, _) => i < |s.execs| && s.execs[i].phase.Thinking?
    case CheckStop(i) =>
      && i < |s.execs| && s.execs[i].phase.Batch? && !s.execs[i].phase.cleared
      && s.execs[i].phase.next < |s.execs[i].phase.calls| && s.execs[i].toolCallCount < c.maxToolCalls
    case RunCall(i, facts) =>
      && facts.ran.status in {Success, NotImplemented, Failed}
      && i < |s.execs| && s.execs[i].phase.Batch? && s.execs[i].phase.cleared
      && s.execs[i].phase.next < |s.execs[i].phase.calls|
      && s.execs[i].phase.calls[s.execs[i].phase.next].args.Obj?
    case EndBatch(i) =>
      && i < |s.execs| && s.execs[i].phase.Batch? && !s.execs[i].phase.cleared
      && (s.execs[i].phase.next >= |s.execs[i].phase.calls| || s.execs[i].toolCallCount >= c.maxToolCalls)
    case ParkSave(i) => i < |s.execs| && s.execs[i].phase.Parking?
    case ScheduleHandover(i) => i < |s.execs| && s.execs[i].phase.HandingOver?
    case WriteFinal(i) => i < |s.execs| && s.execs[i].phase.Finishing?
    case ClearFinal(i) => i < |s.execs| && s.execs[i].phase.Clearing?
    case Throw(i) => i < |s.execs|
    case Kill(i) => i < |s.execs|
    case StartContinuation(k) => k < |s.db.continuations|
    case Sweep => true
    case Cancel => IsCancelable(s.db.run.status)
    case Decide(a, _) => CanDecide(s.db, a)
    case Expire => CanExpire(s.db)
    case StartResume(k) => k < |s.db.resumes|
    case FinishHandler(k, _, _) => k < |s.jobs| && s.jobs[k].Running? && s.jobs[k].approval < |s.db.approvals|
    case Settle(k) => k < |s.jobs| && s.jobs[k].Settling?
    case KillResume(k) => k < |s.jobs|
  }

  /** Is this a step of a live action? */
  predicate OfAction(e: Event) {
    e.EnterLoop? || e.LoopTop? || e.ModelTurn? || e.CheckStop? || e.RunCall? || e.EndBatch? || e.ParkSave?
    || e.ScheduleHandover? || e.WriteFinal? || e.ClearFinal? || e.Throw? || e.Kill?
  }

  function Apply(c: Config, s: Sys, e: Event): Sys
    requires Enabled(c, s, e)
  {
    match e
    case Tick(to) => s.(now := to)
    case EnterLoop(i) =>
      var x := s.execs[i];
      Put(s, i, x.(phase := Top, segmentStart := s.now, refused := s.db.run.refused,
                   clockFrom := if x.segmentCount == 1 then s.now else x.clockFrom))
    case LoopTop(i) => TopStep(c, s, i)
    case ModelTurn(i, calls, overBudget) => ModelTurnStep(c, s, i, calls, overBudget)
    case CheckStop(i) => CheckStopStep(s, i)
    case RunCall(i, facts) => RunCallStep(s, i, facts)
    case EndBatch(i) => EndBatchStep(c, s, i)
    case ParkSave(i) => ParkSaveStep(c, s, i)
    case ScheduleHandover(i) =>
      Leave(s.(hist := s.hist.(handovers := s.hist.handovers + 1)), i,
            s.db.(continuations := s.db.continuations + [s.now]))
    case WriteFinal(i) =>
      Put(s.(db := UpdateRunStatus(s.db, s.execs[i].phase.outcome)), i, s.execs[i].(phase := Clearing))
    case ClearFinal(i) => Leave(s, i, ClearCheckpoint(s.db))
    case Throw(i) => Leave(s, i, FailAndClear(s.db))
    case Kill(i) => Leave(s, i, s.db)
    case StartContinuation(k) => StartContinuationStep(s, k)
    case Sweep =>
      var db := RecoverStalledRun(s.db, s.now);
      s.(db := db, hist := if |db.continuations| > |s.db.continuations|
                           then s.hist.(revivals := s.hist.revivals + 1) else s.hist)
    case Cancel => s.(db := CancelRun(s.db), hist := CancelledNow(s))
    case Decide(a, decision) =>
      s.(db := DecideApproval(s.db, a, decision),
         hist := if decision.CancelDecision? then PositionDropped(s) else s.hist)
    case Expire => s.(db := ExpireApprovals(s.db), hist := PositionDropped(s))
    case StartResume(k) => StartResumeStep(s, k)
    case FinishHandler(k, succeeded, payload) => FinishHandlerStep(s, k, succeeded, payload)
    case Settle(k) => SettleStep(c, s, k)
    case KillResume(k) => s.(jobs := Remove(s.jobs, k))
  }

  // ---------------------------------------------------------------------------- runs

  /** A freshly started action on a fresh run, about to enter the loop. */
  function Start(startedAt: int, born: int, isRehearsal: bool, conversation: seq<Turn>): Sys {
    Sys(born,
        Db(RunRow(RunRunning, startedAt, isRehearsal, []), None, [], [], [], []),
        [Exec(born, born, born, Loading, 0, 0, conversation, 1, 0, [])],
        [],
        History(0, 0, 0, 0, 0, [], [], 0, false, 0, 0))
  }

  ghost predicate Initial(s: Sys) {
    exists startedAt, isRehearsal, conversation ::
      && startedAt <= s.now && Paired(conversation) && HeadClean(conversation)
      && s == Start(startedAt, s.now, isRehearsal, conversation)
  }

  ghost predicate Valid(c: Config, s: Sys, run: seq<Event>)
    decreases |run|
  {
    run == [] || (Enabled(c, s, run[0]) && Valid(c, Apply(c, s, run[0]), run[1..]))
  }

  ghost function Replay(c: Config, s: Sys, run: seq<Event>): Sys
    requires Valid(c, s, run)
    decreases |run|
  {
    if run == [] then s else Replay(c, Apply(c, s, run[0]), run[1..])
  }

  lemma {:induction false} Extend(c: Config, s: Sys, run: seq<Event>, e: Event)
    requires Valid(c, s, run) && Enabled(c, Replay(c, s, run), e)
    ensures Valid(c, s, run + [e])
    ensures Replay(c, s, run + [e]) == Apply(c, Replay(c, s, run), e)
    decreases |run|
  {
    if run == [] {
      assert Valid(c, Apply(c, s, e), []);
      assert [e][1..] == [];
    } else {
      assert (run + [e])[1..] == run[1..] + [e];
      Extend(c, Apply(c, s, run[0]), run[1..], e);
    }
  }

  /** `s` is where some valid run from some fresh start ends. */
  ghost predicate Reachable(c: Config, s: Sys) {
    exists start, run :: Initial(start) && Valid(c, start, run) && Replay(c, start, run) == s
  }

  lemma StartIsReachable(c: Config, s: Sys)
    requires Initial(s)
    ensures Reachable(c, s)
  {
    assert Valid(c, s, []) && Replay(c, s, []) == s;
  }

  lemma StepIsReachable(c: Config, s: Sys, e: Event) returns (s': Sys)
    requires Reachable(c, s) && Enabled(c, s, e)
    ensures s' == Apply(c, s, e) && Reachable(c, s')
  {
    var start, run :| Initial(start) && Valid(c, start, run) && Replay(c, start, run) == s;
    Extend(c, start, run, e);
    s' := Apply(c, s, e);
  }

  /** A run from a reachable state ends in one. */
  lemma {:induction false} RunIsReachable(c: Config, s: Sys, run: seq<Event>)
    requires Reachable(c, s) && Valid(c, s, run)
    ensures Reachable(c, Replay(c, s, run))
    decreases |run|
  {
    hide Reachable, Enabled, Apply;
    if run != [] {
      var next := StepIsReachable(c, s, run[0]);
      RunIsReachable(c, next, run[1..]);
    }
  }

  // -------------------------------------------------------------------- patient runs

  /** No decision or expiry deletes the checkpoint while something holds the run. */
  predicate Unhurried(s: Sys, e: Event) {
    (e.Decide? && e.decision.CancelDecision?) || e.Expire? ==> s.execs == [] && s.db.continuations == []
  }

  ghost predicate UnhurriedRun(c: Config, s: Sys, run: seq<Event>)
    requires Valid(c, s, run)
    decreases |run|
  {
    run == [] || (Unhurried(s, run[0]) && UnhurriedRun(c, Apply(c, s, run[0]), run[1..]))
  }
}
