/** What each step of an action comes to, case by case and to the last field, and what no step does once
    the run is over (convex/agentObjectiveLoop.ts:240-311 and 500-960, convex/agentRuntime.ts:399-475 and
    985-1104). */
module StepByStep {
  import opened Common
  import opened ToolGate
  import opened Transcript
  import opened RefusalKey
  import opened RunRecords
  import opened RunProtocol
  import LeaseExclusion
  import CallsAfterCancel

  /** The run has ended, one way or another. */
  predicate Over(s: Sys) { s.db.run.status in {RunSuccess, RunFailed, RunCancelled} }

  /** The action is gone; the others and every row but the position are as they were. */
  ghost predicate GoneWith(s: Sys, s': Sys, i: nat, checkpoint: Option<Checkpoint>)
    requires i < |s.execs|
  {
    && s'.execs == s.execs[..i] + s.execs[i + 1..] && s'.db == s.db.(checkpoint := checkpoint)
    && s'.now == s.now && s'.jobs == s.jobs
  }

  /** The action goes on at `phase`, otherwise as it was, and so does all else. */
  ghost predicate GoesTo(s: Sys, s': Sys, i: nat, phase: Phase)
    requires i < |s.execs|
  {
    s' == s.(execs := s.execs[i := s.execs[i].(phase := phase)], hist := s'.hist)
  }

  /** The position as the action has it, kept to what can be stored, with the revivals already spent. */
  function Position(c: Config, s: Sys, e: Exec, status: CheckpointStatus, transcript: seq<Turn>, next: nat): Checkpoint {
    Checkpoint(status, Trim(transcript, c.cap), next, e.toolCallCount, e.segmentCount, c.threaded,
               if s.db.checkpoint.Some? then s.db.checkpoint.value.resumeAttempts else 0, s.now)
  }

  /** Where runs begin: RUNNING, a drill or not, with one action on its first segment, the conversation it was
      given, and nothing saved, asked or queued. */
  lemma FreshRunExactly(c: Config, startedAt: int, born: int, isRehearsal: bool, conversation: seq<Turn>)
    requires startedAt <= born && Paired(conversation) && HeadClean(conversation)
    ensures var s := Start(startedAt, born, isRehearsal, conversation);
            && Initial(s) && Reachable(c, s) && s.now == born && s.jobs == []
            && s.db == Db(RunRow(RunRunning, startedAt, isRehearsal, []), None, [], [], [], [])
            && s.execs == [Exec(born, born, born, Loading, 0, 0, conversation, 1, 0, [])]
  {
    var s := Start(startedAt, born, isRehearsal, conversation);
    assert Initial(s);
    StartIsReachable(c, s);
  }

  // ----------------------------------------------------------------------- who may act

  /** People, the sweeper, the scheduler and crashes ask nothing of the actions at work: a request can be
      decided exactly while it is undecided, a queued continuation or resume picked up and a handler ended
      exactly while it is there, a sweep come and an action die at any moment. */
  lemma OthersMayActExactly(c: Config, s: Sys, k: nat, d: Decision, succeeded: bool, payload: Payload)
    ensures Enabled(c, s, Decide(k, d)) <==> k < |s.db.approvals| && s.db.approvals[k].status == AwaitingDecision
    ensures Enabled(c, s, Sweep)
    ensures Enabled(c, s, StartContinuation(k)) <==> k < |s.db.continuations|
    ensures Enabled(c, s, StartResume(k)) <==> k < |s.db.resumes|
    ensures Enabled(c, s, FinishHandler(k, succeeded, payload)) <==> k < |s.jobs| && s.jobs[k].Running? && s.jobs[k].approval < |s.db.approvals|
    ensures Enabled(c, s, Settle(k)) <==> k < |s.jobs| && s.jobs[k].Settling?
    ensures Enabled(c, s, KillResume(k)) <==> k < |s.jobs|
    ensures Enabled(c, s, Kill(k)) <==> k < |s.execs|
    ensures Enabled(c, s, Throw(k)) <==> k < |s.execs|
  {
  }

  /** An action's next step is the one its phase has: in a batch the stop check while a call is left and
      budget for it, the call once checked unless its arguments are no object, the end otherwise. */
  lemma ActionMayActExactly(c: Config, s: Sys, i: nat, calls: seq<Call>, overBudget: bool, facts: CallFacts)
    requires i < |s.execs| && facts.ran.status in {Success, NotImplemented, Failed}
    ensures var e, b := s.execs[i], s.execs[i].phase;
            && (Enabled(c, s, EnterLoop(i)) <==> b == Loading) && (Enabled(c, s, LoopTop(i)) <==> b == Top)
            && (Enabled(c, s, ModelTurn(i, calls, overBudget)) <==> b == Thinking) && (Enabled(c, s, ParkSave(i)) <==> b == Parking)
            && (Enabled(c, s, ScheduleHandover(i)) <==> b.HandingOver?) && (Enabled(c, s, WriteFinal(i)) <==> b.Finishing?)
            && (Enabled(c, s, ClearFinal(i)) <==> b == Clearing)
            && (Enabled(c, s, CheckStop(i)) <==> b.Batch? && !b.cleared && b.next < |b.calls| && e.toolCallCount < c.maxToolCalls)
            && (Enabled(c, s, RunCall(i, facts)) <==> b.Batch? && b.cleared && b.next < |b.calls| && b.calls[b.next].args.Obj?)
            && (Enabled(c, s, EndBatch(i)) <==> b.Batch? && !b.cleared && (b.next >= |b.calls| || e.toolCallCount >= c.maxToolCalls))
  {
  }

  /** Time passes as far as it may: forwards, no action past ten minutes, no handover past its gap and no
      queued continuation past its slack. */
  lemma TimeMayPassExactly(c: Config, s: Sys, to: int)
    ensures Enabled(c, s, Tick(to)) <==>
              && s.now <= to
              && (forall e :: e in s.execs ==> to - e.born <= 600_000 && (e.phase.HandingOver? ==> to - e.phase.savedAt <= c.handoverDelay))
              && (forall queuedAt :: queuedAt in s.db.continuations ==> to - queuedAt <= c.startSlack)
    ensures Enabled(c, s, Tick(to)) ==> Apply(c, s, Tick(to)) == s.(now := to)
  {
    assert forall i :: 0 <= i < |s.execs| ==> s.execs[i] in s.execs;
    assert forall k :: 0 <= k < |s.db.continuations| ==> s.db.continuations[k] in s.db.continuations;
    if MayTick(c, s, to) {
      forall e | e in s.execs
        ensures to - e.born <= 600_000 && (e.phase.HandingOver? ==> to - e.phase.savedAt <= c.handoverDelay)
      {
        var i :| 0 <= i < |s.execs| && s.execs[i] == e;
      }
      forall queuedAt | queuedAt in s.db.continuations
        ensures to - queuedAt <= c.startSlack
      {
        var k :| 0 <= k < |s.db.continuations| && s.db.continuations[k] == queuedAt;
      }
    }
  }

  // ---------------------------------------------------------------------- one step each

  /**
   * Before a turn: an action out of steps is about to fail the run; one whose run is over leaves, its position
   * dropped and the status as found; one that has taken a turn and had its three minutes saves and is about
   * to hand over, if it can be stored; any other thinks, one turn further on.
   */
  lemma TopExactly(c: Config, s: Sys, i: nat)
    requires Enabled(c, s, LoopTop(i))
    ensures var s', e := Apply(c, s, LoopTop(i)), s.execs[i];
            if e.loopIndex >= c.maxSteps then GoesTo(s, s', i, Finishing(RunFailed))
            else if Over(s) then GoneWith(s, s', i, None)
            else if e.turns > 0 && s.now >= e.segmentStart + 180_000 && Storable(Trim(e.transcript, c.cap), c.cap) then
              GoesTo(s.(db := s.db.(checkpoint := Some(Position(c, s, e, Active, e.transcript, e.loopIndex)))), s', i, HandingOver(s.now))
            else s' == s.(execs := s.execs[i := e.(phase := Thinking, turns := e.turns + 1)])
  {
    hide Trim, Chars;
  }

  /** Before a call: an action whose run is over leaves the same way, any other has its call cleared. */
  lemma CheckExactly(c: Config, s: Sys, i: nat)
    requires Enabled(c, s, CheckStop(i))
    ensures var s' := Apply(c, s, CheckStop(i));
            if Over(s) then GoneWith(s, s', i, None) else GoesTo(s, s', i, s.execs[i].phase.(cleared := true))
  {
  }

  /** What a call is told: the gate's answer, or what its handler came to. */
  function Told(s: Sys, e: Exec, call: Call, facts: CallFacts): Outcome {
    var wasRefused := BuildRefusedToolCallKey(call.name, Readable(call.args)) in e.refused;
    match CallFate(call.name, wasRefused, facts.schema, s.db.run.isRehearsal, facts.metadata, facts.access)
    case Answer(outcome) => outcome
    case _ => facts.ran
  }

  /**
   * One call: charged, and either put to a person - an unanswered row and one open request about it - or
   * told its outcome, with that status and payload on its row and that payload kept for the answer.
   */
  lemma CallExactly(c: Config, s: Sys, i: nat, facts: CallFacts)
    requires Enabled(c, s, RunCall(i, facts))
    ensures var s', e, b := Apply(c, s, RunCall(i, facts)), s.execs[i], s.execs[i].phase;
            var call := b.calls[b.next];
            var told, asks := Told(s, e, call, facts), FateOf(s, e, call, facts).Queue?;
            && s' == s.(hist := s'.hist, execs := s'.execs, db := s.db.(toolCalls := s'.db.toolCalls, approvals := s'.db.approvals))
            && s'.db.toolCalls == s.db.toolCalls + [
                 if asks then ToolCallRow(call.name, call.args, None, ApprovalRequired, e.loopIndex, call.signature)
                 else ToolCallRow(call.name, call.args, Some(told.payload), told.status, e.loopIndex, call.signature)]
            && s'.db.approvals == s.db.approvals + (if asks then [ApprovalRow(|s.db.toolCalls|, AwaitingDecision)] else [])
            && s'.execs == s.execs[i := e.(toolCallCount := e.toolCallCount + 1, phase := Batch(b.calls, b.next + 1, false,
                 b.executed + (if asks then [] else [ExecutedCall(call.name, call.args, told.payload, call.signature)]),
                 b.deferred + (if asks then 1 else 0)))]
  {
    hide CallFate, BuildRefusedToolCallKey;
    assert s.execs[i].phase.executed + [] == s.execs[i].phase.executed && s.db.approvals + [] == s.db.approvals;
  }

  /** The run's status as this action may write it: never over CANCELLED. */
  function Written(was: RunStatus, status: RunStatus): RunStatus { if was == RunCancelled then was else status }

  /**
   * The end of a batch: with something waiting the run is PENDING_APPROVAL and the action is about to park,
   * its conversation as it was; otherwise the turns that tell every call its result are added, and the action
   * is about to fail the run if calls are left over, or goes on to the next turn, saved where it can be.
   */
  lemma EndExactly(c: Config, s: Sys, i: nat, turns: seq<Turn>)
    requires Enabled(c, s, EndBatch(i)) && Tell(turns, s.execs[i].phase.executed)
    ensures var s', e := Apply(c, s, EndBatch(i)), s.execs[i];
            var told := e.transcript + turns;
            if e.phase.deferred > 0 then
              GoesTo(s.(db := s.db.(run := s.db.run.(status := Written(s.db.run.status, RunPendingApproval)))), s', i, Parking)
            else if e.phase.next < |e.phase.calls| then s' == s.(execs := s.execs[i := e.(phase := Finishing(RunFailed), transcript := told)])
            else
              && s'.execs == s.execs[i := e.(phase := Top, transcript := told, loopIndex := e.loopIndex + 1)]
              && s' == s.(execs := s'.execs, hist := s'.hist, db := s.db.(checkpoint :=
                   if Storable(Trim(told, c.cap), c.cap) then Some(Position(c, s, e, Active, told, e.loopIndex + 1)) else s.db.checkpoint))
  {
    hide Trim, Chars, BuildToolInteractionTurns;
    TurnsTellTheCalls(turns, s.execs[i].phase.executed);
  }

  /** The park: the action is gone, its position waiting for people where it can be stored. */
  lemma ParkExactly(c: Config, s: Sys, i: nat)
    requires Enabled(c, s, ParkSave(i))
    ensures var s', e := Apply(c, s, ParkSave(i)), s.execs[i];
            GoneWith(s, s', i, if Storable(Trim(e.transcript, c.cap), c.cap)
                               then Some(Position(c, s, e, AwaitingApproval, e.transcript, e.loopIndex + 1)) else s.db.checkpoint)
  {
    hide Trim, Chars, LeftOrphan;
  }

  /** The ways an action goes: handing over queues one continuation, finishing writes its outcome and then
      drops the position, throwing writes FAILED and drops it at once, and being killed writes nothing. */
  lemma GoingExactly(c: Config, s: Sys, i: nat)
    requires i < |s.execs|
    ensures GoneWith(s, Apply(c, s, Kill(i)), i, s.db.checkpoint)
    ensures GoneWith(s.(db := s.db.(run := s.db.run.(status := Written(s.db.run.status, RunFailed)))), Apply(c, s, Throw(i)), i, None)
    ensures s.execs[i].phase.Clearing? ==> GoneWith(s, Apply(c, s, ClearFinal(i)), i, None)
    ensures s.execs[i].phase.HandingOver? ==>
              GoneWith(s.(db := s.db.(continuations := s.db.continuations + [s.now])), Apply(c, s, ScheduleHandover(i)), i, s.db.checkpoint)
    ensures s.execs[i].phase.Finishing? && s.execs[i].phase.outcome in {RunSuccess, RunFailed} ==>
              GoesTo(s.(db := s.db.(run := s.db.run.(status := Written(s.db.run.status, s.execs[i].phase.outcome)))),
                     Apply(c, s, WriteFinal(i)), i, Clearing)
  {
  }

  /** A resume action that dies takes nothing with it but itself. */
  lemma DyingResumeExactly(c: Config, s: Sys, k: nat)
    requires Enabled(c, s, KillResume(k))
    ensures Apply(c, s, KillResume(k)) == s.(jobs := s.jobs[..k] + s.jobs[k + 1..])
  {
  }

  /** On the way in an action takes the refusals remembered so far and starts its segment's clock; a first
      segment starts the run's clock with it, a later one keeps the run's own. */
  lemma EntryExactly(c: Config, s: Sys, i: nat)
    requires Enabled(c, s, EnterLoop(i))
    ensures var e := s.execs[i];
            Apply(c, s, EnterLoop(i)) == s.(execs := s.execs[i := e.(phase := Top, segmentStart := s.now, refused := s.db.run.refused,
              clockFrom := if e.segmentCount == 1 then s.now else e.clockFrom)])
  {
  }

  /**
   * A continuation finds nothing to take up without an ACTIVE position; drops the position of a run that is
   * over; fails the run past thirty segments or without a conversation; and otherwise starts one action where
   * the last one saved, on the run's own clock, one segment further.
   */
  lemma ContinuationExactly(c: Config, s: Sys, k: nat)
    requires Enabled(c, s, StartContinuation(k))
    ensures var s', db := Apply(c, s, StartContinuation(k)), s.db.(continuations := s.db.continuations[..k] + s.db.continuations[k + 1..]);
            if db.checkpoint == None || db.checkpoint.value.status == AwaitingApproval then s' == s.(db := db)
            else if Over(s) then s' == s.(db := db.(checkpoint := None))
            else if db.checkpoint.value.segmentCount >= 30 || db.checkpoint.value.transcript == [] then
              s' == s.(db := db.(checkpoint := None, run := db.run.(status := RunFailed)))
            else
              var k := db.checkpoint.value;
              s' == s.(db := db, execs := s.execs + [Exec(s.now, s.now, db.run.startedAt, Loading, k.loopIndex, k.toolCallCount,
                                                          k.transcript, k.segmentCount + 1, 0, [])])
  {
  }

  /** A queued resume runs an approved call whose row is still Pending, answers for a refusal once nobody is
      asked - as a failure - and otherwise does nothing. */
  lemma ResumeExactly(c: Config, s: Sys, k: nat)
    requires Enabled(c, s, StartResume(k))
    ensures var s', job := Apply(c, s, StartResume(k)), s.db.resumes[k];
            var db := s.db.(resumes := s.db.resumes[..k] + s.db.resumes[k + 1..]);
            && s' == s.(db := db, jobs := s'.jobs, hist := s'.hist)
            && s'.jobs == s.jobs + (
                 if CallsAfterCancel.Startable(s.db, job) then [Running(job.approval)]
                 else if job.refused && job.approval < |s.db.approvals| && s.db.approvals[job.approval].status == Rejected
                         && (forall i :: 0 <= i < |s.db.approvals| ==> s.db.approvals[i].status != AwaitingDecision)
                 then [Settling(job.approval, GetSettlement(s.db, job.approval), false)] else [])
  {
    hide RowsOfTurn, TakeRows;
    assert s.jobs + [] == s.jobs;
  }

  /** A handler that ends records its result, and goes on to answer the batch exactly when nobody is asked. */
  lemma HandlerExactly(c: Config, s: Sys, k: nat, succeeded: bool, payload: Payload)
    requires Enabled(c, s, FinishHandler(k, succeeded, payload))
    ensures var s', a := Apply(c, s, FinishHandler(k, succeeded, payload)), s.jobs[k].approval;
            && s' == s.(db := RecordApprovedToolResult(s.db, a, succeeded, payload), jobs := s'.jobs)
            && s'.jobs == if forall i :: 0 <= i < |s.db.approvals| ==> s.db.approvals[i].status != AwaitingDecision
                          then s.jobs[k := Settling(a, GetSettlement(s'.db, a), succeeded)] else s.jobs[..k] + s.jobs[k + 1..]
  {
    hide RowsOfTurn, TakeRows;
  }

  /** What a step adds to the record kept beside the run, which no step reads. */
  ghost predicate Recorded(c: Config, s: Sys, e: Event, s': Sys)
    requires Enabled(c, s, e)
  {
    var more := |s'.db.continuations| > |s.db.continuations|;
    && s'.hist.charged == s.hist.charged + (if e.RunCall? then 1 else 0)
    && s'.hist.handovers == s.hist.handovers + (if e.ScheduleHandover? then 1 else 0)
    && s'.hist.revivals == s.hist.revivals + (if e.Sweep? && more then 1 else 0)
    && s'.hist.resumed == s.hist.resumed + (if e.Settle? && more then 1 else 0)
    && s'.hist.awaitingSaves == s.hist.awaitingSaves
         + (if e.ParkSave? && Storable(Trim(s.execs[e.i].transcript, c.cap), c.cap) then 1 else 0)
    && s'.hist.approvedRuns == s.hist.approvedRuns
         + (if e.StartResume? && CallsAfterCancel.Startable(s.db, s.db.resumes[e.k]) then [s.db.resumes[e.k].approval] else [])
    && s'.hist.executed == s.hist.executed
         + (if e.RunCall? && FateOf(s, s.execs[e.i], s.execs[e.i].phase.calls[s.execs[e.i].phase.next], e.facts) == Execute
            then [e.facts.metadata.value.level] else [])
  }

  /** The record is true: each count moves with the step it counts, and with no other. */
  lemma RecordIsTrue(c: Config, s: Sys, e: Event)
    requires Enabled(c, s, e)
    ensures Recorded(c, s, e, Apply(c, s, e))
  {
    if OfAction(e) {
      RecordOfAction(c, s, e);
    } else {
      RecordOfOther(c, s, e);
    }
  }

  lemma RecordOfAction(c: Config, s: Sys, e: Event)
    requires Enabled(c, s, e) && OfAction(e)
    ensures Recorded(c, s, e, Apply(c, s, e))
  {
    hide Trim, Chars, LeftOrphan, BuildToolInteractionTurns, StartContinuationStep, StartResumeStep, FinishHandlerStep, SettleStep,
         RecoverStalledRun, CancelRun, DecideApproval, ExpireApprovals, BuildRefusedToolCallKey;
    assert s.hist.approvedRuns + [] == s.hist.approvedRuns && s.hist.executed + [] == s.hist.executed;
  }

  lemma RecordOfOther(c: Config, s: Sys, e: Event)
    requires Enabled(c, s, e) && !OfAction(e)
    ensures Recorded(c, s, e, Apply(c, s, e))
  {
    hide Trim, Chars, LeftOrphan, BuildToolInteractionTurns, CallsOfRows, GetSettlement, TopStep, ModelTurnStep, CheckStopStep, RunCallStep,
         EndBatchStep, ParkSaveStep, CancelRun, DecideApproval, ExpireApprovals;
    assert s.hist.approvedRuns + [] == s.hist.approvedRuns && s.hist.executed + [] == s.hist.executed;
  }

  // ------------------------------------------------------------------ when the run is over

  /** Steps that begin something for the model: a turn, a call, an action. */
  predicate Begins(s: Sys, s': Sys, e: Event) {
    || (e.LoopTop? && s'.execs != [] && s'.execs[0].phase.Thinking?) || e.RunCall?
    || (e.StartContinuation? && |s'.execs| > |s.execs|)
  }

  ghost function Begun(c: Config, s: Sys, run: seq<Event>): nat
    requires Valid(c, s, run)
    decreases |run|
  {
    if run == [] then 0
    else (if Begins(s, Apply(c, s, run[0]), run[0]) then 1 else 0) + Begun(c, Apply(c, s, run[0]), run[1..])
  }

  ghost predicate StaysOver(c: Config, s: Sys, run: seq<Event>)
    requires Valid(c, s, run)
    decreases |run|
  {
    Over(s) && (run == [] || StaysOver(c, Apply(c, s, run[0]), run[1..]))
  }

  /** A call past its stop check is the one thing that may still begin. */
  function InHand(s: Sys): nat { if s.execs != [] && s.execs[0].phase.Batch? && s.execs[0].phase.cleared then 1 else 0 }

  lemma OverStep(c: Config, s: Sys, e: Event)
    requires LeaseExclusion.Lease(c, s) && Over(s) && Enabled(c, s, e)
    ensures (if Begins(s, Apply(c, s, e), e) then 1 else 0) + InHand(Apply(c, s, e)) <= InHand(s)
  {
    hide FateOf, Trim, Chars, LeftOrphan, BuildToolInteractionTurns, CallsOfRows, RowsOfTurn, TakeRows, CancelRun, DecideApproval,
         ExpireApprovals, SettleBatchAndContinue, GetSettlement, RecoverStalledRun;
    if OfAction(e) {
      assert s.execs == [s.execs[0]];
    }
  }

  lemma {:induction false} LittleBegins(c: Config, s: Sys, run: seq<Event>)
    requires LeaseExclusion.MarginHolds(c) && LeaseExclusion.Lease(c, s) && Valid(c, s, run) && StaysOver(c, s, run)
    ensures Begun(c, s, run) <= InHand(s)
    decreases |run|
  {
    hide LeaseExclusion.Lease, Apply, Enabled, Begins, InHand, Over;
    if run != [] {
      OverStep(c, s, run[0]);
      LeaseExclusion.LeaseStep(c, s, run[0]);
      LittleBegins(c, Apply(c, s, run[0]), run[1..]);
    }
  }

  /**
   * Over is over: however a run ended - succeeded, failed, cancelled, here or by another action - for as
   * long as it stays so no model turn, no action and at most one call of it begin, and that call only if an
   * action had it in hand, past its stop check.
   */
  lemma NothingBeginsOnceOver(c: Config, s: Sys, run: seq<Event>)
    requires LeaseExclusion.MarginHolds(c) && Reachable(c, s) && Valid(c, s, run) && StaysOver(c, s, run)
    ensures Begun(c, s, run) <= 1
    ensures (forall i :: 0 <= i < |s.execs| ==> !(s.execs[i].phase.Batch? && s.execs[i].phase.cleared)) ==> Begun(c, s, run) == 0
  {
    CallsAfterCancel.LeaseHolds(c, s);
    LittleBegins(c, s, run);
  }
}
