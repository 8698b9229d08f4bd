/** The stall threshold as a lease: a run is never worked on twice at once, exactly when the
    delays the program does not control fit inside the two-minute margin
    (convex/agentRunContinuationService.ts:35-47, convex/agentRunCheckpoints.ts:156-225). */
module LeaseExclusion {
  import opened Common
  import opened Transcript
  import opened ToolGate
  import opened RefusalKey
  import opened RunRecords
  import opened RunProtocol

  /** Live actions and queued continuations of the run. */
  function Holders(s: Sys): nat { |s.execs| + |s.db.continuations| }

  predicate MarginHolds(c: Config) {
    c.startSlack + c.handoverDelay <= AGENT_RUN_STALL_MS - AGENT_RUN_MAX_ACTION_LIFETIME_MS
  }

  /** The checkpoint's timestamp covers whatever may still touch the run. */
  predicate Covered(c: Config, s: Sys, k: Checkpoint) {
    && k.updatedAt <= s.now
    && (k.status == AwaitingApproval ==> Holders(s) == 0)
    && (|s.execs| == 1 ==>
          && s.execs[0].born + AGENT_RUN_MAX_ACTION_LIFETIME_MS <= k.updatedAt + AGENT_RUN_STALL_MS
          && (s.execs[0].phase.HandingOver? ==> s.execs[0].phase.savedAt <= k.updatedAt))
    && (|s.db.continuations| == 1 ==>
          s.db.continuations[0] + c.startSlack + AGENT_RUN_MAX_ACTION_LIFETIME_MS <= k.updatedAt + AGENT_RUN_STALL_MS)
  }

  predicate Lease(c: Config, s: Sys) {
    && Holders(s) <= 1
    && (|s.execs| == 1 ==>
          && s.execs[0].born <= s.now <= s.execs[0].born + AGENT_RUN_MAX_ACTION_LIFETIME_MS
          && (s.execs[0].phase.HandingOver? ==>
                s.execs[0].phase.savedAt <= s.now <= s.execs[0].phase.savedAt + c.handoverDelay))
    && (|s.db.continuations| == 1 ==>
          s.db.continuations[0] <= s.now <= s.db.continuations[0] + c.startSlack)
    && (s.db.checkpoint.Some? ==> Covered(c, s, s.db.checkpoint.value))
  }

  lemma LeaseActionStep(c: Config, s: Sys, e: Event)
    requires MarginHolds(c) && Lease(c, s) && Enabled(c, s, e) && OfAction(e)
    ensures Lease(c, Apply(c, s, e))
  {
    hide TopStep, RunCallStep, EndBatchStep, Trim, Chars, LeftOrphan, StartContinuationStep, StartResumeStep, FinishHandlerStep,
         SettleStep, RecoverStalledRun, CancelRun, DecideApproval, ExpireApprovals;
    assert s.execs == [s.execs[0]] && s.db.continuations == [];
    match e {
      case LoopTop(i) => LeaseTop(c, s, i);
      case RunCall(i, facts) => LeaseCall(c, s, i, facts);
      case EndBatch(i) => LeaseEndBatch(c, s, i);
      case _ =>
    }
  }

  lemma LeaseTop(c: Config, s: Sys, i: nat)
    requires Lease(c, s) && i < |s.execs|
    ensures Lease(c, TopStep(c, s, i))
  {
    assert s.execs == [s.execs[0]];
  }

  lemma LeaseCall(c: Config, s: Sys, i: nat, facts: CallFacts)
    requires Lease(c, s) && i < |s.execs| && s.execs[i].phase.Batch? && s.execs[i].phase.next < |s.execs[i].phase.calls|
    ensures Lease(c, RunCallStep(s, i, facts))
  {
    assert s.execs == [s.execs[0]];
  }

  lemma LeaseEndBatch(c: Config, s: Sys, i: nat)
    requires Lease(c, s) && i < |s.execs| && s.execs[i].phase.Batch?
    ensures Lease(c, EndBatchStep(c, s, i))
  {
    assert s.execs == [s.execs[0]];
  }

  lemma LeaseOtherStep(c: Config, s: Sys, e: Event)
    requires MarginHolds(c) && Lease(c, s) && Enabled(c, s, e) && !OfAction(e)
    ensures Lease(c, Apply(c, s, e))
  {
    hide Lease, CancelRun, DecideApproval, ExpireApprovals, RecoverStalledRun, SettleStep, StartContinuationStep, StartResumeStep,
         FinishHandlerStep;
    match e {
      case Sweep => LeaseSweep(c, s);
      case Settle(k) => LeaseSettle(c, s, k);
      case StartContinuation(k) => LeaseStart(c, s, k);
      case Tick(to) => LeaseTick(c, s, to);
      case _ => LeaseBystander(c, s, e);
    }
  }

  lemma LeaseStart(c: Config, s: Sys, k: nat)
    requires MarginHolds(c) && Lease(c, s) && k < |s.db.continuations|
    ensures Lease(c, StartContinuationStep(s, k))
  {
    assert s.db.continuations == [s.db.continuations[0]] && s.execs == [];
  }

  lemma LeaseTick(c: Config, s: Sys, to: int)
    requires Lease(c, s) && MayTick(c, s, to)
    ensures Lease(c, s.(now := to))
  {
  }

  /** Decisions, cancellations and expiries schedule no loop work and leave the checkpoint or delete it. */
  lemma LeaseBystander(c: Config, s: Sys, e: Event)
    requires Lease(c, s) && Enabled(c, s, e)
    requires e.Cancel? || e.Decide? || e.Expire? || e.StartResume? || e.FinishHandler? || e.KillResume?
    ensures Lease(c, Apply(c, s, e))
  {
    var s' := Apply(c, s, e);
    assert s'.now == s.now && s'.execs == s.execs && s'.db.continuations == s.db.continuations
           && (s'.db.checkpoint == s.db.checkpoint || s'.db.checkpoint.None?);
  }

  /** A stale ACTIVE checkpoint has nobody behind it, so reviving adds the only holder. */
  lemma LeaseSweep(c: Config, s: Sys)
    requires MarginHolds(c) && Lease(c, s)
    ensures Lease(c, Apply(c, s, Sweep))
    ensures IsStalled(s.db, s.now) ==> Holders(s) == 0
  {
  }

  lemma LeaseSettle(c: Config, s: Sys, k: nat)
    requires MarginHolds(c) && Lease(c, s) && k < |s.jobs| && s.jobs[k].Settling?
    ensures Lease(c, SettleStep(c, s, k))
  {
  }

  lemma LeaseStep(c: Config, s: Sys, e: Event)
    requires MarginHolds(c) && Lease(c, s) && Enabled(c, s, e)
    ensures Lease(c, Apply(c, s, e))
  {
    if OfAction(e) {
      LeaseActionStep(c, s, e);
    } else {
      LeaseOtherStep(c, s, e);
    }
  }

  lemma {:induction false} LeaseAlways(c: Config, s: Sys, run: seq<Event>)
    requires MarginHolds(c) && Lease(c, s) && Valid(c, s, run)
    ensures Lease(c, Replay(c, s, run))
    decreases |run|
  {
    if run != [] {
      LeaseStep(c, s, run[0]);
      LeaseAlways(c, Apply(c, s, run[0]), run[1..]);
    }
  }

  lemma InitialHoldsLease(c: Config, s: Sys)
    requires Initial(s)
    ensures Lease(c, s)
  {
  }

  /** Exclusion: at most one live action or queued continuation in every reachable state. */
  lemma ExclusiveWithinMargin(c: Config, s: Sys)
    requires MarginHolds(c) && Reachable(c, s)
    ensures Lease(c, s) && Holders(s) <= 1
  {
    var start, run :| Initial(start) && Valid(c, start, run) && Replay(c, start, run) == s;
    InitialHoldsLease(c, start);
    LeaseAlways(c, start, run);
  }

  // -------------------------------------------------- without the margin it is false

  /** Limits under which a run can complete one tool turn and hand over. */
  predicate CanHandOver(c: Config) {
    c.maxSteps >= 2 && c.maxToolCalls >= 1 && c.maxRuntimeMs > 0 && c.cap >= 100
  }

  const SOME_CALL := Call("", Obj([]), None)
  const DENIED := ExecutedCall("", Obj([]), ErrorPayload(AccessDenied(Unauthenticated)), None)
  const DENIED_FACTS := CallFacts(Validation(true, ""), None, Refused(Unauthenticated), Outcome(Failed, RehearsedPayload))

  predicate StoredWhole(c: Config, t: seq<Turn>) {
    t == BuildToolInteractionTurns([DENIED]) && Trim(t, c.cap) == t && Storable(t, c.cap)
  }

  lemma OneTurnIsSmall(c: Config) returns (t: seq<Turn>)
    requires c.cap >= 100
    ensures StoredWhole(c, t)
  {
    t := BuildToolInteractionTurns([DENIED]);
    assert t[0].calls == [CallPart("", Obj([]), None)];
    assert t[0].calls[1..] == [] && t[1].results[1..] == [];
    assert t[1..][1..] == [];
    assert BodyChars(t[1..]) == PartsChars(t[1]) + 1;
    assert CallChars(t[0].calls[1..]) == 2 && ResultChars(t[1].results[1..]) == 2;
    assert t[0..] == t;
  }

  /** A run of which one turn, `t`, has been saved. */
  ghost predicate OneTurnSaved(c: Config, s: Sys, t: seq<Turn>, at: int) {
    && s.db.run == RunRow(RunRunning, 0, false, [])
    && s.db.checkpoint == Some(Checkpoint(Active, t, 1, 1, 1, c.threaded, 0, at))
  }

  lemma FirstTurnAsked(c: Config) returns (s: Sys)
    requires CanHandOver(c)
    ensures Reachable(c, s) && s == Start(0, 0, false, []).(execs := s.execs)
    ensures s.execs == [Exec(0, 0, 0, Batch([SOME_CALL], 0, true, [], 0), 0, 0, [], 1, 1, [])]
  {
    s := Start(0, 0, false, []);
    assert s == Start(0, s.now, false, []);
    StartIsReachable(c, s);
    s := StepIsReachable(c, s, EnterLoop(0));
    s := StepIsReachable(c, s, LoopTop(0));
    s := StepIsReachable(c, s, ModelTurn(0, [SOME_CALL], false));
    s := StepIsReachable(c, s, CheckStop(0));
  }

  /** The call is refused access, so it is answered at once and the turn saved. */
  lemma FirstTurnSaved(c: Config, t: seq<Turn>) returns (s: Sys)
    requires CanHandOver(c) && StoredWhole(c, t)
    ensures Reachable(c, s) && s.now == 0 && s.db.continuations == [] && OneTurnSaved(c, s, t, 0)
    ensures s.execs == [Exec(0, 0, 0, Top, 1, 1, t, 1, 1, [])]
    ensures s.jobs == [] && s.db.approvals == [] && s.db.resumes == [] && |s.db.toolCalls| == 1 && s.db.toolCalls[0].turnIndex == 0
    ensures s.hist.charged == 1 && s.hist.revivals == 0 && s.hist.forgotten == 0
  {
    hide Trim, Chars, BuildToolInteractionTurns;
    s := FirstTurnAsked(c);
    s := StepIsReachable(c, s, RunCall(0, DENIED_FACTS));
    assert s.execs[0].phase.executed == [DENIED];
    assert [] + t == t;
    s := StepIsReachable(c, s, EndBatch(0));
  }

  /** Three minutes later the action saves its position again, to hand over. */
  lemma HandoverSaved(c: Config, t: seq<Turn>) returns (s: Sys)
    requires CanHandOver(c) && StoredWhole(c, t)
    ensures Reachable(c, s) && s.now == 180_000 && s.db.continuations == [] && OneTurnSaved(c, s, t, 180_000)
    ensures |s.execs| == 1 && s.execs[0].born == 0 && s.execs[0].phase == HandingOver(180_000)
  {
    hide Trim, Chars, BuildToolInteractionTurns;
    s := FirstTurnSaved(c, t);
    s := StepIsReachable(c, s, Tick(180_000));
    s := StepIsReachable(c, s, LoopTop(0));
  }

  /** It dawdles for `h` before scheduling its successor. */
  lemma SuccessorScheduled(c: Config, t: seq<Turn>, h: nat) returns (s: Sys)
    requires CanHandOver(c) && StoredWhole(c, t) && h <= c.handoverDelay && h <= 120_001
    ensures Reachable(c, s) && s.now == 180_000 + h && OneTurnSaved(c, s, t, 180_000)
    ensures s.execs == [] && s.db.continuations == [180_000 + h]
  {
    hide Trim, Chars, BuildToolInteractionTurns;
    s := HandoverSaved(c, t);
    s := StepIsReachable(c, s, Tick(180_000 + h));
    s := StepIsReachable(c, s, ScheduleHandover(0));
  }

  /** The successor starts after a further `w`. */
  lemma HandedOver(c: Config, t: seq<Turn>, h: nat, w: nat) returns (s: Sys)
    requires CanHandOver(c) && StoredWhole(c, t)
    requires h <= c.handoverDelay && w <= c.startSlack && h <= 120_001
    ensures Reachable(c, s) && s.now == 180_000 + h + w && s.db.continuations == [] && OneTurnSaved(c, s, t, 180_000)
    ensures |s.execs| == 1 && s.execs[0].born == s.now && s.execs[0].phase == Loading
  {
    hide Trim, Chars;
    s := SuccessorScheduled(c, t, h);
    s := StepIsReachable(c, s, Tick(180_000 + h + w));
    s := StepIsReachable(c, s, StartContinuation(0));
  }

  /** One millisecond outside the margin, the sweeper revives a run whose action is still alive. */
  lemma SharedOutsideMargin(c: Config) returns (s: Sys)
    requires CanHandOver(c) && !MarginHolds(c)
    ensures Reachable(c, s) && Holders(s) == 2
  {
    hide Trim, Chars, BuildToolInteractionTurns;
    var t := OneTurnIsSmall(c);
    var h := if c.handoverDelay <= 120_001 then c.handoverDelay else 120_001;
    s := HandedOver(c, t, h, 120_001 - h);
    s := StepIsReachable(c, s, Tick(900_001));
    s := StepIsReachable(c, s, Sweep);
  }

  /** The stall threshold protects a run exactly when the two delays fit in its margin. */
  lemma ExclusionExactly(c: Config)
    requires CanHandOver(c)
    ensures (forall s :: Reachable(c, s) ==> Holders(s) <= 1) <==> MarginHolds(c)
  {
    if MarginHolds(c) {
      forall s | Reachable(c, s)
        ensures Holders(s) <= 1
      {
        ExclusiveWithinMargin(c, s);
      }
    } else {
      var s := SharedOutsideMargin(c);
    }
  }
}
