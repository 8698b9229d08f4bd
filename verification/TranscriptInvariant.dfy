/** Over whole runs, with any interleaving of actions: no conversation that is kept or saved
    ever separates a tool result from the calls it answers. */
module TranscriptInvariant {
  import opened Common
  import opened ToolGate
  import opened Transcript
  import opened RunRecords
  import opened RunProtocol

  ghost predicate Good(t: seq<Turn>, orphaned: bool) {
    Paired(t) && (!orphaned ==> HeadClean(t))
  }

  ghost predicate AllGood(s: Sys) {
    && (forall i :: 0 <= i < |s.execs| ==> Good(s.execs[i].transcript, s.hist.orphaned))
    && (s.db.checkpoint.Some? ==> Good(s.db.checkpoint.value.transcript, s.hist.orphaned))
  }

  lemma TrimIsGood(t: seq<Turn>, cap: nat, orphaned: bool)
    requires Good(t, orphaned)
    ensures Good(Trim(t, cap), orphaned || LeftOrphan(t, cap))
  {
    TrimKeepsPairing(t, cap);
  }

  lemma BatchIsGood(t: seq<Turn>, calls: seq<ExecutedCall>, orphaned: bool)
    requires Good(t, orphaned)
    ensures Good(t + BuildToolInteractionTurns(calls), orphaned)
  {
    BatchKeepsPairing(t, calls);
  }

  lemma Weaken(t: seq<Turn>, orphaned: bool, more: bool)
    requires Good(t, orphaned)
    ensures Good(t, orphaned || more)
  {
  }

  /** One executor's conversation is saved; everything else stays as good as it was. */
  lemma SaveIsGood(s: Sys, t: seq<Turn>, cap: nat)
    requires AllGood(s) && Good(t, s.hist.orphaned)
    ensures var orphaned := s.hist.orphaned || LeftOrphan(t, cap);
            && Good(Trim(t, cap), orphaned) && Good(t, orphaned)
            && (forall i :: 0 <= i < |s.execs| ==> Good(s.execs[i].transcript, orphaned))
            && (s.db.checkpoint.Some? ==> Good(s.db.checkpoint.value.transcript, orphaned))
  {
    hide Good, LeftOrphan, Trim;
    var more := LeftOrphan(t, cap);
    TrimIsGood(t, cap, s.hist.orphaned);
    Weaken(t, s.hist.orphaned, more);
    forall i | 0 <= i < |s.execs|
      ensures Good(s.execs[i].transcript, s.hist.orphaned || more)
    {
      Weaken(s.execs[i].transcript, s.hist.orphaned, more);
    }
    if s.db.checkpoint.Some? {
      Weaken(s.db.checkpoint.value.transcript, s.hist.orphaned, more);
    }
  }

  lemma GoodTop(c: Config, s: Sys, i: nat)
    requires AllGood(s) && i < |s.execs|
    ensures AllGood(TopStep(c, s, i))
  {
    hide Good, Trim, LeftOrphan, Chars;
    SaveIsGood(s, s.execs[i].transcript, c.cap);
  }

  lemma GoodEndBatch(c: Config, s: Sys, i: nat)
    requires AllGood(s) && i < |s.execs| && s.execs[i].phase.Batch?
    ensures AllGood(EndBatchStep(c, s, i))
  {
    hide Good, Trim, LeftOrphan, Chars, BuildToolInteractionTurns;
    var t := s.execs[i].transcript + BuildToolInteractionTurns(s.execs[i].phase.executed);
    BatchIsGood(s.execs[i].transcript, s.execs[i].phase.executed, s.hist.orphaned);
    SaveIsGood(s, t, c.cap);
  }

  lemma GoodParkSave(c: Config, s: Sys, i: nat)
    requires AllGood(s) && i < |s.execs|
    ensures AllGood(ParkSaveStep(c, s, i))
  {
    hide Good, Trim, LeftOrphan, Chars;
    SaveIsGood(s, s.execs[i].transcript, c.cap);
  }

  lemma GoodSettle(c: Config, s: Sys, k: nat)
    requires AllGood(s) && k < |s.jobs| && s.jobs[k].Settling?
    ensures AllGood(SettleStep(c, s, k))
  {
    hide Good, Trim, LeftOrphan, Chars, BuildToolInteractionTurns;
    if s.db.checkpoint.Some? {
      var batch := CallsOfRows(s.jobs[k].settlement.batch);
      BatchIsGood(s.db.checkpoint.value.transcript, batch, s.hist.orphaned);
      SaveIsGood(s, s.db.checkpoint.value.transcript + BuildToolInteractionTurns(batch), c.cap);
    }
  }

  lemma GoodActionStep(c: Config, s: Sys, e: Event)
    requires AllGood(s) && Enabled(c, s, e) && OfAction(e)
    ensures AllGood(Apply(c, s, e))
  {
    hide StartContinuationStep, StartResumeStep, FinishHandlerStep, SettleStep, RecoverStalledRun,
         CancelRun, DecideApproval, ExpireApprovals, Good, TopStep, EndBatchStep, ParkSaveStep, FateOf;
    match e {
      case LoopTop(i) => GoodTop(c, s, i);
      case EndBatch(i) => GoodEndBatch(c, s, i);
      case ParkSave(i) => GoodParkSave(c, s, i);
      case _ =>
    }
  }

  lemma GoodOtherStep(c: Config, s: Sys, e: Event)
    requires AllGood(s) && Enabled(c, s, e) && !OfAction(e)
    ensures AllGood(Apply(c, s, e))
  {
    hide Good, SettleStep, CancelRun, DecideApproval, ExpireApprovals, Chars;
    match e {
      case Settle(k) => GoodSettle(c, s, k);
      case _ =>
    }
  }

  lemma GoodStep(c: Config, s: Sys, e: Event)
    requires AllGood(s) && Enabled(c, s, e)
    ensures AllGood(Apply(c, s, e))
  {
    hide AllGood;
    if OfAction(e) {
      GoodActionStep(c, s, e);
    } else {
      GoodOtherStep(c, s, e);
    }
  }

  lemma {:induction false} GoodAlways(c: Config, s: Sys, run: seq<Event>)
    requires AllGood(s) && Valid(c, s, run)
    ensures AllGood(Replay(c, s, run))
    decreases |run|
  {
    hide AllGood;
    if run != [] {
      GoodStep(c, s, run[0]);
      GoodAlways(c, Apply(c, s, run[0]), run[1..]);
    }
  }

  /** In every reachable state each live and each stored conversation pairs every tool result
      with its request, and starts with an orphaned result only after a save could keep
      nothing else. */
  lemma ConversationsStayPaired(c: Config, s: Sys)
    requires Reachable(c, s)
    ensures forall i :: 0 <= i < |s.execs| ==> Good(s.execs[i].transcript, s.hist.orphaned)
    ensures s.db.checkpoint.Some? ==> Good(s.db.checkpoint.value.transcript, s.hist.orphaned)
  {
    var start, run :| Initial(start) && Valid(c, start, run) && Replay(c, start, run) == s;
    GoodAlways(c, start, run);
  }
}
