/** What a person's decisions guarantee over whole runs: an approved call runs at most once
    and only after its approval, a parked batch resumes at most once, and a refused call is
    not put to anyone again. */
module ApprovalSafety {
  import opened Common
  import opened ToolGate
  import opened Transcript
  import opened RefusalKey
  import opened RunRecords
  import opened RunProtocol

  ghost predicate NoDuplicates(s: seq<nat>) {
    forall i, j :: 0 <= i < j < |s| ==> s[i] != s[j]
  }

  /** Every approval points at its own call. */
  ghost predicate OneCallEach(db: Db) {
    && (forall i :: 0 <= i < |db.approvals| ==> db.approvals[i].toolCall < |db.toolCalls|)
    && (forall i, j :: 0 <= i < j < |db.approvals| ==> db.approvals[i].toolCall != db.approvals[j].toolCall)
  }

  /** A queued resume stands for a decision of its kind, and for no other queued resume. */
  ghost predicate QueueMatchesDecisions(s: Sys) {
    && (forall k :: 0 <= k < |s.db.resumes| ==>
          var job := s.db.resumes[k];
          && job.approval < |s.db.approvals|
          && s.db.approvals[job.approval].status == (if job.refused then Rejected else Approved)
          && job.approval !in s.hist.approvedRuns)
    && (forall k, l :: 0 <= k < l < |s.db.resumes| ==> s.db.resumes[k].approval != s.db.resumes[l].approval)
    && (forall k :: 0 <= k < |s.jobs| ==> JobFits(s.jobs[k], |s.db.approvals|))
  }

  predicate JobFits(job: Job, approvals: nat) {
    job.approval < approvals && (job.Settling? ==> job.settlement.settled)
  }

  ghost predicate RunsMatchDecisions(s: Sys) {
    && NoDuplicates(s.hist.approvedRuns)
    && (forall i :: 0 <= i < |s.hist.approvedRuns| ==>
          && s.hist.approvedRuns[i] < |s.db.approvals|
          && s.db.approvals[s.hist.approvedRuns[i]].status == Approved)
  }

  predicate Awaiting(s: Sys) {
    s.db.checkpoint.Some? && s.db.checkpoint.value.status == AwaitingApproval
  }

  predicate ResumesCovered(s: Sys) {
    s.hist.resumed + (if Awaiting(s) then 1 else 0) <= s.hist.awaitingSaves
  }

  ghost predicate Once(s: Sys) {
    OneCallEach(s.db) && QueueMatchesDecisions(s) && RunsMatchDecisions(s) && ResumesCovered(s)
  }

  /** Rows may be added and undecided approvals decided; nothing already decided changes. */
  ghost predicate DecidedKept(was: Db, db: Db) {
    && |was.approvals| <= |db.approvals| && |was.toolCalls| <= |db.toolCalls|
    && (forall i :: 0 <= i < |was.approvals| ==>
          && db.approvals[i].toolCall == was.approvals[i].toolCall
          && (was.approvals[i].status != AwaitingDecision ==> db.approvals[i] == was.approvals[i]))
  }

  /** A step that queues no resume and starts no handler keeps the bookkeeping. */
  lemma BookkeepingKept(s: Sys, s': Sys)
    requires OneCallEach(s.db) && QueueMatchesDecisions(s) && RunsMatchDecisions(s)
    requires DecidedKept(s.db, s'.db) && |s'.db.approvals| == |s.db.approvals|
    requires s'.db.resumes == s.db.resumes && s'.hist.approvedRuns == s.hist.approvedRuns
    requires forall k :: 0 <= k < |s'.jobs| ==> JobFits(s'.jobs[k], |s.db.approvals|)
    ensures OneCallEach(s'.db) && QueueMatchesDecisions(s') && RunsMatchDecisions(s')
  {
  }

  lemma OnceCall(c: Config, s: Sys, i: nat, facts: CallFacts)
    requires Once(s) && Enabled(c, s, RunCall(i, facts))
    ensures Once(RunCallStep(s, i, facts))
  {
    hide FateOf;
  }

  lemma OnceActionStep(c: Config, s: Sys, e: Event)
    requires Once(s) && Enabled(c, s, e) && OfAction(e)
    ensures Once(Apply(c, s, e))
  {
    hide RunCallStep, Trim, Chars, LeftOrphan, BuildToolInteractionTurns, OneCallEach, QueueMatchesDecisions, RunsMatchDecisions;
    if e.RunCall? {
      OnceCall(c, s, e.i, e.facts);
    } else {
      var s' := Apply(c, s, e);
      assert s'.db.approvals == s.db.approvals && s'.db.toolCalls == s.db.toolCalls && s'.jobs == s.jobs;
      SameRowsKept(s, s');
    }
  }

  lemma SameRowsKept(s: Sys, s': Sys)
    requires OneCallEach(s.db) && QueueMatchesDecisions(s) && RunsMatchDecisions(s)
    requires s'.db.approvals == s.db.approvals && |s'.db.toolCalls| == |s.db.toolCalls|
    requires s'.db.resumes == s.db.resumes && s'.hist.approvedRuns == s.hist.approvedRuns && s'.jobs == s.jobs
    ensures OneCallEach(s'.db) && QueueMatchesDecisions(s') && RunsMatchDecisions(s')
  {
    BookkeepingKept(s, s');
  }

  lemma OnceDecide(c: Config, s: Sys, a: nat, decision: Decision)
    requires Once(s) && CanDecide(s.db, a)
    ensures Once(Apply(c, s, Decide(a, decision)))
  {
    hide AppendRefusedToolCall, BuildRefusedToolCallKey, RefusalPayload;
  }

  lemma OnceStartResume(s: Sys, k: nat)
    requires Once(s) && k < |s.db.resumes|
    ensures Once(StartResumeStep(s, k))
  {
    hide GetSettlement, OneCallEach, RunsMatchDecisions;
    var s' := StartResumeStep(s, k);
    assert s'.db == s.db.(resumes := Remove(s.db.resumes, k));
    SameCalls(s.db, s'.db);
    assert forall l :: 0 <= l < |s'.db.resumes| ==> s'.db.resumes[l] == s.db.resumes[if l < k then l else l + 1];
    assert RunsMatchDecisions(s') by { RunsStartOnce(s, k); }
  }

  lemma SameCalls(db: Db, db': Db)
    requires OneCallEach(db) && db'.approvals == db.approvals && db'.toolCalls == db.toolCalls
    ensures OneCallEach(db')
  {
  }

  /** A resume that starts a handler is the only one for its approval, and the approval stands. */
  lemma RunsStartOnce(s: Sys, k: nat)
    requires QueueMatchesDecisions(s) && RunsMatchDecisions(s) && k < |s.db.resumes|
    ensures RunsMatchDecisions(StartResumeStep(s, k))
  {
    hide GetSettlement;
  }

  lemma OnceSettle(c: Config, s: Sys, k: nat)
    requires Once(s) && k < |s.jobs| && s.jobs[k].Settling?
    ensures Once(SettleStep(c, s, k))
  {
    hide Trim, Chars, LeftOrphan, CallsOfRows, BuildToolInteractionTurns;
    BookkeepingKept(s, SettleStep(c, s, k));
  }

  lemma OnceBystander(c: Config, s: Sys, e: Event)
    requires Once(s) && Enabled(c, s, e)
    requires e.Cancel? || e.Expire? || e.FinishHandler? || e.KillResume? || e.Sweep?
    ensures Once(Apply(c, s, e))
  {
    hide CancelCalls, CancelWaiting, RowsOfTurn, TakeRows, Chars;
    BookkeepingKept(s, Apply(c, s, e));
  }

  lemma OnceStart(c: Config, s: Sys, k: nat)
    requires Once(s) && k < |s.db.continuations|
    ensures Once(StartContinuationStep(s, k))
  {
    BookkeepingKept(s, StartContinuationStep(s, k));
  }

  lemma OnceOtherStep(c: Config, s: Sys, e: Event)
    requires Once(s) && Enabled(c, s, e) && !OfAction(e)
    ensures Once(Apply(c, s, e))
  {
    hide StartResumeStep, SettleStep, StartContinuationStep, DecideApproval;
    match e {
      case Decide(a, decision) => OnceDecide(c, s, a, decision);
      case StartResume(k) => OnceStartResume(s, k);
      case Settle(k) => OnceSettle(c, s, k);
      case StartContinuation(k) => OnceStart(c, s, k);
      case Tick(to) => BookkeepingKept(s, s.(now := to));
      case _ => OnceBystander(c, s, e);
    }
  }

  lemma OnceStep(c: Config, s: Sys, e: Event)
    requires Once(s) && Enabled(c, s, e)
    ensures Once(Apply(c, s, e))
  {
    hide Once;
    if OfAction(e) {
      OnceActionStep(c, s, e);
    } else {
      OnceOtherStep(c, s, e);
    }
  }

  lemma {:induction false} OnceAlways(c: Config, s: Sys, run: seq<Event>)
    requires Once(s) && Valid(c, s, run)
    ensures Once(Replay(c, s, run))
    decreases |run|
  {
    hide Once;
    if run != [] {
      OnceStep(c, s, run[0]);
      OnceAlways(c, Apply(c, s, run[0]), run[1..]);
    }
  }

  /** The call behind an approval handler run. */
  function CallRun(s: Sys, i: nat): nat
    requires i < |s.hist.approvedRuns| && s.hist.approvedRuns[i] < |s.db.approvals|
  {
    s.db.approvals[s.hist.approvedRuns[i]].toolCall
  }

  /**
   * Over any run: successful resumes never exceed AWAITING_APPROVAL saves; every handler
   * started for a parked call stands under an approval that is APPROVED; and no two handler
   * starts are for the same call.
   */
  lemma ApprovedCallsRunAtMostOnce(c: Config, s: Sys)
    requires Reachable(c, s)
    ensures s.hist.resumed <= s.hist.awaitingSaves
    ensures forall i :: 0 <= i < |s.hist.approvedRuns| ==>
              && s.hist.approvedRuns[i] < |s.db.approvals|
              && s.db.approvals[s.hist.approvedRuns[i]].status == Approved
    ensures forall i, j :: 0 <= i < j < |s.hist.approvedRuns| ==> CallRun(s, i) != CallRun(s, j)
  {
    var start, run :| Initial(start) && Valid(c, start, run) && Replay(c, start, run) == s;
    OnceAlways(c, start, run);
  }
}
