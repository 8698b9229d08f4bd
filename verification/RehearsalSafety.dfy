/** A rehearsal changes nothing outside itself, over its whole run and whatever access it is
    granted (convex/agentRuntimeService.ts:447-558, convex/agentObjectiveLoop.ts:593-728). */
module RehearsalSafety {
  import opened Common
  import opened ToolGate
  import opened Transcript
  import opened RefusalKey
  import opened RunRecords
  import opened RunProtocol

  ghost predicate OnlyRead(levels: seq<Level>) {
    forall i :: 0 <= i < |levels| ==> levels[i] == Read
  }

  /** Nothing executed but reads, nobody asked, nothing parked, no approved call run. */
  ghost predicate Harmless(s: Sys) {
    && OnlyRead(s.hist.executed)
    && s.db.approvals == [] && s.db.resumes == [] && s.jobs == []
    && s.hist.approvedRuns == []
  }

  lemma HarmlessCall(c: Config, s: Sys, i: nat, facts: CallFacts)
    requires s.db.run.isRehearsal && Harmless(s) && Enabled(c, s, RunCall(i, facts))
    ensures Harmless(RunCallStep(s, i, facts))
  {
    hide WasRefused;
  }

  lemma HarmlessStep(c: Config, s: Sys, e: Event)
    requires s.db.run.isRehearsal && Harmless(s) && Enabled(c, s, e)
    ensures Harmless(Apply(c, s, e)) && Apply(c, s, e).db.run.isRehearsal
  {
    hide OnlyRead, RunCallStep, DecideApproval, Trim, Chars, LeftOrphan, BuildToolInteractionTurns, CancelCalls;
    if e.RunCall? {
      HarmlessCall(c, s, e.i, e.facts);
      RunRowKept(s, e.i, e.facts);
    }
  }

  lemma RunRowKept(s: Sys, i: nat, facts: CallFacts)
    requires i < |s.execs| && s.execs[i].phase.Batch? && s.execs[i].phase.next < |s.execs[i].phase.calls|
    ensures RunCallStep(s, i, facts).db.run == s.db.run
  {
    hide FateOf;
  }

  lemma {:induction false} HarmlessAlways(c: Config, s: Sys, run: seq<Event>)
    requires s.db.run.isRehearsal && Harmless(s) && Valid(c, s, run)
    ensures Harmless(Replay(c, s, run))
    decreases |run|
  {
    hide Harmless, Apply, Enabled;
    if run != [] {
      HarmlessStep(c, s, run[0]);
      HarmlessAlways(c, Apply(c, s, run[0]), run[1..]);
    }
  }

  /** Over any whole rehearsal no tool that is not a plain read is executed and no approval is created. */
  lemma RehearsalsOnlyRead(c: Config, start: Sys, run: seq<Event>)
    requires Initial(start) && start.db.run.isRehearsal && Valid(c, start, run)
    ensures var s := Replay(c, start, run);
            && OnlyRead(s.hist.executed)
            && s.db.approvals == [] && s.hist.approvedRuns == []
  {
    HarmlessAlways(c, start, run);
  }
}
