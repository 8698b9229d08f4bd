/** A refusal outlives the segment it was made in: whatever happens to the run afterwards,
    the same call is answered with the refusal (convex/agentRunApprovals.ts:275-283,
    convex/agentObjectiveLoop.ts:245-246 and 590-715). */
module RefusalMemory {
  import opened Common
  import opened ToolGate
  import opened Transcript
  import opened RefusalKey
  import opened RunRecords
  import opened RunProtocol

  /** The key a step adds to the run's list, if it is a rejection of a recorded call. */
  function KeyRejectedBy(s: Sys, e: Event): seq<RefusedKey> {
    if e.Decide? && e.decision.Reject? && e.a < |s.db.approvals| && s.db.approvals[e.a].toolCall < |s.db.toolCalls| then
      var row := s.db.toolCalls[s.db.approvals[e.a].toolCall];
      [BuildRefusedToolCallKey(row.name, Readable(row.args))]
    else []
  }

  ghost function KeysRejected(c: Config, s: Sys, run: seq<Event>): seq<RefusedKey>
    requires Valid(c, s, run)
    decreases |run|
  {
    if run == [] then [] else KeyRejectedBy(s, run[0]) + KeysRejected(c, Apply(c, s, run[0]), run[1..])
  }

  lemma ListStep(c: Config, s: Sys, e: Event)
    requires Enabled(c, s, e)
    ensures Apply(c, s, e).db.run.refused == RefuseAll(s.db.run.refused, KeyRejectedBy(s, e))
  {
    hide BuildRefusedToolCallKey, AppendRefusedToolCall, FateOf, Trim, Chars, LeftOrphan, CallsOfRows,
         BuildToolInteractionTurns, RowsOfTurn, TakeRows, CancelRun, ExpireApprovals;
    var keys := KeyRejectedBy(s, e);
    if keys != [] {
      assert keys[..0] == [];
      assert RefuseAll(s.db.run.refused, keys) == AppendRefusedToolCall(s.db.run.refused, keys[0]);
    }
  }

  lemma {:induction false} RefuseAllAdds(existing: seq<RefusedKey>, a: seq<RefusedKey>, b: seq<RefusedKey>)
    ensures RefuseAll(existing, a + b) == RefuseAll(RefuseAll(existing, a), b)
    decreases |b|
  {
    if b == [] {
      assert a + b == a;
    } else {
      var n := |b| - 1;
      assert (a + b)[..|a + b| - 1] == a + b[..n] && (a + b)[|a + b| - 1] == b[n];
      RefuseAllAdds(existing, a, b[..n]);
    }
  }

  /** The stored list is exactly the rejections of the run, in order, through the bounded append. */
  lemma {:induction false} ListOverRun(c: Config, s: Sys, run: seq<Event>)
    requires Valid(c, s, run)
    ensures Replay(c, s, run).db.run.refused == RefuseAll(s.db.run.refused, KeysRejected(c, s, run))
    decreases |run|
  {
    hide Apply, Enabled, KeyRejectedBy, AppendRefusedToolCall;
    if run != [] {
      var s' := Apply(c, s, run[0]);
      ListStep(c, s, run[0]);
      ListOverRun(c, s', run[1..]);
      RefuseAllAdds(s.db.run.refused, KeyRejectedBy(s, run[0]), KeysRejected(c, s', run[1..]));
    }
  }

  lemma {:induction false} ListIsBounded(existing: seq<RefusedKey>, keys: seq<RefusedKey>)
    requires NoRepeats(existing) && |existing| <= REFUSED_TOOL_CALL_LIMIT
    ensures NoRepeats(RefuseAll(existing, keys)) && |RefuseAll(existing, keys)| <= REFUSED_TOOL_CALL_LIMIT
    decreases |keys|
  {
    if keys != [] {
      ListIsBounded(existing, keys[..|keys| - 1]);
    }
  }

  /** A call whose key is on the segment's list is answered DENIED: not queued, not executed. */
  lemma RefusedCallRunsNothing(c: Config, s: Sys, i: nat, facts: CallFacts)
    requires Enabled(c, s, RunCall(i, facts))
    requires WasRefused(s.execs[i], s.execs[i].phase.calls[s.execs[i].phase.next])
    ensures var s' := Apply(c, s, RunCall(i, facts));
            && s'.db.approvals == s.db.approvals
            && s'.hist.executed == s.hist.executed
            && s'.db.toolCalls[..|s.db.toolCalls|] == s.db.toolCalls
            && |s'.db.toolCalls| == |s.db.toolCalls| + 1
            && s'.db.toolCalls[|s.db.toolCalls|].status == Denied
  {
    hide WasRefused;
  }

  /**
   * After a first rejection of a call, through any run with fewer than fifty further distinct
   * rejections, every segment that enters the loop treats every call saying the same thing
   * to the same tool as refused.
   */
  lemma RefusalOutlivesSegments(c: Config, s: Sys, a: nat, reason: string, run: seq<Event>, i: nat, call: Call)
    requires Reachable(c, s) && CanDecide(s.db, a) && s.db.approvals[a].toolCall < |s.db.toolCalls|
    requires var row := s.db.toolCalls[s.db.approvals[a].toolCall];
             && BuildRefusedToolCallKey(row.name, Readable(row.args)) !in s.db.run.refused
             && call.name == row.name && Seen(call.args) == Seen(row.args)
    requires Valid(c, Apply(c, s, Decide(a, Reject(reason))), run)
    requires var after := Apply(c, s, Decide(a, Reject(reason)));
             && |set k | k in KeysRejected(c, after, run)| < REFUSED_TOOL_CALL_LIMIT
             && Enabled(c, Replay(c, after, run), EnterLoop(i))
    ensures var entered := Apply(c, Replay(c, Apply(c, s, Decide(a, Reject(reason))), run), EnterLoop(i));
            WasRefused(entered.execs[i], call)
  {
    hide Valid, Replay, KeysRejected, DecideApproval, RefuseAll, BuildRefusedToolCallKey;
    var e := Decide(a, Reject(reason));
    var after := Apply(c, s, e);
    var row := s.db.toolCalls[s.db.approvals[a].toolCall];
    var key := BuildRefusedToolCallKey(row.name, Readable(row.args));
    var later := KeysRejected(c, after, run);
    KeyDecidesSeen(row.name, call.args, row.args);
    ReachableList(c, s);
    ListStep(c, s, e);
    OneKey(s.db.run.refused, key);
    assert KeyRejectedBy(s, e) == [key];
    ListOverRun(c, after, run);
    RefusalIsRemembered(s.db.run.refused, key, later);
  }

  lemma OneKey(existing: seq<RefusedKey>, key: RefusedKey)
    ensures RefuseAll(existing, [key]) == AppendRefusedToolCall(existing, key)
  {
    assert [key][..0] == [];
    assert RefuseAll(existing, []) == existing;
  }

  lemma ReachableList(c: Config, s: Sys)
    requires Reachable(c, s)
    ensures NoRepeats(s.db.run.refused) && |s.db.run.refused| <= REFUSED_TOOL_CALL_LIMIT
  {
    var start, run :| Initial(start) && Valid(c, start, run) && Replay(c, start, run) == s;
    ListOverRun(c, start, run);
    ListIsBounded([], KeysRejected(c, start, run));
  }
}
