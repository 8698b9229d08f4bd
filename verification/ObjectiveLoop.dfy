/** The objective loop as it is written: a loop over local variables and rows, suspended at
    every await while an operator, an approver, the sweeper, the clock or the resume actions of
    earlier decisions act. Whatever they do, the loop performs a run of the step system of
    `RunProtocol`, so everything proved of runs holds of it
    (convex/agentObjectiveLoop.ts:195-320, 438-560, 593-960). */
module ObjectiveLoop {
  import opened Common
  import opened ToolGate
  import opened Transcript
  import opened RefusalKey
  import opened RunRecords
  import opened RunStore
  import opened RunProtocol
  import LeaseExclusion
  import TranscriptInvariant

  /** What the platform does with an action at an await. */
  datatype Fortune = Continues | Killed | Throws

  /** One await: who acts meanwhile, whether the action survives, and what it is answered. */
  datatype Moment = Moment(others: seq<Event>, fortune: Fortune, calls: seq<Call>, overBudget: bool, facts: CallFacts)

  /** The answer of a world that has nothing more to say. */
  function Absent(): CallFacts {
    CallFacts(Validation(false, ""), None, Allowed, Outcome(Failed, RehearsedPayload))
  }

  /** The action survives this await. */
  predicate Survives(m: Moment) {
    m.fortune == Continues && m.facts.ran.status in {Success, NotImplemented, Failed}
  }

  /** Arguments that are no object: asking for such a call makes the action throw. */
  predicate Malformed(calls: seq<Call>) {
    exists i :: 0 <= i < |calls| && !calls[i].args.Obj?
  }

  /** Steps of the action itself. */
  ghost function Own(run: seq<Event>): nat {
    if run == [] then 0 else Own(run[..|run| - 1]) + if OfAction(run[|run| - 1]) then 1 else 0
  }

  /** What may be done to the run by someone else while the action lives. */
  predicate Interferes(e: Event) {
    e.Tick? || e.Sweep? || e.Cancel? || e.Decide? || e.Expire? || e.StartResume? || e.FinishHandler? || e.Settle? || e.KillResume?
  }

  /** Of the steps others offer from `s` on, those taken: each that may happen when its turn comes. */
  ghost function Taken(c: Config, s: Sys, offered: seq<Event>): seq<Event>
    decreases |offered|
  {
    if offered == [] then []
    else if Interferes(offered[0]) && Enabled(c, s, offered[0]) then
      [offered[0]] + Taken(c, Apply(c, s, offered[0]), offered[1..])
    else Taken(c, s, offered[1..])
  }

  /** `executed` is what there was and the answer to this call. */
  predicate IsAnswerTo(call: Call, executed: seq<ExecutedCall>, was: seq<ExecutedCall>) {
    |executed| == |was| + 1 && executed[..|was|] == was
    && executed[|was|].name == call.name && executed[|was|].args == call.args && executed[|was|].signature == call.signature
  }

  datatype Exit = GoesOn | Stopped | HandedOver | Parked | Concluded | Died

  class ObjectiveAction {
    const c: Config
    const store: Store
    const born: int
    const segmentCount: nat

    /** What the world does at each await, and how much of it has been used up. */
    const world: seq<Moment>
    var used: nat

    var now: int

    /** Resume actions of this run that are under way beside the loop. */
    var jobs: seq<Job>

    var segmentStart: int
    var clockFrom: int
    var refusedToolCalls: seq<RefusedKey>
    var isRehearsalRun: bool
    var loopIndex: nat
    var toolCallCount: nat
    var turnsThisSegment: nat
    var conversationHistory: seq<Turn>

    /** The step system alongside: where it began, the steps taken, and where it stands. */
    ghost const start: Sys
    ghost var trace: seq<Event>
    ghost var sys: Sys

    ghost function Me(phase: Phase): Exec
      reads `segmentStart, `clockFrom, `refusedToolCalls, `loopIndex, `toolCallCount, `turnsThisSegment, `conversationHistory
    {
      Exec(born, segmentStart, clockFrom, phase, loopIndex, toolCallCount, conversationHistory, segmentCount,
           turnsThisSegment, refusedToolCalls)
    }

    ghost predicate Traced()
      reads `trace, `sys
    {
      RunProtocol.Valid(c, start, trace) && Replay(c, start, trace) == sys
    }

    /** The step system agrees with the variables and rows: this one action, in this phase. */
    ghost predicate Live(phase: Phase)
      reads `trace, `sys, `now, `jobs, `isRehearsalRun, `segmentStart, `clockFrom, `refusedToolCalls, `loopIndex, `toolCallCount, `turnsThisSegment, `conversationHistory, store
    {
      && Traced() && sys == Sys(now, store.Rows(), [Me(phase)], jobs, sys.hist)
      && isRehearsalRun == sys.db.run.isRehearsal
    }

    /** It agrees with the rows, and the action is gone in the way its last step tells. */
    ghost predicate Left(exit: Exit)
      reads `trace, `sys, `now, `jobs, store
    {
      && Traced() && sys == Sys(now, store.Rows(), [], jobs, sys.hist)
      && trace != []
      && var last := trace[|trace| - 1];
         match exit
         case GoesOn => false
         case Stopped => last == LoopTop(0) || last == CheckStop(0)
         case HandedOver => last == ScheduleHandover(0)
         case Parked => last == ParkSave(0)
         case Concluded => last == ClearFinal(0)
         case Died => last == Kill(0) || last == Throw(0)
    }

    /** Own steps taken, less moments used up: a moment is used up only by a step. */
    ghost function Balance(): int
      reads `trace, `used
    {
      Own(trace) - used
    }

    /** The action survived every moment used up in between. */
    ghost predicate Lived(from: nat, to: nat) {
      from <= to && forall i :: from <= i < to && i < |world| ==> Survives(world[i])
    }

    /** It did not survive the last of them, or there was none left. */
    ghost predicate Doomed(from: nat, to: nat) {
      (to >= |world| && Lived(from, to)) || (from < to <= |world| && Lived(from, to - 1) && !Survives(world[to - 1]))
    }

    /** One of the answers used up asked for a malformed call. */
    ghost predicate AskedForNonsense(from: nat, to: nat) {
      exists i :: from <= i < to && i < |world| && Malformed(world[i].calls)
    }

    /** What moment `k` of the world answers to this call is what the model is told: the gate's answer, or
        the handler's own. */
    ghost predicate Gave(k: nat, call: Call, told: ExecutedCall)
      reads `refusedToolCalls, `isRehearsalRun
    {
      && k < |world| && told.name == call.name && told.args == call.args && told.signature == call.signature
      && var facts := world[k].facts;
         var fate := CallFate(call.name, BuildRefusedToolCallKey(call.name, Readable(call.args)) in refusedToolCalls, facts.schema,
                              isRehearsalRun, facts.metadata, facts.access);
         !fate.Queue? && told.payload == if fate.Answer? then fate.outcome.payload else facts.ran.payload
    }

    ghost predicate Given(call: Call, told: ExecutedCall, from: nat, to: nat)
      reads `refusedToolCalls, `isRehearsalRun
    {
      exists k :: from <= k < to && Gave(k, call, told)
    }

    /** The first calls of a turn, each told what some moment of it gave. */
    ghost predicate InOrder(calls: seq<Call>, told: seq<ExecutedCall>, from: nat, to: nat)
      reads `refusedToolCalls, `isRehearsalRun
    {
      |told| <= |calls| && forall i :: 0 <= i < |told| ==> Given(calls[i], told[i], from, to)
    }

    lemma NextInOrder(calls: seq<Call>, was: seq<ExecutedCall>, told: seq<ExecutedCall>, from: nat, mid: nat, to: nat)
      requires InOrder(calls, was, from, mid) && |was| < |calls| && from <= mid <= to
      requires IsAnswerTo(calls[|was|], told, was) && Given(calls[|was|], told[|was|], mid, to)
      ensures InOrder(calls, told, from, to)
    {
      hide Gave;
      forall i | 0 <= i < |told|
        ensures Given(calls[i], told[i], from, to)
      {
        if i < |was| {
          assert told[i] == told[..|was|][i] == was[i];
          assert Given(calls[i], was[i], from, mid);
        }
      }
    }

    /** The conversation gains the turns that tell every call of the turn, in request order, what its
        own moment gave - and nothing else. */
    ghost predicate TurnAnswered(was: seq<Turn>, turns: seq<Turn>, calls: seq<Call>, from: nat, to: nat)
      reads `refusedToolCalls, `isRehearsalRun
    {
      && |was| <= |turns| && turns[..|was|] == was
      && exists told :: |told| == |calls| && InOrder(calls, told, from, to) && Tell(turns[|was|..], told)
    }

    /** A continuation picked up from the checkpoint, or a fresh objective. */
    constructor (c: Config, store: Store, now: int, jobs: seq<Job>, world: seq<Moment>, begun: Exec, ghost hist: History)
      requires begun.phase.Loading?
      ensures this.c == c && this.store == store && this.world == world && used == 0
      ensures start == Sys(now, store.Rows(), [begun], jobs, hist) && trace == [] && Live(Loading)
    {
      this.c, this.store, this.now, this.jobs, this.world, used := c, store, now, jobs, world, 0;
      born, segmentCount := begun.born, begun.segmentCount;
      segmentStart, clockFrom, refusedToolCalls := begun.segmentStart, begun.clockFrom, begun.refused;
      loopIndex, toolCallCount, turnsThisSegment := begun.loopIndex, begun.toolCallCount, begun.turns;
      conversationHistory, isRehearsalRun := begun.transcript, store.run.isRehearsal;
      start, trace := Sys(now, store.Rows(), [begun], jobs, hist), [];
      sys := Sys(now, store.Rows(), [begun], jobs, hist);
    }

    ghost method Took(e: Event)
      requires Traced() && Enabled(c, sys, e)
      modifies this`trace, this`sys
      ensures Traced() && sys == Apply(c, old(sys), e) && trace == old(trace) + [e]
      ensures Own(trace) == Own(old(trace)) + if OfAction(e) then 1 else 0
    {
      Extend(c, start, trace, e);
      trace := trace + [e];
      sys := Apply(c, sys, e);
      assert trace[..|trace| - 1] == old(trace);
    }

    // ---------------------------------------------------------------------- awaiting

    /** How long the platform lets this action go on from here. */
    function DeadlineIn(phase: Phase): int {
      var end := born + AGENT_RUN_MAX_ACTION_LIFETIME_MS;
      if phase.HandingOver? && phase.savedAt + c.handoverDelay < end then phase.savedAt + c.handoverDelay else end
    }

    method ResumeStarts(k: nat, ghost phase: Phase)
      requires Live(phase) && k < |store.resumes|
      modifies this`jobs, this`trace, this`sys, store
      ensures Live(phase) && trace == old(trace) + [StartResume(k)] && Own(trace) == Own(old(trace))
    {
      hide Traced, GetSettlement, Own;
      Took(StartResume(k));
      var job := store.TakeResume(k);
      if job.approval >= |store.approvals| {
        return;
      }
      var approval := store.approvals[job.approval];
      if job.refused {
        var settlement := store.GetSettlementAfterDecisionInternal(job.approval);
        if approval.status == Rejected && settlement.settled {
          jobs := jobs + [Settling(job.approval, settlement, false)];
        }
      } else if approval.status == Approved && approval.toolCall < |store.toolCalls|
                && store.toolCalls[approval.toolCall].status == Pending {
        jobs := jobs + [Running(job.approval)];
      }
    }

    method HandlerFinishes(k: nat, succeeded: bool, payload: Payload, ghost phase: Phase)
      requires Live(phase) && k < |jobs| && jobs[k].Running? && jobs[k].approval < |store.approvals|
      modifies this`jobs, this`trace, this`sys, store
      ensures Live(phase) && trace == old(trace) + [FinishHandler(k, succeeded, payload)] && Own(trace) == Own(old(trace))
    {
      hide Traced, GetSettlement, Own;
      Took(FinishHandler(k, succeeded, payload));
      var a := jobs[k].approval;
      var settlement := store.RecordApprovedToolResultInternal(a, succeeded, payload);
      jobs := if settlement.settled then jobs[k := Settling(a, settlement, succeeded)] else jobs[..k] + jobs[k + 1..];
    }

    method BatchSettles(k: nat, ghost phase: Phase)
      requires Live(phase) && k < |jobs| && jobs[k].Settling?
      modifies this`jobs, this`trace, this`sys, store
      ensures Live(phase) && trace == old(trace) + [Settle(k)] && Own(trace) == Own(old(trace))
    {
      hide Traced, Own, SettledTranscript;
      Took(Settle(k));
      var job := jobs[k];
      store.SettleBatch(job.settlement, job.succeeded, now, c.cap);
      jobs := jobs[..k] + jobs[k + 1..];
    }

    method TimePasses(to: int, phase: Phase)
      requires Live(phase)
      modifies this`now, this`trace, this`sys
      ensures Live(phase) && Own(trace) == Own(old(trace))
      ensures trace == if MayTick(c, old(sys), to) then old(trace) + [Tick(to)] else old(trace)
    {
      hide Traced, Own;
      assert sys.execs[0] == Me(phase) && sys.db.continuations == store.continuations;
      if now <= to <= DeadlineIn(phase)
         && forall k :: 0 <= k < |store.continuations| ==> to <= store.continuations[k] + c.startSlack {
        Took(Tick(to));
        now := to;
      }
    }

    method SweeperActs(ghost phase: Phase)
      requires Live(phase)
      modifies this`trace, this`sys, store
      ensures Live(phase) && Own(trace) == Own(old(trace)) && trace == old(trace) + [Sweep]
    {
      hide Traced, Own, Chars;
      Took(Sweep);
      var _ := store.RecoverStalledRuns(now);
    }

    method PeopleAct(e: Event, ghost phase: Phase)
      requires Live(phase) && (e.Cancel? || e.Decide? || e.Expire?)
      modifies this`trace, this`sys, store
      ensures Live(phase) && Own(trace) == Own(old(trace))
      ensures trace == if Enabled(c, old(sys), e) then old(trace) + [e] else old(trace)
    {
      hide Traced, Own, CancelRun, DecideApproval, CancelWaiting, CloseApprovals;
      match e {
        case Cancel =>
          if IsCancelable(store.run.status) {
            Took(e);
            var _ := store.CancelRunByAdmin();
          }
        case Decide(a, decision) =>
          var r := store.DecideApprovalByAdmin(a, decision);
          if r == Decided {
            Took(e);
          }
        case Expire =>
          var expired := store.ExpireStalePendingApprovals();
          if expired {
            Took(e);
          }
      }
    }

    method ResumeDies(k: nat, ghost phase: Phase)
      requires Live(phase) && k < |jobs|
      modifies this`jobs, this`trace, this`sys
      ensures Live(phase) && Own(trace) == Own(old(trace)) && trace == old(trace) + [KillResume(k)]
    {
      hide Traced, Own;
      Took(KillResume(k));
      jobs := jobs[..k] + jobs[k + 1..];
    }

    /** Someone else's step: taken whenever it is one that may happen now, and otherwise not. */
    method OtherActs(e: Event, phase: Phase)
      requires Live(phase)
      modifies this`now, this`jobs, this`trace, this`sys, store
      ensures Live(phase) && Own(trace) == Own(old(trace))
      ensures Interferes(e) && Enabled(c, old(sys), e) ==> trace == old(trace) + [e]
      ensures !(Interferes(e) && Enabled(c, old(sys), e)) ==> trace == old(trace)
    {
      hide Traced, Own, MayTick;
      match e {
        case Tick(to) => TimePasses(to, phase);
        case Sweep => SweeperActs(phase);
        case Cancel => PeopleAct(e, phase);
        case Decide(_, _) => PeopleAct(e, phase);
        case Expire => PeopleAct(e, phase);
        case StartResume(k) =>
          if k < |store.resumes| {
            ResumeStarts(k, phase);
          }
        case FinishHandler(k, succeeded, payload) =>
          if k < |jobs| && jobs[k].Running? && jobs[k].approval < |store.approvals| {
            HandlerFinishes(k, succeeded, payload, phase);
          }
        case Settle(k) =>
          if k < |jobs| && jobs[k].Settling? {
            BatchSettles(k, phase);
          }
        case KillResume(k) =>
          if k < |jobs| {
            ResumeDies(k, phase);
          }
        case _ =>
      }
    }

    /** All that others offer is played, step by step, by everyone who may. */
    method OthersAct(others: seq<Event>, phase: Phase)
      requires Live(phase)
      modifies this`now, this`jobs, this`trace, this`sys, store
      ensures Live(phase) && Own(trace) == Own(old(trace))
      ensures trace == old(trace) + Taken(c, old(sys), others)
    {
      hide Live, Own, Apply, Enabled;
      for i := 0 to |others|
        invariant Live(phase) && Own(trace) == Own(old(trace))
        invariant old(trace) + Taken(c, old(sys), others) == trace + Taken(c, sys, others[i..])
      {
        assert others[i..][0] == others[i] && others[i..][1..] == others[i + 1..];
        ghost var before, from := trace, sys;
        TracedWhileLive(phase);
        OtherActs(others[i], phase);
        TracedWhileLive(phase);
        if trace == before + [others[i]] {
          Extend(c, start, before, others[i]);
        }
      }
      assert others[|others|..] == [];
    }

    lemma TracedWhileLive(phase: Phase)
      requires Live(phase)
      ensures RunProtocol.Valid(c, start, trace) && Replay(c, start, trace) == sys
    {
    }

    /** Suspended: others do all they may of what they offer, and the action may be killed or may throw,
        which its caller turns into a failed run without a checkpoint. */
    method Await(phase: Phase) returns (m: Moment, alive: bool)
      requires Live(phase)
      modifies this`now, this`jobs, this`used, this`trace, this`sys, store
      ensures var offered := if old(used) < |world| then world[old(used)].others else [];
              var taken := old(trace) + Taken(c, old(sys), offered);
              if alive then Live(phase) && trace == taken
              else Left(Died) && (trace == taken + [Kill(0)] || trace == taken + [Throw(0)])
      ensures alive <==> old(used) < |world| && Survives(world[old(used)])
      ensures alive ==> m == world[old(used)] && used == old(used) + 1 && Lived(old(used), used)
      ensures !alive ==> Doomed(old(used), used)
      ensures Balance() >= old(Balance()) - if alive then 1 else 0
    {
      hide Live, Left, Own;
      m := Moment([], Killed, [], false, Absent());
      if used < |world| {
        m := world[used];
        used := used + 1;
      }
      OthersAct(m.others, phase);
      alive := Survives(m);
      if !alive {
        Die(m.fortune == Throws, phase);
      }
    }

    method Die(throws: bool, ghost phase: Phase)
      requires Live(phase)
      modifies this`trace, this`sys, store
      ensures Left(Died) && trace == old(trace) + [if throws then Throw(0) else Kill(0)] && Own(trace) == Own(old(trace)) + 1
    {
      hide Traced, UpdateRunStatus, Own;
      if throws {
        Took(Throw(0));
        store.UpdateRunStatusInternal(RunFailed);
        store.ClearCheckpointInternal();
      } else {
        Took(Kill(0));
      }
    }

    // ------------------------------------------------------------------ loop helpers

    method ReadStopRequest() returns (stopped: bool)
      ensures stopped == IsRunStopRequested(store.run.status)
    {
      stopped := IsRunStopRequested(store.run.status);
    }

    method SaveCheckpoint(status: CheckpointStatus, nextLoopIndex: nat, ghost phase: Phase) returns (saved: bool)
      modifies store
      ensures saved == Storable(Trim(conversationHistory, c.cap), c.cap)
      ensures store.Rows() == LoopSave(c, old(store.Rows()), Me(phase), status, nextLoopIndex, now)
      ensures !saved ==> store.Rows() == old(store.Rows())
    {
      hide Trim, Chars;
      var kept, serialized, trimmed := TrimConversationForCheckpoint(conversationHistory, c.cap);
      if serialized > c.cap {
        return false;
      }
      store.SaveCheckpointInternal(
        Save(status, kept, nextLoopIndex, toolCallCount, segmentCount, c.threaded), now);
      saved := true;
    }

    /** The run's status is left to whoever stopped it. */
    method ConcludeStoppedRun()
      modifies store
      ensures store.Rows() == ClearCheckpoint(old(store.Rows()))
    {
      store.ClearCheckpointInternal();
    }

    /** The end of the loop: the final status, then the saved position goes. */
    method Conclude(outcome: RunStatus) returns (exit: Exit)
      requires Live(Finishing(outcome))
      modifies this`now, this`jobs, this`used, this`trace, this`sys, store
      ensures Left(exit) && old(trace) < trace && Balance() >= old(Balance())
      ensures if exit == Died then Doomed(old(used), used) else Lived(old(used), used)
      ensures exit in {Concluded, Died}
    {
      hide Live, Left, Own;
      var _, alive := Await(Finishing(outcome));
      if !alive {
        return Died;
      }
      WriteFinalStatus(outcome);
      var _, aliveStill := Await(Clearing);
      if !aliveStill {
        return Died;
      }
      ClearAtTheEnd();
      exit := Concluded;
    }

    method WriteFinalStatus(outcome: RunStatus)
      requires Live(Finishing(outcome))
      modifies this`trace, this`sys, store
      ensures Live(Clearing) && old(trace) < trace && Own(trace) == Own(old(trace)) + 1
    {
      hide Traced, Own;
      Took(WriteFinal(0));
      store.UpdateRunStatusInternal(outcome);
    }

    method ClearAtTheEnd()
      requires Live(Clearing)
      modifies this`trace, this`sys, store
      ensures Left(Concluded) && old(trace) < trace && Own(trace) == Own(old(trace)) + 1
    {
      hide Traced, Own;
      Took(ClearFinal(0));
      store.ClearCheckpointInternal();
    }

    /** Saved already; the successor is scheduled by a mutation of its own. */
    method HandOver(savedAt: int) returns (exit: Exit)
      requires Live(HandingOver(savedAt))
      modifies this`now, this`jobs, this`used, this`trace, this`sys, store
      ensures Left(exit) && old(trace) < trace && Balance() >= old(Balance())
      ensures if exit == Died then Doomed(old(used), used) else Lived(old(used), used)
      ensures exit in {HandedOver, Died}
    {
      hide Live, Left, Own;
      var _, alive := Await(HandingOver(savedAt));
      if !alive {
        return Died;
      }
      ScheduleSuccessor(HandingOver(savedAt));
      exit := HandedOver;
    }

    method ScheduleSuccessor(ghost phase: Phase)
      requires Live(phase) && phase.HandingOver?
      modifies this`trace, this`sys, store
      ensures Left(HandedOver) && old(trace) < trace && Own(trace) == Own(old(trace)) + 1
    {
      hide Traced, Own;
      Took(ScheduleHandover(0));
      store.ScheduleContinuation(now);
    }

    // -------------------------------------------------------------------- tool batch

    /** One requested call, decided, possibly executed, and written down. */
    method RunToolCall(call: Call, facts: CallFacts, ghost b: Phase, executedCalls: seq<ExecutedCall>, deferred: nat)
      returns (executed': seq<ExecutedCall>, deferred': nat)
      requires b.Batch? && b.cleared && Live(b) && b.next < |b.calls| && call == b.calls[b.next] && call.args.Obj?
      requires b.executed == executedCalls && b.deferred == deferred
      requires facts.ran.status in {Success, NotImplemented, Failed}
      modifies this`toolCallCount, this`trace, this`sys, store
      ensures toolCallCount == old(toolCallCount) + 1
      ensures Live(Batch(b.calls, b.next + 1, false, executed', deferred')) && old(trace) < trace && Own(trace) == Own(old(trace)) + 1
      ensures if deferred' == deferred then
                && IsAnswerTo(call, executed', executedCalls)
                && forall k :: 0 <= k < |world| && world[k].facts == facts ==> Gave(k, call, executed'[|executedCalls|])
              else deferred' == deferred + 1 && executed' == executedCalls
    {
      hide Traced, ShouldRequestToolApproval, ResolveToolCallWithoutExecution, BuildRefusedToolCallKey, Own;
      var wasRefused := BuildRefusedToolCallKey(call.name, Readable(call.args)) in refusedToolCalls;
      assert wasRefused == WasRefused(sys.execs[0], call);
      executed', deferred' := executedCalls, deferred;
      if facts.metadata.Some? && ShouldRequestToolApproval(isRehearsalRun, wasRefused, facts.schema.ok, facts.access) {
        QueueCall(call, facts, b);
        deferred' := deferred + 1;
        return;
      }
      var preResolved := ResolveToolCallWithoutExecution(call.name, wasRefused, facts.schema, isRehearsalRun, facts.metadata, facts.access);
      var outcome := if preResolved.Some? then preResolved.value else facts.ran;
      RecordCall(call, outcome, facts, b);
      executed' := executedCalls + [ExecutedCall(call.name, call.args, outcome.payload, call.signature)];
    }

    /** The call waits: its row without a result, and a request for approval pointing at it. */
    method QueueCall(call: Call, ghost facts: CallFacts, ghost b: Phase)
      requires b.Batch? && b.cleared && Live(b) && b.next < |b.calls| && call == b.calls[b.next] && call.args.Obj?
      requires facts.ran.status in {Success, NotImplemented, Failed} && FateOf(sys, sys.execs[0], call, facts).Queue?
      modifies this`toolCallCount, this`trace, this`sys, store
      ensures toolCallCount == old(toolCallCount) + 1 && old(trace) < trace && Own(trace) == Own(old(trace)) + 1
      ensures Live(Batch(b.calls, b.next + 1, false, b.executed, b.deferred + 1))
    {
      hide Traced, FateOf, Own;
      Took(RunCall(0, facts));
      toolCallCount := toolCallCount + 1;
      var id := store.InsertToolCallInternal(ToolCallRow(call.name, call.args, None, ApprovalRequired, loopIndex, call.signature));
      store.InsertApprovalInternal(id);
    }

    /** The call has its outcome: one row carries it. */
    method RecordCall(call: Call, outcome: Outcome, ghost facts: CallFacts, ghost b: Phase)
      requires b.Batch? && b.cleared && Live(b) && b.next < |b.calls| && call == b.calls[b.next] && call.args.Obj?
      requires facts.ran.status in {Success, NotImplemented, Failed} && !FateOf(sys, sys.execs[0], call, facts).Queue?
      requires var fate := FateOf(sys, sys.execs[0], call, facts);
               outcome == if fate.Answer? then fate.outcome else facts.ran
      modifies this`toolCallCount, this`trace, this`sys, store
      ensures toolCallCount == old(toolCallCount) + 1 && old(trace) < trace && Own(trace) == Own(old(trace)) + 1
      ensures Live(Batch(b.calls, b.next + 1, false,
                         b.executed + [ExecutedCall(call.name, call.args, outcome.payload, call.signature)], b.deferred))
    {
      hide Traced, FateOf, Own;
      Took(RunCall(0, facts));
      toolCallCount := toolCallCount + 1;
      var _ := store.InsertToolCallInternal(
        ToolCallRow(call.name, call.args, Some(outcome.payload), outcome.status, loopIndex, call.signature));
    }

    /** The whole batch waits for people: the status first, then the position, and the action ends. */
    method Park(calls: seq<Call>, next: nat, executedCalls: seq<ExecutedCall>, deferred: nat) returns (exit: Exit)
      requires Live(Batch(calls, next, false, executedCalls, deferred)) && deferred > 0
      requires next >= |calls| || toolCallCount >= c.maxToolCalls
      modifies this`now, this`jobs, this`used, this`trace, this`sys, store
      ensures Left(exit) && old(trace) < trace && Balance() >= old(Balance())
      ensures if exit == Died then Doomed(old(used), used) else Lived(old(used), used)
      ensures exit in {Exit.Parked, Died}
    {
      hide Live, Left, Own;
      var _, alive := Await(Batch(calls, next, false, executedCalls, deferred));
      if !alive {
        return Died;
      }
      MarkPendingApproval(Batch(calls, next, false, executedCalls, deferred));
      var _, aliveStill := Await(Phase.Parking);
      if !aliveStill {
        return Died;
      }
      SaveParked();
      exit := Exit.Parked;
    }

    method MarkPendingApproval(ghost b: Phase)
      requires Live(b) && b.Batch? && !b.cleared && b.deferred > 0
      requires b.next >= |b.calls| || toolCallCount >= c.maxToolCalls
      modifies this`trace, this`sys, store
      ensures Live(Phase.Parking) && old(trace) < trace && Own(trace) == Own(old(trace)) + 1
    {
      hide Traced, Own;
      Took(EndBatch(0));
      store.UpdateRunStatusInternal(RunPendingApproval);
    }

    method SaveParked()
      requires Live(Phase.Parking)
      modifies this`trace, this`sys, store
      ensures Left(Exit.Parked) && old(trace) < trace && Own(trace) == Own(old(trace)) + 1
    {
      hide Traced, LoopSave, LeftOrphan, Own;
      Took(ParkSave(0));
      var _ := SaveCheckpoint(AwaitingApproval, loopIndex + 1, Phase.Parking);
    }

    /** Nothing waits: the batch is answered in the conversation before any stop or save. */
    method EndTurn(calls: seq<Call>, next: nat, executedCalls: seq<ExecutedCall>) returns (exit: Exit)
      requires Live(Batch(calls, next, false, executedCalls, 0))
      requires next >= |calls| || toolCallCount >= c.maxToolCalls
      modifies this`now, this`jobs, this`used, this`trace, this`sys, store, this`conversationHistory, this`loopIndex
      ensures if exit == GoesOn then Live(Top) && loopIndex == old(loopIndex) + 1 else Left(exit)
      ensures old(trace) < trace && Balance() >= old(Balance()) && exit in {GoesOn, Concluded, Died}
      ensures if exit == Died then Doomed(old(used), used) else Lived(old(used), used)
      ensures conversationHistory == old(conversationHistory) + BuildToolInteractionTurns(executedCalls)
      ensures exit == GoesOn <==> next >= |calls|
    {
      hide Live, Left, Own, BuildToolInteractionTurns;
      AnswerBatch(Batch(calls, next, false, executedCalls, 0));
      if next < |calls| {
        exit := Conclude(RunFailed);
      } else {
        exit := GoesOn;
      }
    }

    /** The turns are appended; a batch cut short by the tool budget ends the run, a whole one is saved. */
    method AnswerBatch(b: Phase)
      requires b.Batch? && !b.cleared && Live(b) && b.deferred == 0
      requires b.next >= |b.calls| || toolCallCount >= c.maxToolCalls
      modifies this`trace, this`sys, this`conversationHistory, this`loopIndex, store
      ensures old(trace) < trace && Own(trace) == Own(old(trace)) + 1
      ensures conversationHistory == old(conversationHistory) + BuildToolInteractionTurns(b.executed)
      ensures if b.next < |b.calls| then Live(Finishing(RunFailed)) else Live(Top) && loopIndex == old(loopIndex) + 1
    {
      hide Traced, LoopSave, LeftOrphan, BuildToolInteractionTurns, Trim, Chars, RunCallStep, TopStep, ParkSaveStep, Own;
      Took(EndBatch(0));
      conversationHistory := conversationHistory + BuildToolInteractionTurns(b.executed);
      if b.next >= |b.calls| {
        var _ := SaveCheckpoint(Active, loopIndex + 1, b);
        loopIndex := loopIndex + 1;
      }
    }

    /** A cancellation that arrived since the last call keeps the rest of the batch from running. */
    method StopBeforeCall(ghost b: Phase) returns (stopped: bool)
      requires Live(b) && b.Batch? && !b.cleared && b.next < |b.calls| && toolCallCount < c.maxToolCalls
      modifies this`trace, this`sys, store
      ensures stopped == IsRunStopRequested(old(store.run).status)
      ensures if stopped then Left(Stopped) else Live(b.(cleared := true))
      ensures old(trace) < trace && Own(trace) == Own(old(trace)) + 1
    {
      hide Traced, Own;
      Took(CheckStop(0));
      stopped := ReadStopRequest();
      if stopped {
        ConcludeStoppedRun();
      }
    }

    /** One call of the batch, from the stop check to its row. */
    method NextCall(b: Phase) returns (exit: Exit, executed': seq<ExecutedCall>, deferred': nat)
      requires b.Batch? && !b.cleared && Live(b) && b.next < |b.calls| && toolCallCount < c.maxToolCalls
      modifies this`now, this`jobs, this`used, this`trace, this`sys, store, this`toolCallCount
      ensures old(trace) < trace && Balance() >= old(Balance()) && exit in {GoesOn, Stopped, Died}
      ensures if exit == GoesOn then Live(Batch(b.calls, b.next + 1, false, executed', deferred')) else Left(exit)
      ensures if exit == Died then Doomed(old(used), used) || (Lived(old(used), used) && !b.calls[b.next].args.Obj?)
              else Lived(old(used), used)
      ensures exit == GoesOn ==> if deferred' == b.deferred then
                                   && IsAnswerTo(b.calls[b.next], executed', b.executed)
                                   && Given(b.calls[b.next], executed'[|b.executed|], old(used), used)
                                 else deferred' == b.deferred + 1 && executed' == b.executed
    {
      hide Live, Left, Own, Gave;
      executed', deferred' := b.executed, b.deferred;
      var _, alive := Await(b);
      if !alive {
        return Died, executed', deferred';
      }
      var stopped := StopBeforeCall(b);
      if stopped {
        return Stopped, executed', deferred';
      }
      if !b.calls[b.next].args.Obj? {
        Die(true, b.(cleared := true));
        return Died, executed', deferred';
      }
      var m, aliveStill := Await(b.(cleared := true));
      if !aliveStill {
        return Died, executed', deferred';
      }
      ghost var k := used - 1;
      executed', deferred' := RunToolCall(b.calls[b.next], m.facts, b.(cleared := true), b.executed, b.deferred);
      assert world[k].facts == m.facts;
      exit := GoesOn;
    }

    /**
     * The calls of one turn, each decided after asking whether the run has been stopped. A turn that
     * goes on has answered every call in request order; one that concludes has used up the budget;
     * one that parks leaves the conversation as it was.
     */
    method RunBatch(funcCalls: seq<Call>) returns (exit: Exit)
      requires Live(Batch(funcCalls, 0, false, [], 0))
      modifies this`now, this`jobs, this`used, this`trace, this`sys, store, this`conversationHistory, this`loopIndex, this`toolCallCount
      ensures if exit == GoesOn then Live(Top) && loopIndex == old(loopIndex) + 1 else Left(exit)
      ensures old(trace) < trace && Balance() >= old(Balance()) && exit in {GoesOn, Stopped, Exit.Parked, Concluded, Died}
      ensures if exit == Died then Doomed(old(used), used) || (Lived(old(used), used) && Malformed(funcCalls))
              else Lived(old(used), used)
      ensures exit == GoesOn ==> TurnAnswered(old(conversationHistory), conversationHistory, funcCalls, old(used), used)
      ensures exit == Concluded ==> toolCallCount >= c.maxToolCalls
      ensures exit in {Stopped, Exit.Parked} ==> conversationHistory == old(conversationHistory)
    {
      hide Live, Left, Own, BuildToolInteractionTurns, Gave;
      var next, executedCalls, deferred := 0, [], 0;
      var overBudget := false;
      while next < |funcCalls| && !overBudget
        invariant next <= |funcCalls| && loopIndex == old(loopIndex) && old(trace) <= trace && Balance() >= old(Balance())
        invariant conversationHistory == old(conversationHistory) && Lived(old(used), used)
        invariant Live(Batch(funcCalls, next, false, executedCalls, deferred))
        invariant overBudget ==> toolCallCount >= c.maxToolCalls
        invariant deferred == 0 ==> |executedCalls| == next && InOrder(funcCalls, executedCalls, old(used), used)
        decreases |funcCalls| - next, !overBudget
      {
        if toolCallCount >= c.maxToolCalls {
          overBudget := true;
        } else {
          ghost var was, mid := executedCalls, used;
          exit, executedCalls, deferred := NextCall(Batch(funcCalls, next, false, executedCalls, deferred));
          if exit != GoesOn {
            return;
          }
          if deferred == 0 {
            NextInOrder(funcCalls, was, executedCalls, old(used), mid, used);
          }
          next := next + 1;
        }
      }
      if deferred > 0 {
        exit := Park(funcCalls, next, executedCalls, deferred);
      } else {
        exit := EndTurn(funcCalls, next, executedCalls);
        TurnsTellTheCalls(BuildToolInteractionTurns(executedCalls), executedCalls);
        assert conversationHistory[|old(conversationHistory)|..] == BuildToolInteractionTurns(executedCalls);
      }
    }

    // ----------------------------------------------------------------------- the loop

    /** Before a turn: stopped exactly when the run is over, handing over exactly when the segment
        has had its time and the position can be stored, otherwise one more model turn begun. */
    method BeginTurn() returns (exit: Exit)
      requires Live(Top) && loopIndex < c.maxSteps
      modifies this`now, this`jobs, this`used, this`trace, this`sys, store, this`turnsThisSegment
      ensures if exit == GoesOn then Live(Thinking) else Left(exit)
      ensures old(trace) < trace && Balance() >= old(Balance()) + 1 && exit in {GoesOn, Stopped, HandedOver, Died}
      ensures if exit == Died then Doomed(old(used), used) else Lived(old(used), used)
      ensures exit == Stopped <==> IsRunStopRequested(old(store.run).status)
      ensures exit == GoesOn <==> !IsRunStopRequested(old(store.run).status) && !DueToHandOver(old(now), old(turnsThisSegment))
    {
      hide Live, Left, Own, DueToHandOver;
      var stopped, saved := TakeStock();
      if stopped {
        return Stopped;
      }
      if saved {
        exit := HandOver(now);
      } else {
        exit := GoesOn;
      }
    }

    ghost predicate DueToHandOver(at: int, turns: nat)
      reads `segmentStart, `conversationHistory
    {
      turns > 0 && at - segmentStart >= AGENT_RUN_SEGMENT_BUDGET_MS && Storable(Trim(conversationHistory, c.cap), c.cap)
    }

    method TakeStock() returns (stopped: bool, saved: bool)
      requires Live(Top) && loopIndex < c.maxSteps
      modifies this`turnsThisSegment, this`trace, this`sys, store
      ensures old(trace) < trace && Own(trace) == Own(old(trace)) + 1
      ensures stopped == IsRunStopRequested(old(store.run).status)
      ensures saved <==> !stopped && DueToHandOver(now, old(turnsThisSegment))
      ensures if stopped then Left(Stopped) else if saved then Live(HandingOver(now)) else Live(Thinking)
    {
      hide Traced, LoopSave, LeftOrphan, Chars, Trim, Own;
      Took(LoopTop(0));
      saved := false;
      stopped := ReadStopRequest();
      if stopped {
        ConcludeStoppedRun();
        return;
      }
      if turnsThisSegment > 0 && now - segmentStart >= AGENT_RUN_SEGMENT_BUDGET_MS {
        saved := SaveCheckpoint(Active, loopIndex, Top);
        if saved {
          return;
        }
      }
      turnsThisSegment := turnsThisSegment + 1;
    }

    /** The model's answer ends the run, or asks for tools. */
    method TakeAnswer(m: Moment) returns (outcome: Option<RunStatus>)
      requires Live(Thinking)
      modifies this`trace, this`sys
      ensures if outcome.Some? then Live(Finishing(outcome.value)) else Live(Batch(m.calls, 0, false, [], 0))
      ensures old(trace) < trace && Own(trace) == Own(old(trace)) + 1
    {
      hide Traced, Own;
      Took(ModelTurn(0, m.calls, m.overBudget));
      if now - clockFrom >= c.maxRuntimeMs || m.overBudget {
        return Some(RunFailed);
      }
      if m.calls == [] {
        return Some(RunSuccess);
      }
      if toolCallCount >= c.maxToolCalls {
        return Some(RunFailed);
      }
      outcome := None;
    }

    method RunTurn() returns (exit: Exit)
      requires Live(Top) && loopIndex < c.maxSteps
      modifies this`now, this`jobs, this`used, this`trace, this`sys, store, this`conversationHistory, this`loopIndex, this`toolCallCount, this`turnsThisSegment
      ensures if exit == GoesOn then Live(Top) && loopIndex == old(loopIndex) + 1 else Left(exit)
      ensures old(trace) < trace && Balance() >= old(Balance())
      ensures if exit == Died then Doomed(old(used), used) || AskedForNonsense(old(used), used) else Lived(old(used), used)
    {
      hide Live, Left, Own, DueToHandOver, TurnAnswered, Malformed;
      var _, alive := Await(Top);
      if !alive {
        return Died;
      }
      exit := BeginTurn();
      if exit != GoesOn {
        return;
      }
      var m, aliveStill := Await(Thinking);
      if !aliveStill {
        return Died;
      }
      var outcome := TakeAnswer(m);
      if outcome.Some? {
        exit := Conclude(outcome.value);
      } else {
        exit := RunBatch(m.calls);
      }
    }

    /** What is read once, on the way in. */
    method EnterLoop()
      requires Live(Loading)
      modifies this`segmentStart, this`clockFrom, this`refusedToolCalls, this`isRehearsalRun, this`trace, this`sys
      ensures Live(Top) && old(trace) < trace && refusedToolCalls == store.run.refused && Own(trace) == Own(old(trace)) + 1
    {
      hide Traced, Own;
      Took(RunProtocol.EnterLoop(0));
      refusedToolCalls, isRehearsalRun := store.run.refused, store.run.isRehearsal;
      segmentStart := now;
      if segmentCount == 1 {
        clockFrom := now;
      }
    }

    method OutOfSteps()
      requires Live(Top) && loopIndex >= c.maxSteps
      modifies this`trace, this`sys
      ensures Live(Finishing(RunFailed)) && old(trace) < trace && Own(trace) == Own(old(trace)) + 1
    {
      hide Traced, Own;
      Took(LoopTop(0));
    }

    /**
     * The whole loop refines the step system: from the state it was started in, the steps it
     * and the others took form a valid run, which ends in exactly the rows it leaves behind,
     * with no action live. It dies only of a moment that kills it or makes it throw, of a malformed
     * call, or with no moment left; and it uses up no moment without a step of its own.
     */
    method ExecuteObjectiveLoop() returns (exit: Exit)
      requires Live(Loading)
      modifies this, store
      ensures old(trace) < trace && Left(exit)
      ensures RunProtocol.Valid(c, start, trace)
      ensures var end := Replay(c, start, trace);
              end.db == store.Rows() && end.now == now && end.jobs == jobs && end.execs == []
      ensures if exit == Died then Doomed(old(used), used) || AskedForNonsense(old(used), used) else Lived(old(used), used)
      ensures Own(trace) - Own(old(trace)) >= used - old(used)
    {
      hide Live, Own;
      var _, alive := Await(Loading);
      if !alive {
        return Died;
      }
      EnterLoop();
      while loopIndex < c.maxSteps
        invariant Live(Top) && old(trace) < trace && Balance() >= old(Balance()) && Lived(old(used), used)
        decreases c.maxSteps - loopIndex
      {
        exit := RunTurn();
        if exit != GoesOn {
          return;
        }
      }
      OutOfSteps();
      exit := Conclude(RunFailed);
    }
  }

  /**
   * So the theorems about runs are theorems about the loop: started as the action of any
   * reachable state, it leaves rows in which at most one action or queued continuation holds
   * the run and the saved conversation is paired.
   */
  lemma WhatTheLoopLeaves(c: Config, start: Sys, trace: seq<Event>, rows: Db)
    requires LeaseExclusion.MarginHolds(c) && Reachable(c, start)
    requires RunProtocol.Valid(c, start, trace) && Replay(c, start, trace).db == rows
    ensures |rows.continuations| <= 1
    ensures rows.checkpoint.Some? ==>
              TranscriptInvariant.Good(rows.checkpoint.value.transcript, Replay(c, start, trace).hist.orphaned)
  {
    hide Reachable, Valid, Replay;
    RunIsReachable(c, start, trace);
    LeaseExclusion.ExclusiveWithinMargin(c, Replay(c, start, trace));
    TranscriptInvariant.ConversationsStayPaired(c, Replay(c, start, trace));
  }

  /** Within the margin no continuation can start beside a live action, so none is missing from the
      interference the loop is proved against. */
  lemma NoContinuationBesideTheLoop(c: Config, s: Sys, k: nat)
    requires LeaseExclusion.MarginHolds(c) && Reachable(c, s) && s.execs != []
    ensures |s.execs| == 1 && !Enabled(c, s, StartContinuation(k))
  {
    hide Reachable;
    LeaseExclusion.ExclusiveWithinMargin(c, s);
  }
}
