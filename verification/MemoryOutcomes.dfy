/** The outcome counters kept on each memory: moved incrementally as runs end, once, twice
    or never, and always what a recount of the usage rows would give
    (convex/agentRunStateService.ts:96-162, convex/agentMemories.ts:387-426). */
module MemoryOutcomes {
  import opened Common

  const AGENT_RUN_MEMORY_USAGE_LIMIT := 500

  datatype Outcome = Observed | Success | Failed | Cancelled

  type TerminalStatus = o: Outcome | o != Observed witness Success

  /** A run consulted a memory: one row per pair. */
  datatype UsageRow = UsageRow(run: nat, memory: nat, outcome: Outcome)

  datatype Counts = Counts(success: int, failure: int, cancelled: int) {
    function Get(status: TerminalStatus): int {
      match status
      case Success => success
      case Failed => failure
      case Cancelled => cancelled
    }

    function Set(status: TerminalStatus, n: int): Counts {
      match status
      case Success => this.(success := n)
      case Failed => this.(failure := n)
      case Cancelled => this.(cancelled := n)
    }
  }

  // ------------------------------------------------------------------------ recount

  /** How many rows say that a run which consulted `memory` ended in `status`. */
  function Tally(usage: seq<UsageRow>, memory: nat, status: Outcome): nat {
    if usage == [] then 0
    else (if usage[0].memory == memory && usage[0].outcome == status then 1 else 0) + Tally(usage[1..], memory, status)
  }

  function Recount(usage: seq<UsageRow>, memory: nat): Counts {
    Counts(Tally(usage, memory, Success), Tally(usage, memory, Failed), Tally(usage, memory, Cancelled))
  }

  ghost predicate OneRowPerPair(usage: seq<UsageRow>) {
    forall i, j :: 0 <= i < j < |usage| ==> usage[i].run != usage[j].run || usage[i].memory != usage[j].memory
  }

  predicate Consulted(usage: seq<UsageRow>, run: nat, memory: nat) {
    exists i :: 0 <= i < |usage| && usage[i].run == run && usage[i].memory == memory
  }

  lemma {:induction false} TallyAppend(usage: seq<UsageRow>, more: seq<UsageRow>, memory: nat, status: Outcome)
    ensures Tally(usage + more, memory, status) == Tally(usage, memory, status) + Tally(more, memory, status)
  {
    if usage == [] {
      assert usage + more == more;
    } else {
      assert (usage + more)[1..] == usage[1..] + more;
      TallyAppend(usage[1..], more, memory, status);
    }
  }

  /** Changing one row's outcome moves one unit between two tallies. */
  lemma TallyMoves(usage: seq<UsageRow>, i: nat, to: Outcome, memory: nat, status: Outcome)
    requires i < |usage|
    ensures var mine := usage[i].memory == memory;
            Tally(usage[i := usage[i].(outcome := to)], memory, status)
            == Tally(usage, memory, status) - (if mine && usage[i].outcome == status then 1 else 0)
               + (if mine && to == status then 1 else 0)
    ensures usage[i].memory == memory && usage[i].outcome == status ==> Tally(usage, memory, status) > 0
  {
    var row := usage[i].(outcome := to);
    assert usage == usage[..i] + ([usage[i]] + usage[i + 1..]);
    assert usage[i := row] == usage[..i] + ([row] + usage[i + 1..]);
    TallyAppend(usage[..i], [usage[i]] + usage[i + 1..], memory, status);
    TallyAppend(usage[..i], [row] + usage[i + 1..], memory, status);
    assert ([usage[i]] + usage[i + 1..])[1..] == usage[i + 1..] == ([row] + usage[i + 1..])[1..];
  }

  lemma RecountMoves(usage: seq<UsageRow>, i: nat, to: TerminalStatus, memory: nat)
    requires i < |usage|
    ensures var before, after := Recount(usage, memory), Recount(usage[i := usage[i].(outcome := to)], memory);
            && (usage[i].memory != memory || usage[i].outcome == to ==> after == before)
            && (usage[i].memory == memory && usage[i].outcome == Observed ==> after == before.Set(to, before.Get(to) + 1))
            && (usage[i].memory == memory && usage[i].outcome !in {Observed, to} ==>
                  && before.Get(usage[i].outcome) > 0
                  && after == before.Set(usage[i].outcome, before.Get(usage[i].outcome) - 1).Set(to, before.Get(to) + 1))
  {
    TallyMoves(usage, i, to, memory, Success);
    TallyMoves(usage, i, to, memory, Failed);
    TallyMoves(usage, i, to, memory, Cancelled);
  }

  // ---------------------------------------------------------------------- mutations

  /** A memory already consulted by the run keeps its row and its outcome. */
  function Record(usage: seq<UsageRow>, run: nat, memories: seq<nat>): seq<UsageRow>
    decreases memories
  {
    if memories == [] then usage
    else Record(if Consulted(usage, run, memories[0]) then usage else usage + [UsageRow(run, memories[0], Observed)],
                run, memories[1..])
  }

  /** The first `limit` rows of the run take its status. */
  function Stamp(usage: seq<UsageRow>, run: nat, status: Outcome, limit: nat): (r: seq<UsageRow>)
    ensures |r| == |usage|
  {
    if usage == [] then []
    else if usage[0].run == run && limit > 0 then
      [usage[0].(outcome := status)] + Stamp(usage[1..], run, status, limit - 1)
    else [usage[0]] + Stamp(usage[1..], run, status, limit)
  }

  /** How many earlier rows the run of row `i` has. */
  function RowsBefore(usage: seq<UsageRow>, run: nat, i: nat): nat
    requires i <= |usage|
  {
    if i == 0 then 0 else RowsBefore(usage, run, i - 1) + if usage[i - 1].run == run then 1 else 0
  }

  predicate Reached(usage: seq<UsageRow>, run: nat, limit: nat, i: nat)
    requires i < |usage|
  {
    usage[i].run == run && RowsBefore(usage, run, i) < limit
  }

  lemma {:induction false} RowsBeforeTail(usage: seq<UsageRow>, run: nat, i: nat)
    requires 0 < i <= |usage|
    ensures RowsBefore(usage, run, i) == RowsBefore(usage[1..], run, i - 1) + if usage[0].run == run then 1 else 0
  {
    if i > 1 {
      RowsBeforeTail(usage, run, i - 1);
    } else {
      assert RowsBefore(usage, run, 0) == 0;
    }
  }

  lemma {:induction false} StampAt(usage: seq<UsageRow>, run: nat, status: Outcome, limit: nat, i: nat)
    requires i < |usage|
    ensures Stamp(usage, run, status, limit)[i]
            == if Reached(usage, run, limit, i) then usage[i].(outcome := status) else usage[i]
  {
    if i > 0 {
      var mine := usage[0].run == run;
      RowsBeforeTail(usage, run, i);
      StampAt(usage[1..], run, status, if mine && limit > 0 then limit - 1 else limit, i - 1);
    }
  }

  /** The rows at `reached` whose memory is among `counted` are stamped in `mid`. */
  ghost predicate StampedSoFar(usage: seq<UsageRow>, reached: seq<nat>, counted: seq<nat>, status: Outcome, mid: seq<UsageRow>) {
    && |mid| == |usage|
    && forall i :: 0 <= i < |usage| ==>
         mid[i] == if i in reached && usage[i].memory in counted then usage[i].(outcome := status) else usage[i]
  }

  /** `usage` with `status` on the rows at `reached`. */
  function WithOutcome(usage: seq<UsageRow>, reached: seq<nat>, status: Outcome): seq<UsageRow> {
    seq(|usage|, i requires 0 <= i < |usage| => if i in reached then usage[i].(outcome := status) else usage[i])
  }

  lemma WithOutcomeIsStamp(usage: seq<UsageRow>, run: nat, status: Outcome, reached: seq<nat>)
    requires forall i :: 0 <= i < |usage| ==> (i in reached <==> Reached(usage, run, AGENT_RUN_MEMORY_USAGE_LIMIT, i))
    ensures WithOutcome(usage, reached, status) == Stamp(usage, run, status, AGENT_RUN_MEMORY_USAGE_LIMIT)
  {
    hide Reached, Stamp;
    forall i | 0 <= i < |usage|
      ensures WithOutcome(usage, reached, status)[i] == Stamp(usage, run, status, AGENT_RUN_MEMORY_USAGE_LIMIT)[i]
    {
      StampAt(usage, run, status, AGENT_RUN_MEMORY_USAGE_LIMIT, i);
    }
  }

  lemma StampedNext(usage: seq<UsageRow>, reached: seq<nat>, keys: seq<nat>, k: nat, status: Outcome, mid: seq<UsageRow>, i: nat)
    requires k < |keys| && (forall j :: 0 <= j < k ==> keys[j] != keys[k])
    requires StampedSoFar(usage, reached, keys[..k], status, mid)
    requires i < |usage| && i in reached && usage[i].memory == keys[k]
    requires forall j :: j in reached && j < |usage| && usage[j].memory == keys[k] ==> j == i
    ensures mid[i] == usage[i]
    ensures StampedSoFar(usage, reached, keys[..k + 1], status, mid[i := mid[i].(outcome := status)])
  {
    assert keys[..k + 1] == keys[..k] + [keys[k]];
  }

  lemma AllStamped(usage: seq<UsageRow>, reached: seq<nat>, keys: seq<nat>, groups: map<nat, seq<nat>>, status: Outcome,
    mid: seq<UsageRow>)
    requires forall k :: 0 <= k < |reached| ==> reached[k] < |usage|
    requires Grouped(usage, reached, groups) && forall m :: m in keys <==> m in groups
    requires StampedSoFar(usage, reached, keys, status, mid)
    ensures mid == WithOutcome(usage, reached, status)
  {
    forall i | i in reached
      ensures usage[i].memory in keys
    {
      RowsOfMembers(usage, reached, usage[i].memory, i);
    }
  }

  /** The positions among `reached` whose row is about `memory`. */
  function RowsOf(usage: seq<UsageRow>, reached: seq<nat>, memory: nat): seq<nat>
    requires forall k :: 0 <= k < |reached| ==> reached[k] < |usage|
  {
    if reached == [] then []
    else
      var last := reached[|reached| - 1];
      RowsOf(usage, reached[..|reached| - 1], memory) + if usage[last].memory == memory then [last] else []
  }

  /** Each memory's group is its rows; a memory without rows has no group. */
  ghost predicate Grouped(usage: seq<UsageRow>, reached: seq<nat>, groups: map<nat, seq<nat>>)
    requires forall k :: 0 <= k < |reached| ==> reached[k] < |usage|
  {
    forall m: nat ::
      && (m in groups <==> RowsOf(usage, reached, m) != [])
      && (m in groups ==> groups[m] == RowsOf(usage, reached, m))
  }

  lemma GroupedNext(usage: seq<UsageRow>, reached: seq<nat>, n: nat, groups: map<nat, seq<nat>>)
    requires n < |reached| && forall k :: 0 <= k < |reached| ==> reached[k] < |usage|
    requires Grouped(usage, reached[..n], groups)
    ensures var memory := usage[reached[n]].memory;
            && Grouped(usage, reached[..n + 1], groups[memory := (if memory in groups then groups[memory] else []) + [reached[n]]])
            && (memory in groups ==> groups[memory] != [])
  {
    assert reached[..n + 1][..n] == reached[..n];
  }

  lemma {:induction false} RowsOfMembers(usage: seq<UsageRow>, reached: seq<nat>, memory: nat, i: nat)
    requires forall k :: 0 <= k < |reached| ==> reached[k] < |usage|
    ensures i in RowsOf(usage, reached, memory) <==> i in reached && usage[i].memory == memory
  {
    if reached != [] {
      RowsOfMembers(usage, reached[..|reached| - 1], memory, i);
      assert reached == reached[..|reached| - 1] + [reached[|reached| - 1]];
    }
  }

  /** Rows being unique per pair, a memory's group among one run's rows is a single row. */
  lemma {:induction false} OnlyRow(usage: seq<UsageRow>, run: nat, reached: seq<nat>, memory: nat) returns (i: nat)
    requires OneRowPerPair(usage)
    requires forall k :: 0 <= k < |reached| ==> reached[k] < |usage| && usage[reached[k]].run == run
    requires forall j, k :: 0 <= j < k < |reached| ==> reached[j] < reached[k]
    requires RowsOf(usage, reached, memory) != []
    ensures i in reached && usage[i].memory == memory && RowsOf(usage, reached, memory) == [i]
    ensures forall j :: j in reached && usage[j].memory == memory ==> j == i
  {
    var front, last := reached[..|reached| - 1], reached[|reached| - 1];
    assert reached == front + [last];
    if usage[last].memory != memory {
      i := OnlyRow(usage, run, front, memory);
    } else {
      i := last;
      forall j | j in front
        ensures usage[j].memory != memory
      {
        var k :| 0 <= k < |front| && front[k] == j;
        assert reached[k] < reached[|reached| - 1];
      }
      if RowsOf(usage, front, memory) != [] {
        RowsOfMembers(usage, front, memory, RowsOf(usage, front, memory)[0]);
      }
    }
  }

  class MemoryLedger {
    const rehearsals: set<nat>
    var usage: seq<UsageRow>
    var memories: map<nat, Counts>

    /** Every counter is the recount, and a rehearsal has moved none of them. */
    ghost predicate Valid()
      reads this
    {
      && OneRowPerPair(usage)
      && (forall m :: m in memories ==> memories[m] == Recount(usage, m))
      && (forall i :: 0 <= i < |usage| && usage[i].run in rehearsals ==> usage[i].outcome == Observed)
    }

    constructor (rehearsals: set<nat>, created: set<nat>)
      ensures Valid() && usage == [] && memories.Keys == created && this.rehearsals == rehearsals
    {
      this.rehearsals, usage := rehearsals, [];
      memories := map m | m in created :: Counts(0, 0, 0);
    }

    /** The upsert that keeps rows unique per run and memory. */
    method RecordUsageInternal(run: nat, consulted: seq<nat>)
      requires Valid()
      modifies this`usage
      ensures Valid() && usage == Record(old(usage), run, consulted)
    {
      for k := 0 to |consulted|
        invariant Valid() && Record(usage, run, consulted[k..]) == Record(old(usage), run, consulted)
      {
        assert consulted[k..][1..] == consulted[k + 1..];
        if !Consulted(usage, run, consulted[k]) {
          forall m, status | m in memories
            ensures Tally(usage + [UsageRow(run, consulted[k], Observed)], m, status)
                    == Tally(usage, m, status) + if status == Observed && m == consulted[k] then 1 else 0
          {
            TallyAppend(usage, [UsageRow(run, consulted[k], Observed)], m, status);
          }
          usage := usage + [UsageRow(run, consulted[k], Observed)];
        }
      }
    }

    /** The first rows of the run, in the order they were created. */
    method QueryByRun(run: nat) returns (reached: seq<nat>)
      ensures forall k :: 0 <= k < |reached| ==> reached[k] < |usage| && Reached(usage, run, AGENT_RUN_MEMORY_USAGE_LIMIT, reached[k])
      ensures forall i :: 0 <= i < |usage| && Reached(usage, run, AGENT_RUN_MEMORY_USAGE_LIMIT, i) ==> i in reached
      ensures forall j, k :: 0 <= j < k < |reached| ==> reached[j] < reached[k]
    {
      reached := [];
      for i := 0 to |usage|
        invariant |reached| == if RowsBefore(usage, run, i) < AGENT_RUN_MEMORY_USAGE_LIMIT then RowsBefore(usage, run, i) else AGENT_RUN_MEMORY_USAGE_LIMIT
        invariant forall k :: 0 <= k < |reached| ==> reached[k] < i && Reached(usage, run, AGENT_RUN_MEMORY_USAGE_LIMIT, reached[k])
        invariant forall j :: 0 <= j < i && Reached(usage, run, AGENT_RUN_MEMORY_USAGE_LIMIT, j) ==> j in reached
        invariant forall j, k :: 0 <= j < k < |reached| ==> reached[j] < reached[k]
      {
        if usage[i].run == run && |reached| < AGENT_RUN_MEMORY_USAGE_LIMIT {
          reached := reached + [i];
        }
      }
    }

    /** The first outcome already recorded among these rows. */
    method FindPrevious(rows: seq<nat>) returns (previous: Option<TerminalStatus>)
      requires forall k :: 0 <= k < |rows| ==> rows[k] < |usage|
      ensures previous.None? ==> forall k :: 0 <= k < |rows| ==> usage[rows[k]].outcome == Observed
      ensures previous.Some? ==> exists k :: 0 <= k < |rows| && usage[rows[k]].outcome == previous.value
    {
      for k := 0 to |rows|
        invariant forall j :: 0 <= j < k ==> usage[rows[j]].outcome == Observed
      {
        if usage[rows[k]].outcome != Observed {
          return Some(usage[rows[k]].outcome);
        }
      }
      previous := None;
    }

    /** One unit leaves the previous outcome's counter, not below zero, and one enters the new one's. */
    method MoveCount(memory: nat, previous: Option<TerminalStatus>, status: TerminalStatus)
      requires memory in memories
      modifies this`memories
      ensures previous.Some? && old(memories)[memory].Get(previous.value) > 0 && previous.value != status ==>
                memories == old(memories)[memory := old(memories)[memory]
                  .Set(previous.value, old(memories)[memory].Get(previous.value) - 1)
                  .Set(status, old(memories)[memory].Get(status) + 1)]
      ensures previous.None? ==>
                memories == old(memories)[memory := old(memories)[memory].Set(status, old(memories)[memory].Get(status) + 1)]
    {
      var counts := memories[memory];
      if previous.Some? {
        var lowered := counts.Get(previous.value) - 1;
        counts := counts.Set(previous.value, if lowered > 0 then lowered else 0);
      }
      counts := counts.Set(status, counts.Get(status) + 1);
      memories := memories[memory := counts];
    }

    /** Rows grouped by memory; `keys` are the memories in the order they first appear. */
    method GroupByMemory(reached: seq<nat>) returns (keys: seq<nat>, rowsByMemory: map<nat, seq<nat>>)
      requires forall k :: 0 <= k < |reached| ==> reached[k] < |usage|
      ensures forall j, k :: 0 <= j < k < |keys| ==> keys[j] != keys[k]
      ensures forall m :: m in keys <==> m in rowsByMemory
      ensures Grouped(usage, reached, rowsByMemory)
    {
      keys, rowsByMemory := [], map[];
      assert Grouped(usage, reached[..0], map[]);
      hide Grouped;
      for n := 0 to |reached|
        invariant forall j, k :: 0 <= j < k < |keys| ==> keys[j] != keys[k]
        invariant forall m :: m in keys <==> m in rowsByMemory
        invariant Grouped(usage, reached[..n], rowsByMemory)
      {
        GroupedNext(usage, reached, n, rowsByMemory);
        var memory := usage[reached[n]].memory;
        var rows := if memory in rowsByMemory then rowsByMemory[memory] else [];
        if rows == [] {
          keys := keys + [memory];
        }
        rowsByMemory := rowsByMemory[memory := rows + [reached[n]]];
      }
      assert reached[..|reached|] == reached;
    }

    /** Counts one run's outcome against one memory it consulted. */
    method CountOutcome(memory: nat, rows: seq<nat>, status: TerminalStatus, ghost mid: seq<UsageRow>, ghost i: nat)
      requires rows == [i] && i < |usage| == |mid| && usage[i] == mid[i] && usage[i].memory == memory
      requires forall m :: m in memories ==> memories[m] == Recount(mid, m)
      modifies this`memories
      ensures memories.Keys == old(memories.Keys)
      ensures forall m :: m in memories ==> memories[m] == Recount(mid[i := mid[i].(outcome := status)], m)
    {
      hide Recount;
      var previous := FindPrevious(rows);
      if previous == Some(status) {
        assert mid[i := mid[i]] == mid;
        return;
      }
      RecountMoves(mid, i, status, memory);
      assert rows[0] == i;
      assert previous == if mid[i].outcome == Observed then None else Some(mid[i].outcome);
      forall m | m in memories && m != memory
        ensures Recount(mid[i := mid[i].(outcome := status)], m) == Recount(mid, m)
      {
        RecountMoves(mid, i, status, m);
      }
      if memory in memories {
        MoveCount(memory, previous, status);
      }
    }

    /** The outcome of one run, counted once for each memory it consulted. */
    method CountOutcomes(run: nat, reached: seq<nat>, status: TerminalStatus)
      requires Valid()
      requires forall k :: 0 <= k < |reached| ==> reached[k] < |usage| && usage[reached[k]].run == run
      requires forall j, k :: 0 <= j < k < |reached| ==> reached[j] < reached[k]
      modifies this`memories
      ensures memories.Keys == old(memories.Keys)
      ensures forall m :: m in memories ==> memories[m] == Recount(WithOutcome(usage, reached, status), m)
    {
      hide Recount, WithOutcome, RowsOf;
      var keys, rowsByMemory := GroupByMemory(reached);
      ghost var mid := usage;
      assert keys[..0] == [];
      for k := 0 to |keys|
        invariant memories.Keys == old(memories.Keys)
        invariant StampedSoFar(usage, reached, keys[..k], status, mid)
        invariant forall m :: m in memories ==> memories[m] == Recount(mid, m)
      {
        assert keys[k] in keys;
        ghost var i := OnlyRow(usage, run, reached, keys[k]);
        StampedNext(usage, reached, keys, k, status, mid, i);
        CountOutcome(keys[k], rowsByMemory[keys[k]], status, mid, i);
        mid := mid[i := mid[i].(outcome := status)];
      }
      assert keys[..|keys|] == keys;
      AllStamped(usage, reached, keys, rowsByMemory, status, mid);
    }

    /** The new outcome on every row the query returned. */
    method PatchOutcomes(reached: seq<nat>, status: TerminalStatus)
      requires forall k :: 0 <= k < |reached| ==> reached[k] < |usage|
      modifies this`usage
      ensures usage == WithOutcome(old(usage), reached, status)
    {
      for k := 0 to |reached|
        invariant |usage| == |old(usage)|
        invariant forall i :: 0 <= i < |usage| ==>
                    usage[i] == if i in reached[..k] then old(usage)[i].(outcome := status) else old(usage)[i]
      {
        assert reached[..k + 1] == reached[..k] + [reached[k]];
        usage := usage[reached[k] := usage[reached[k]].(outcome := status)];
      }
      assert reached[..|reached|] == reached;
    }

    /**
     * However often a run ends, its rows take the new status and every counter is again the
     * recount: what the run's earlier ending added is taken back exactly.
     */
    method UpdateMemoryUsageOutcomeForRun(run: nat, status: TerminalStatus)
      requires Valid()
      modifies this`usage, this`memories
      ensures Valid() && memories.Keys == old(memories.Keys)
      ensures usage == if run in rehearsals then old(usage) else Stamp(old(usage), run, status, AGENT_RUN_MEMORY_USAGE_LIMIT)
      ensures run in rehearsals ==> memories == old(memories)
    {
      hide Recount, Stamp, RowsBefore;
      if run in rehearsals {
        return;
      }
      var reached := QueryByRun(run);
      CountOutcomes(run, reached, status);
      PatchOutcomes(reached, status);
      WithOutcomeIsStamp(old(usage), run, status, reached);
    }
  }

  // ---------------------------------------------------------------- what was reported

  /** What happened, in the order it happened. */
  datatype Entry = Recorded(run: nat, memories: seq<nat>) | Ended(run: nat, status: TerminalStatus)

  /** The usage rows the two mutations leave after all of it. */
  function RowsAfter(log: seq<Entry>, rehearsals: set<nat>): seq<UsageRow> {
    if log == [] then []
    else
      var usage := RowsAfter(log[..|log| - 1], rehearsals);
      match log[|log| - 1]
      case Recorded(run, memories) => Record(usage, run, memories)
      case Ended(run, status) =>
        if run in rehearsals then usage else Stamp(usage, run, status, AGENT_RUN_MEMORY_USAGE_LIMIT)
  }

  /** How `run` has ended for a memory it consulted: its last ending since, if any. */
  function LogOutcome(log: seq<Entry>, rehearsals: set<nat>, run: nat, memory: nat): Option<Outcome> {
    if log == [] then None
    else
      var before := LogOutcome(log[..|log| - 1], rehearsals, run, memory);
      match log[|log| - 1]
      case Recorded(r, memories) => if r == run && memory in memories && before.None? then Some(Observed) else before
      case Ended(r, status) => if r == run && before.Some? && run !in rehearsals then Some(status) else before
  }

  lemma {:induction false} RecordAdds(usage: seq<UsageRow>, run: nat, memories: seq<nat>)
    requires OneRowPerPair(usage)
    ensures var r := Record(usage, run, memories);
            && OneRowPerPair(r) && |usage| <= |r| && r[..|usage|] == usage
            && (forall i :: |usage| <= i < |r| ==> r[i].run == run && r[i].outcome == Observed && !Consulted(usage, run, r[i].memory))
            && (forall q: nat, m: nat :: Consulted(r, q, m) <==> Consulted(usage, q, m) || (q == run && m in memories))
    decreases memories
  {
    if memories != [] {
      var next := if Consulted(usage, run, memories[0]) then usage else usage + [UsageRow(run, memories[0], Observed)];
      ConsultedNow(usage, run, memories[0]);
      RecordAdds(next, run, memories[1..]);
    }
  }

  lemma ConsultedNow(usage: seq<UsageRow>, run: nat, memory: nat)
    ensures var next := if Consulted(usage, run, memory) then usage else usage + [UsageRow(run, memory, Observed)];
            forall q: nat, m: nat :: Consulted(next, q, m) <==> Consulted(usage, q, m) || (q == run && m == memory)
  {
    var next := if Consulted(usage, run, memory) then usage else usage + [UsageRow(run, memory, Observed)];
    forall q: nat, m: nat
      ensures Consulted(next, q, m) <==> Consulted(usage, q, m) || (q == run && m == memory)
    {
      if Consulted(usage, q, m) {
        var i :| 0 <= i < |usage| && usage[i].run == q && usage[i].memory == m;
        assert next[i] == usage[i];
      }
      if q == run && m == memory && !Consulted(usage, run, memory) {
        assert next[|usage|].run == q;
      }
    }
  }

  lemma {:induction false} RowsBeforeSame(usage: seq<UsageRow>, after: seq<UsageRow>, run: nat, i: nat)
    requires i <= |usage| <= |after|
    requires forall j :: 0 <= j < |usage| ==> after[j].run == usage[j].run
    ensures RowsBefore(after, run, i) == RowsBefore(usage, run, i)
  {
    if i > 0 {
      RowsBeforeSame(usage, after, run, i - 1);
    }
  }

  /** Row `i` says what the log says, while the run still reaches that far; beyond, it never hears. */
  ghost predicate Tells(usage: seq<UsageRow>, log: seq<Entry>, rehearsals: set<nat>, i: nat)
    requires i < |usage|
  {
    var said := LogOutcome(log, rehearsals, usage[i].run, usage[i].memory);
    && said.Some?
    && usage[i].outcome == if RowsBefore(usage, usage[i].run, i) < AGENT_RUN_MEMORY_USAGE_LIMIT then said.value else Observed
  }

  /** Exactly the pairs consulted have a row, one each, and each row tells the log's outcome. */
  ghost predicate Agrees(usage: seq<UsageRow>, log: seq<Entry>, rehearsals: set<nat>) {
    && OneRowPerPair(usage)
    && (forall run: nat, m: nat :: Consulted(usage, run, m) <==> LogOutcome(log, rehearsals, run, m).Some?)
    && (forall i :: 0 <= i < |usage| ==> Tells(usage, log, rehearsals, i))
  }

  /** For any history, with any number of rows a run, the rows agree with what happened. */
  lemma {:induction false} RowsTellTheLog(log: seq<Entry>, rehearsals: set<nat>)
    ensures Agrees(RowsAfter(log, rehearsals), log, rehearsals)
  {
    if log != [] {
      var front := log[..|log| - 1];
      RowsTellTheLog(front, rehearsals);
      match log[|log| - 1] {
        case Recorded(run, memories) => RecordedTells(log, rehearsals);
        case Ended(run, status) => EndedTells(log, rehearsals);
      }
    }
  }

  lemma RecordedTells(log: seq<Entry>, rehearsals: set<nat>)
    requires log != [] && log[|log| - 1].Recorded?
    requires Agrees(RowsAfter(log[..|log| - 1], rehearsals), log[..|log| - 1], rehearsals)
    ensures Agrees(RowsAfter(log, rehearsals), log, rehearsals)
  {
    var front, entry := log[..|log| - 1], log[|log| - 1];
    var before, after := RowsAfter(front, rehearsals), RowsAfter(log, rehearsals);
    RecordAdds(before, entry.run, entry.memories);
    forall i | 0 <= i < |after|
      ensures Tells(after, log, rehearsals, i)
    {
      assert Consulted(after, after[i].run, after[i].memory);
      if i < |before| {
        assert after[i] == after[..|before|][i] == before[i];
        assert Tells(before, front, rehearsals, i);
        RowsBeforeSame(before, after, after[i].run, i);
      }
    }
  }

  lemma EndedTells(log: seq<Entry>, rehearsals: set<nat>)
    requires log != [] && log[|log| - 1].Ended?
    requires Agrees(RowsAfter(log[..|log| - 1], rehearsals), log[..|log| - 1], rehearsals)
    ensures Agrees(RowsAfter(log, rehearsals), log, rehearsals)
  {
    var front, entry := log[..|log| - 1], log[|log| - 1];
    var before, after := RowsAfter(front, rehearsals), RowsAfter(log, rehearsals);
    forall i | 0 <= i < |after|
      ensures after[i].run == before[i].run && after[i].memory == before[i].memory
      ensures entry.run !in rehearsals ==>
                after[i] == if Reached(before, entry.run, AGENT_RUN_MEMORY_USAGE_LIMIT, i) then before[i].(outcome := entry.status) else before[i]
    {
      if entry.run !in rehearsals {
        StampAt(before, entry.run, entry.status, AGENT_RUN_MEMORY_USAGE_LIMIT, i);
      }
    }
    SamePairs(before, after);
    forall i | 0 <= i < |after|
      ensures Tells(after, log, rehearsals, i)
    {
      assert Tells(before, front, rehearsals, i);
      RowsBeforeSame(before, after, after[i].run, i);
    }
  }

  lemma SamePairs(before: seq<UsageRow>, after: seq<UsageRow>)
    requires |before| == |after|
    requires forall i :: 0 <= i < |after| ==> after[i].run == before[i].run && after[i].memory == before[i].memory
    ensures forall run: nat, m: nat :: Consulted(after, run, m) <==> Consulted(before, run, m)
  {
  }

  // ------------------------------------------------------------- counters as sets of runs

  /** The runs whose last ending, for this memory, is `status`. */
  ghost function RunsEnding(log: seq<Entry>, rehearsals: set<nat>, memory: nat, status: Outcome): set<nat> {
    set e | e in log && LogOutcome(log, rehearsals, e.run, memory) == Some(status) :: e.run
  }

  ghost function RunsWith(usage: seq<UsageRow>, memory: nat, status: Outcome): set<nat> {
    set i | 0 <= i < |usage| && usage[i].memory == memory && usage[i].outcome == status :: usage[i].run
  }

  lemma {:induction false} TallyCountsRuns(usage: seq<UsageRow>, memory: nat, status: Outcome)
    requires OneRowPerPair(usage)
    ensures Tally(usage, memory, status) == |RunsWith(usage, memory, status)|
  {
    hide RunsWith;
    if usage == [] {
      assert RunsWith(usage, memory, status) == {} by { NoRunsWith(memory, status); }
    } else {
      TallyCountsRuns(usage[1..], memory, status);
      FirstRunWith(usage, memory, status);
    }
  }

  lemma NoRunsWith(memory: nat, status: Outcome)
    ensures RunsWith([], memory, status) == {}
  {
  }

  /** The first row's run is not among those of the later rows about the same memory. */
  lemma FirstRunWith(usage: seq<UsageRow>, memory: nat, status: Outcome)
    requires OneRowPerPair(usage) && usage != []
    ensures var later := RunsWith(usage[1..], memory, status);
            if usage[0].memory == memory && usage[0].outcome == status
            then usage[0].run !in later && RunsWith(usage, memory, status) == later + {usage[0].run}
            else RunsWith(usage, memory, status) == later
  {
    var rest, mine := usage[1..], usage[0].memory == memory && usage[0].outcome == status;
    forall q
      ensures q in RunsWith(usage, memory, status) <==> q in RunsWith(rest, memory, status) || (mine && q == usage[0].run)
    {
      if q in RunsWith(rest, memory, status) {
        var i :| 0 <= i < |rest| && rest[i].memory == memory && rest[i].outcome == status && rest[i].run == q;
        assert usage[i + 1] == rest[i];
      }
      if q in RunsWith(usage, memory, status) {
        var i :| 0 <= i < |usage| && usage[i].memory == memory && usage[i].outcome == status && usage[i].run == q;
        assert i > 0 ==> rest[i - 1] == usage[i];
      }
    }
  }

  lemma {:induction false} EntryBehindOutcome(log: seq<Entry>, rehearsals: set<nat>, run: nat, memory: nat)
    requires LogOutcome(log, rehearsals, run, memory).Some?
    ensures exists e :: e in log && e.run == run
  {
    var last := log[|log| - 1];
    if last.run != run {
      EntryBehindOutcome(log[..|log| - 1], rehearsals, run, memory);
      var e :| e in log[..|log| - 1] && e.run == run;
      assert e in log;
    }
  }

  /** One query for the run's rows returns the row about this memory. */
  ghost predicate Heard(usage: seq<UsageRow>, run: nat, memory: nat) {
    exists i :: 0 <= i < |usage| && usage[i].run == run && usage[i].memory == memory
                && RowsBefore(usage, run, i) < AGENT_RUN_MEMORY_USAGE_LIMIT
  }

  /**
   * The counters are the truth: after any history a memory's counter is the number of
   * distinct runs, rehearsals aside, that consulted it and whose last ending since is that
   * status - exactly when none of those runs had already consulted 500 other memories.
   */
  lemma CountersAreTheRuns(log: seq<Entry>, rehearsals: set<nat>, memory: nat, status: TerminalStatus)
    ensures var usage, runs := RowsAfter(log, rehearsals), RunsEnding(log, rehearsals, memory, status);
            && (Recount(usage, memory).Get(status) == |runs| <==> forall run :: run in runs ==> Heard(usage, run, memory))
            && Recount(usage, memory).Get(status) <= |runs|
            && forall run :: run in rehearsals ==> run !in runs
  {
    hide RowsAfter, LogOutcome, RowsBefore, Tally, Heard, RunsEnding, RunsWith;
    var usage, runs := RowsAfter(log, rehearsals), RunsEnding(log, rehearsals, memory, status);
    RowsTellTheLog(log, rehearsals);
    TallyCountsRuns(usage, memory, status);
    RowsAreTheRunsHeard(log, rehearsals, memory, status);
    assert RunsWith(usage, memory, status) == set run | run in runs && Heard(usage, run, memory);
    SubsetOfSameSize(RunsWith(usage, memory, status), runs);
    forall run | run in rehearsals
      ensures run !in runs
    {
      RehearsalsStayObserved(log, rehearsals, run, memory);
    }
  }

  /** A run that consults memories it never consulted before gets one row for each. */
  lemma {:induction false} RecordFresh(usage: seq<UsageRow>, run: nat, memories: seq<nat>)
    requires forall m :: m in memories ==> !Consulted(usage, run, m)
    requires forall i, j :: 0 <= i < j < |memories| ==> memories[i] != memories[j]
    ensures Record(usage, run, memories) == usage + seq(|memories|, i requires 0 <= i < |memories| => UsageRow(run, memories[i], Observed))
    decreases memories
  {
    if memories != [] {
      var row := UsageRow(run, memories[0], Observed);
      assert memories[0] in memories;
      ConsultedNow(usage, run, memories[0]);
      forall m | m in memories[1..]
        ensures !Consulted(usage + [row], run, m)
      {
        var j :| 0 <= j < |memories| - 1 && memories[1..][j] == m;
        assert memories[j + 1] == m && m in memories && m != memories[0];
      }
      RecordFresh(usage + [row], run, memories[1..]);
    }
  }

  lemma {:induction false} AllOwn(usage: seq<UsageRow>, run: nat, i: nat)
    requires i <= |usage| && forall j :: 0 <= j < |usage| ==> usage[j].run == run
    ensures RowsBefore(usage, run, i) == i
  {
    if i > 0 {
      AllOwn(usage, run, i - 1);
    }
  }

  /** One run consults 501 memories and succeeds: the 500th memory counts it, the last does not. */
  lemma MissedByItsRun() returns (log: seq<Entry>)
    ensures RunsEnding(log, {}, 499, Success) == {0} && Recount(RowsAfter(log, {}), 499).Get(Success) == 1
    ensures RunsEnding(log, {}, 500, Success) == {0} && Recount(RowsAfter(log, {}), 500).Get(Success) == 0
  {
    var memories := seq(501, i requires 0 <= i < 501 => i as nat);
    var front := [Recorded(0, memories)];
    log := [Recorded(0, memories), Ended(0, Success)];
    assert log[..1] == front && front[..0] == [] && RowsAfter([], {}) == [];
    RecordFresh([], 0, memories);
    var before, usage := RowsAfter(front, {}), RowsAfter(log, {});
    assert before == seq(501, i requires 0 <= i < 501 => UsageRow(0, i, Observed));
    assert usage == Stamp(before, 0, Success, AGENT_RUN_MEMORY_USAGE_LIMIT);
    assert memories[500] == 500;
    assert memories[499] == 499;
    ConsultedThenEnded(memories, 500);
    ConsultedThenEnded(memories, 499);
    OnlyOneRun(log, 500);
    OnlyOneRun(log, 499);
    HeardToTheLimit(before, usage);
    CountersAreTheRuns(log, {}, 500, Success);
    CountersAreTheRuns(log, {}, 499, Success);
    assert log[1] in log;
  }

  lemma ConsultedThenEnded(memories: seq<nat>, memory: nat)
    requires memory in memories
    ensures LogOutcome([Recorded(0, memories), Ended(0, Success)], {}, 0, memory) == Some(Success)
  {
    var log := [Recorded(0, memories), Ended(0, Success)];
    assert log[..1] == [Recorded(0, memories)] && log[..1][..0] == [];
    assert LogOutcome([], {}, 0, memory) == None;
    assert LogOutcome(log[..1], {}, 0, memory) == Some(Observed);
  }

  lemma OnlyOneRun(log: seq<Entry>, memory: nat)
    requires (forall e :: e in log ==> e.run == 0) && log != [] && LogOutcome(log, {}, 0, memory) == Some(Success)
    ensures RunsEnding(log, {}, memory, Success) == {0}
  {
    assert log[0] in log;
  }

  lemma HeardToTheLimit(before: seq<UsageRow>, usage: seq<UsageRow>)
    requires |before| == 501 && forall i :: 0 <= i < 501 ==> before[i] == UsageRow(0, i, Observed)
    requires usage == Stamp(before, 0, Success, AGENT_RUN_MEMORY_USAGE_LIMIT)
    ensures Heard(usage, 0, 499) && !Heard(usage, 0, 500)
  {
    forall i | 0 <= i < 501
      ensures usage[i].run == 0 && usage[i].memory == i
    {
      StampAt(before, 0, Success, AGENT_RUN_MEMORY_USAGE_LIMIT, i);
    }
    AllOwn(usage, 0, 500);
    AllOwn(usage, 0, 499);
  }

  lemma SubsetOfSameSize(a: set<nat>, b: set<nat>)
    requires a <= b
    ensures |a| <= |b| && (|a| == |b| <==> a == b)
  {
    assert b == a + (b - a);
  }

  lemma RowsAreTheRunsHeard(log: seq<Entry>, rehearsals: set<nat>, memory: nat, status: TerminalStatus)
    requires Agrees(RowsAfter(log, rehearsals), log, rehearsals)
    ensures var usage, runs := RowsAfter(log, rehearsals), RunsEnding(log, rehearsals, memory, status);
            forall q :: q in RunsWith(usage, memory, status) <==> q in runs && Heard(usage, q, memory)
    ensures forall q :: q in RunsEnding(log, rehearsals, memory, status) ==> LogOutcome(log, rehearsals, q, memory) == Some(status)
  {
    hide RowsAfter, LogOutcome, RowsBefore;
    var usage, runs := RowsAfter(log, rehearsals), RunsEnding(log, rehearsals, memory, status);
    forall q | q in RunsWith(usage, memory, status)
      ensures q in runs && Heard(usage, q, memory)
    {
      var i :| 0 <= i < |usage| && usage[i].memory == memory && usage[i].outcome == status && usage[i].run == q;
      assert Tells(usage, log, rehearsals, i);
      EntryBehindOutcome(log, rehearsals, q, memory);
    }
    forall q | q in runs && Heard(usage, q, memory)
      ensures q in RunsWith(usage, memory, status)
    {
      var i :| 0 <= i < |usage| && usage[i].run == q && usage[i].memory == memory && RowsBefore(usage, q, i) < AGENT_RUN_MEMORY_USAGE_LIMIT;
      assert Tells(usage, log, rehearsals, i);
    }
  }

  lemma {:induction false} RehearsalsStayObserved(log: seq<Entry>, rehearsals: set<nat>, run: nat, memory: nat)
    ensures run in rehearsals ==> LogOutcome(log, rehearsals, run, memory) in {None, Some(Observed)}
  {
    if log != [] {
      RehearsalsStayObserved(log[..|log| - 1], rehearsals, run, memory);
    }
  }

  // ------------------------------------------------------------------- order of endings

  /** A run's own part of the history. */
  function Own(log: seq<Entry>, run: nat): seq<Entry> {
    if log == [] then []
    else Own(log[..|log| - 1], run) + if log[|log| - 1].run == run then [log[|log| - 1]] else []
  }

  lemma {:induction false} OnlyOwnEntriesMatter(log: seq<Entry>, rehearsals: set<nat>, run: nat, memory: nat)
    ensures LogOutcome(log, rehearsals, run, memory) == LogOutcome(Own(log, run), rehearsals, run, memory)
  {
    if log != [] {
      OnlyOwnEntriesMatter(log[..|log| - 1], rehearsals, run, memory);
      var own := Own(log, run);
      if log[|log| - 1].run == run {
        assert own[..|own| - 1] == Own(log[..|log| - 1], run) && own[|own| - 1] == log[|log| - 1];
      } else {
        assert own == Own(log[..|log| - 1], run);
      }
    }
  }

  /** However the endings of different runs interleave, the same runs are counted. */
  lemma OrderOfRunsIsIrrelevant(log: seq<Entry>, other: seq<Entry>, rehearsals: set<nat>, memory: nat, status: TerminalStatus)
    requires forall run: nat :: Own(log, run) == Own(other, run)
    ensures RunsEnding(log, rehearsals, memory, status) == RunsEnding(other, rehearsals, memory, status)
  {
    hide LogOutcome, Own;
    forall run: nat
      ensures LogOutcome(log, rehearsals, run, memory) == LogOutcome(other, rehearsals, run, memory)
    {
      OnlyOwnEntriesMatter(log, rehearsals, run, memory);
      OnlyOwnEntriesMatter(other, rehearsals, run, memory);
    }
    forall run: nat
      ensures run in RunsEnding(log, rehearsals, memory, status) <==> run in RunsEnding(other, rehearsals, memory, status)
    {
      if LogOutcome(log, rehearsals, run, memory) == Some(status) {
        EntryBehindOutcome(log, rehearsals, run, memory);
        EntryBehindOutcome(other, rehearsals, run, memory);
      }
    }
  }

  /** A run that ends twice counts for its last ending alone, whatever is recorded after it. */
  lemma {:induction false} LastEndingDecides(log: seq<Entry>, run: nat, status: TerminalStatus, later: seq<Entry>,
    rehearsals: set<nat>, memory: nat)
    requires run !in rehearsals && LogOutcome(log, rehearsals, run, memory).Some?
    requires forall e :: e in later && e.Ended? ==> e.run != run
    ensures LogOutcome(log + [Ended(run, status)] + later, rehearsals, run, memory) == Some(status)
    decreases |later|
  {
    var all := log + [Ended(run, status)] + later;
    if later == [] {
      assert all[..|all| - 1] == log;
    } else {
      assert all[..|all| - 1] == log + [Ended(run, status)] + later[..|later| - 1];
      LastEndingDecides(log, run, status, later[..|later| - 1], rehearsals, memory);
      assert all[|all| - 1] == later[|later| - 1] && later[|later| - 1] in later;
    }
  }
}
