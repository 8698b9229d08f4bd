/** Turning a flat stream of log entries into the jobs they belonged to
    (convex/agentLogGroupingService.ts:47-104). */
module LogGrouping {
  import opened Common

  datatype Entry = Entry(id: nat, runId: Option<string>, createdAt: int)

  datatype Group = Group(runId: Option<string>, entries: seq<Entry>, startedAt: int, lastAt: int)

  /** An empty run id is no run id. */
  predicate Linked(e: Entry) { e.runId.Some? && e.runId.value != "" }

  // ------------------------------------------------------------------- a stable sort

  ghost predicate SortedBy<T(!new)>(s: seq<T>, key: T -> int) {
    forall i, j :: 0 <= i < j < |s| ==> key(s[i]) <= key(s[j])
  }

  function InsertBy<T>(s: seq<T>, x: T, key: T -> int): seq<T> {
    if s == [] || key(s[|s| - 1]) <= key(x) then s + [x]
    else InsertBy(s[..|s| - 1], x, key) + [s[|s| - 1]]
  }

  function SortBy<T>(s: seq<T>, key: T -> int): seq<T> {
    if s == [] then [] else InsertBy(SortBy(s[..|s| - 1], key), s[|s| - 1], key)
  }

  /** The elements with one key, in the order they stand. */
  function WithKey<T>(s: seq<T>, key: T -> int, k: int): seq<T> {
    if s == [] then []
    else WithKey(s[..|s| - 1], key, k) + if key(s[|s| - 1]) == k then [s[|s| - 1]] else []
  }

  lemma SortedAppend<T(!new)>(s: seq<T>, x: T, key: T -> int)
    requires SortedBy(s, key) && forall i :: 0 <= i < |s| ==> key(s[i]) <= key(x)
    ensures SortedBy(s + [x], key)
  {
  }

  lemma {:induction false} InsertMembers<T(!new)>(s: seq<T>, x: T, key: T -> int)
    ensures multiset(InsertBy(s, x, key)) == multiset(s) + multiset{x}
  {
    if s != [] && key(s[|s| - 1]) > key(x) {
      assert s == s[..|s| - 1] + [s[|s| - 1]];
      InsertMembers(s[..|s| - 1], x, key);
    }
  }

  lemma {:induction false} InsertSorts<T(!new)>(s: seq<T>, x: T, key: T -> int)
    requires SortedBy(s, key)
    ensures SortedBy(InsertBy(s, x, key), key)
  {
    if s == [] || key(s[|s| - 1]) <= key(x) {
      SortedAppend(s, x, key);
    } else {
      var front, last := s[..|s| - 1], s[|s| - 1];
      InsertSorts(front, x, key);
      InsertMembers(front, x, key);
      var r := InsertBy(front, x, key);
      forall i | 0 <= i < |r|
        ensures key(r[i]) <= key(last)
      {
        assert r[i] in multiset(r);
        assert r[i] == x || r[i] in front;
      }
      SortedAppend(r, last, key);
    }
  }

  lemma {:induction false} InsertIsStable<T(!new)>(s: seq<T>, x: T, key: T -> int, k: int)
    ensures WithKey(InsertBy(s, x, key), key, k) == WithKey(s + [x], key, k)
  {
    assert (s + [x])[..|s|] == s;
    if s != [] && key(s[|s| - 1]) > key(x) {
      var front, last := s[..|s| - 1], s[|s| - 1];
      InsertIsStable(front, x, key, k);
      var r := InsertBy(front, x, key);
      assert (r + [last])[..|r|] == r;
      assert (front + [x])[..|front|] == front;
    }
  }

  lemma {:induction false} SortIsStable<T(!new)>(s: seq<T>, key: T -> int, k: int)
    ensures SortedBy(SortBy(s, key), key) && multiset(SortBy(s, key)) == multiset(s)
    ensures WithKey(SortBy(s, key), key, k) == WithKey(s, key, k)
  {
    if s != [] {
      var front, last := s[..|s| - 1], s[|s| - 1];
      assert s == front + [last];
      SortIsStable(front, key, k);
      InsertSorts(SortBy(front, key), last, key);
      InsertMembers(SortBy(front, key), last, key);
      InsertIsStable(SortBy(front, key), last, key, k);
      var sorted := SortBy(front, key);
      assert (sorted + [last])[..|sorted|] == sorted;
    }
  }

  // ------------------------------------------------------------------ what a group is

  /** The run ids that occur, in the order they first do. */
  function RunIds(entries: seq<Entry>): seq<string> {
    if entries == [] then []
    else
      var ids, e := RunIds(entries[..|entries| - 1]), entries[|entries| - 1];
      if Linked(e) && e.runId.value !in ids then ids + [e.runId.value] else ids
  }

  function OfRun(entries: seq<Entry>, id: string): seq<Entry> {
    if entries == [] then []
    else
      var e := entries[|entries| - 1];
      OfRun(entries[..|entries| - 1], id) + if Linked(e) && e.runId.value == id then [e] else []
  }

  function Earliest(entries: seq<Entry>): int
    requires entries != []
  {
    var t := entries[|entries| - 1].createdAt;
    if |entries| == 1 then t
    else
      var before := Earliest(entries[..|entries| - 1]);
      if before < t then before else t
  }

  function Latest(entries: seq<Entry>): int
    requires entries != []
  {
    var t := entries[|entries| - 1].createdAt;
    if |entries| == 1 then t
    else
      var before := Latest(entries[..|entries| - 1]);
      if before > t then before else t
  }

  function CreatedAt(e: Entry): int { e.createdAt }

  function NewestFirst(g: Group): int { -g.lastAt }

  lemma {:induction false} OfRunIsNonempty(entries: seq<Entry>, id: string)
    ensures id in RunIds(entries) <==> OfRun(entries, id) != []
  {
    if entries != [] {
      OfRunIsNonempty(entries[..|entries| - 1], id);
    }
  }

  function RunGroup(entries: seq<Entry>, id: string): Group
    requires OfRun(entries, id) != []
  {
    var own := OfRun(entries, id);
    Group(Some(id), own, Earliest(own), Latest(own))
  }

  function Single(e: Entry): Group { Group(None, [e], e.createdAt, e.createdAt) }

  /** One group an entry that belongs to no run. */
  function Loose(entries: seq<Entry>): seq<Group> {
    if entries == [] then []
    else Loose(entries[..|entries| - 1]) + if Linked(entries[|entries| - 1]) then [] else [Single(entries[|entries| - 1])]
  }

  function SortEntries(g: Group): Group { g.(entries := SortBy(g.entries, CreatedAt)) }

  /** The groups before sorting: one a run, in order of first appearance, then one an unlinked entry. */
  function Collected(entries: seq<Entry>): seq<Group> {
    var ids := RunIds(entries);
    seq(|ids|, i requires 0 <= i < |ids| => OfRunIsNonempty(entries, ids[i]); RunGroup(entries, ids[i])) + Loose(entries)
  }

  function Grouped(entries: seq<Entry>): seq<Group> {
    var groups := Collected(entries);
    SortBy(seq(|groups|, i requires 0 <= i < |groups| => SortEntries(groups[i])), NewestFirst)
  }

  // ------------------------------------------------------------------------ the loop

  /** The loop's variables stand for the entries read so far. */
  ghost predicate Gathered(entries: seq<Entry>, order: seq<string>, byRun: map<string, Group>, unlinked: seq<Group>) {
    && order == RunIds(entries) && unlinked == Loose(entries)
    && (forall id :: id in byRun <==> id in order)
    && (forall id :: id in byRun ==> OfRun(entries, id) != [] && byRun[id] == RunGroup(entries, id))
  }

  /** One more entry of a run already seen. */
  function Extended(existing: Group, e: Entry): Group {
    existing.(entries := existing.entries + [e],
              startedAt := if existing.startedAt < e.createdAt then existing.startedAt else e.createdAt,
              lastAt := if existing.lastAt > e.createdAt then existing.lastAt else e.createdAt)
  }

  lemma PartsMore(entries: seq<Entry>, e: Entry, id: string)
    ensures OfRun(entries + [e], id) == if Linked(e) && e.runId.value == id then OfRun(entries, id) + [e] else OfRun(entries, id)
    ensures RunIds(entries + [e]) == if Linked(e) && e.runId.value !in RunIds(entries) then RunIds(entries) + [e.runId.value] else RunIds(entries)
    ensures Loose(entries + [e]) == if Linked(e) then Loose(entries) else Loose(entries) + [Single(e)]
  {
    assert (entries + [e])[..|entries|] == entries;
    assert OfRun(entries, id) + [] == OfRun(entries, id) && Loose(entries) + [] == Loose(entries);
  }

  lemma EndsMore(own: seq<Entry>, e: Entry)
    requires own != []
    ensures Earliest(own + [e]) == if Earliest(own) < e.createdAt then Earliest(own) else e.createdAt
    ensures Latest(own + [e]) == if Latest(own) > e.createdAt then Latest(own) else e.createdAt
  {
    assert (own + [e])[..|own|] == own;
  }

  /** What one more entry does to each part. */
  lemma OneEntryMore(entries: seq<Entry>, e: Entry, id: string)
    ensures OfRun(entries + [e], id) == if Linked(e) && e.runId.value == id then OfRun(entries, id) + [e] else OfRun(entries, id)
    ensures RunIds(entries + [e]) == if Linked(e) && e.runId.value !in RunIds(entries) then RunIds(entries) + [e.runId.value] else RunIds(entries)
    ensures Loose(entries + [e]) == if Linked(e) then Loose(entries) else Loose(entries) + [Single(e)]
    ensures OfRun(entries, id) != [] ==>
              && OfRun(entries + [e], id) != []
              && RunGroup(entries + [e], id) == if Linked(e) && e.runId.value == id then Extended(RunGroup(entries, id), e) else RunGroup(entries, id)
    ensures OfRun(entries, id) == [] && Linked(e) && e.runId.value == id ==>
              RunGroup(entries + [e], id) == Group(e.runId, [e], e.createdAt, e.createdAt)
  {
    hide OfRun, RunIds, Loose, Earliest, Latest;
    PartsMore(entries, e, id);
    var own := OfRun(entries, id);
    if own != [] {
      EndsMore(own, e);
    } else {
      assert own + [e] == [e];
      EndsOfOne(e);
    }
  }

  lemma EndsOfOne(e: Entry)
    ensures Earliest([e]) == Latest([e]) == e.createdAt
  {
  }

  lemma Gather(entries: seq<Entry>, e: Entry, order: seq<string>, byRun: map<string, Group>, unlinked: seq<Group>)
    requires Gathered(entries, order, byRun, unlinked)
    ensures if !Linked(e) then Gathered(entries + [e], order, byRun, unlinked + [Single(e)])
            else if e.runId.value in byRun
            then Gathered(entries + [e], order, byRun[e.runId.value := Extended(byRun[e.runId.value], e)], unlinked)
            else Gathered(entries + [e], order + [e.runId.value],
                          byRun[e.runId.value := Group(e.runId, [e], e.createdAt, e.createdAt)], unlinked)
  {
    hide OfRun, RunIds, Loose, RunGroup, Extended;
    forall id: string {
      OneEntryMore(entries, e, id);
    }
    OneEntryMore(entries, e, "");
    if Linked(e) {
      OfRunIsNonempty(entries, e.runId.value);
    }
  }

  /** The grouping loop: a map of open groups and a list of single ones, updated entry by entry. */
  method GroupLogsByRun(entries: seq<Entry>) returns (groups: seq<Group>)
    ensures groups == Grouped(entries)
  {
    var byRun: map<string, Group> := map[];
    var order: seq<string> := [];
    var unlinked: seq<Group> := [];
    assert Gathered(entries[..0], order, byRun, unlinked);
    hide Gathered;
    for n := 0 to |entries|
      invariant Gathered(entries[..n], order, byRun, unlinked)
    {
      var entry := entries[n];
      assert entries[..n + 1] == entries[..n] + [entry];
      Gather(entries[..n], entry, order, byRun, unlinked);
      if !Linked(entry) {
        unlinked := unlinked + [Single(entry)];
      } else if entry.runId.value in byRun {
        byRun := byRun[entry.runId.value := Extended(byRun[entry.runId.value], entry)];
      } else {
        byRun := byRun[entry.runId.value := Group(entry.runId, [entry], entry.createdAt, entry.createdAt)];
        order := order + [entry.runId.value];
      }
    }
    assert entries[..|entries|] == entries;
    Gathering(entries, order, byRun, unlinked);
    groups := seq(|order|, i requires 0 <= i < |order| && order[i] in byRun => byRun[order[i]]) + unlinked;
    groups := seq(|groups|, i requires 0 <= i < |groups| => SortEntries(groups[i]));
    groups := SortBy(groups, NewestFirst);
  }

  lemma Gathering(entries: seq<Entry>, order: seq<string>, byRun: map<string, Group>, unlinked: seq<Group>)
    requires Gathered(entries, order, byRun, unlinked)
    ensures forall i :: 0 <= i < |order| ==> order[i] in byRun
    ensures seq(|order|, i requires 0 <= i < |order| && order[i] in byRun => byRun[order[i]]) + unlinked == Collected(entries)
  {
  }

  // ------------------------------------------------------------------ what it promises

  /** The entries of all groups together. */
  function Flatten(groups: seq<Group>): multiset<Entry> {
    if groups == [] then multiset{}
    else Flatten(groups[..|groups| - 1]) + multiset(groups[|groups| - 1].entries)
  }

  lemma {:induction false} FlattenAppend(a: seq<Group>, b: seq<Group>)
    ensures Flatten(a + b) == Flatten(a) + Flatten(b)
  {
    if b == [] {
      assert a + b == a;
    } else {
      assert (a + b)[..|a + b| - 1] == a + b[..|b| - 1];
      FlattenAppend(a, b[..|b| - 1]);
    }
  }

  /** Sorting groups, or the entries within them, moves nothing in or out. */
  lemma {:induction false} FlattenInsert(s: seq<Group>, g: Group)
    ensures Flatten(InsertBy(s, g, NewestFirst)) == Flatten(s) + multiset(g.entries)
  {
    assert (s + [g])[..|s|] == s;
    if s != [] && NewestFirst(s[|s| - 1]) > NewestFirst(g) {
      FlattenInsert(s[..|s| - 1], g);
      var r := InsertBy(s[..|s| - 1], g, NewestFirst);
      assert (r + [s[|s| - 1]])[..|r|] == r;
    }
  }

  lemma {:induction false} FlattenSort(s: seq<Group>)
    ensures Flatten(SortBy(s, NewestFirst)) == Flatten(s)
  {
    if s != [] {
      FlattenSort(s[..|s| - 1]);
      FlattenInsert(SortBy(s[..|s| - 1], NewestFirst), s[|s| - 1]);
    }
  }

  lemma {:induction false} FlattenSortEntries(s: seq<Group>, t: seq<Group>)
    requires |s| == |t| && forall i :: 0 <= i < |s| ==> t[i] == SortEntries(s[i])
    ensures Flatten(t) == Flatten(s)
  {
    if s != [] {
      FlattenSortEntries(s[..|s| - 1], t[..|t| - 1]);
      SortIsStable(s[|s| - 1].entries, CreatedAt, 0);
    }
  }

  /** The run groups of `ids` alone. */
  function RunGroups(entries: seq<Entry>, ids: seq<string>): seq<Group>
    requires forall i :: 0 <= i < |ids| ==> OfRun(entries, ids[i]) != []
  {
    seq(|ids|, i requires 0 <= i < |ids| => RunGroup(entries, ids[i]))
  }

  lemma FlattenLast(entries: seq<Entry>, ids: seq<string>)
    requires ids != [] && forall i :: 0 <= i < |ids| ==> OfRun(entries, ids[i]) != []
    ensures Flatten(RunGroups(entries, ids))
            == Flatten(RunGroups(entries, ids[..|ids| - 1])) + multiset(OfRun(entries, ids[|ids| - 1]))
  {
    hide OfRun;
    var groups := RunGroups(entries, ids);
    assert groups[..|groups| - 1] == RunGroups(entries, ids[..|ids| - 1]);
  }

  function Once(e: Entry, here: bool): multiset<Entry> { if here then multiset{e} else multiset{} }

  predicate Among(e: Entry, ids: seq<string>) { Linked(e) && e.runId.value in ids }

  lemma AmongLast(e: Entry, ids: seq<string>)
    requires ids != [] && forall i, j :: 0 <= i < j < |ids| ==> ids[i] != ids[j]
    ensures var last := [ids[|ids| - 1]]; var front := ids[..|ids| - 1];
            Once(e, Among(e, ids)) == Once(e, Among(e, front)) + Once(e, Among(e, last))
  {
    var front, last := ids[..|ids| - 1], ids[|ids| - 1];
    assert ids == front + [last] && last !in front;
  }

  lemma OwnGrows(entries: seq<Entry>, e: Entry, id: string)
    ensures multiset(OfRun(entries + [e], id)) == multiset(OfRun(entries, id)) + Once(e, Among(e, [id]))
  {
    hide OfRun;
    OneEntryMore(entries, e, id);
  }

  /** One more entry of a run adds itself to the run's one group. */
  lemma {:induction false} FlattenRunGroups(entries: seq<Entry>, e: Entry, ids: seq<string>)
    requires forall i :: 0 <= i < |ids| ==> OfRun(entries, ids[i]) != [] && OfRun(entries + [e], ids[i]) != []
    requires forall i, j :: 0 <= i < j < |ids| ==> ids[i] != ids[j]
    ensures Flatten(RunGroups(entries + [e], ids)) == Flatten(RunGroups(entries, ids)) + Once(e, Among(e, ids))
  {
    hide OfRun, RunGroups, Flatten, Once;
    if ids == [] {
      assert RunGroups(entries + [e], ids) == RunGroups(entries, ids) by { NoRunGroups(entries, entries + [e]); }
      assert Once(e, Among(e, ids)) == multiset{} by { NotAmongNone(e); }
    } else {
      FlattenRunGroups(entries, e, ids[..|ids| - 1]);
      FlattenLast(entries, ids);
      FlattenLast(entries + [e], ids);
      OwnGrows(entries, e, ids[|ids| - 1]);
      AmongLast(e, ids);
    }
  }

  lemma NotAmongNone(e: Entry)
    ensures Once(e, Among(e, [])) == multiset{}
  {
  }

  lemma NoRunGroups(entries: seq<Entry>, more: seq<Entry>)
    ensures RunGroups(entries, []) == RunGroups(more, [])
  {
  }

  lemma {:induction false} RunIdsDistinct(entries: seq<Entry>)
    ensures forall i, j :: 0 <= i < j < |RunIds(entries)| ==> RunIds(entries)[i] != RunIds(entries)[j]
    ensures forall i :: 0 <= i < |RunIds(entries)| ==> OfRun(entries, RunIds(entries)[i]) != []
  {
    if entries != [] {
      RunIdsDistinct(entries[..|entries| - 1]);
    }
    forall i | 0 <= i < |RunIds(entries)|
      ensures OfRun(entries, RunIds(entries)[i]) != []
    {
      OfRunIsNonempty(entries, RunIds(entries)[i]);
    }
  }

  lemma {:induction false} CollectedIsAPartition(entries: seq<Entry>)
    ensures Flatten(Collected(entries)) == multiset(entries)
  {
    if entries == [] {
      assert Collected(entries) == [];
    } else {
      var front, e := entries[..|entries| - 1], entries[|entries| - 1];
      assert entries == front + [e];
      CollectedIsAPartition(front);
      CollectedMore(front, e);
    }
  }

  lemma CollectedMore(entries: seq<Entry>, e: Entry)
    ensures Flatten(Collected(entries + [e])) == Flatten(Collected(entries)) + multiset{e}
  {
    hide OfRun, RunIds, Loose, RunGroup, Flatten, RunGroups, Collected;
    CollectedParts(entries);
    CollectedParts(entries + [e]);
    RunGroupsMore(entries, e);
    LooseMore(entries, e);
  }

  lemma CollectedParts(entries: seq<Entry>)
    ensures forall i :: 0 <= i < |RunIds(entries)| ==> OfRun(entries, RunIds(entries)[i]) != []
    ensures Flatten(Collected(entries)) == Flatten(RunGroups(entries, RunIds(entries))) + Flatten(Loose(entries))
  {
    hide OfRun, RunIds, Loose, RunGroup, Flatten;
    RunIdsDistinct(entries);
    assert Collected(entries) == RunGroups(entries, RunIds(entries)) + Loose(entries);
    FlattenAppend(RunGroups(entries, RunIds(entries)), Loose(entries));
  }

  lemma LooseMore(entries: seq<Entry>, e: Entry)
    ensures Flatten(Loose(entries + [e])) == Flatten(Loose(entries)) + Once(e, !Linked(e))
  {
    hide Loose, Flatten;
    OneEntryMore(entries, e, "");
    if !Linked(e) {
      FlattenAppend(Loose(entries), [Single(e)]);
      FlattenOne(Single(e));
    }
  }

  lemma RunGroupsMore(entries: seq<Entry>, e: Entry)
    requires forall i :: 0 <= i < |RunIds(entries)| ==> OfRun(entries, RunIds(entries)[i]) != []
    requires forall i :: 0 <= i < |RunIds(entries + [e])| ==> OfRun(entries + [e], RunIds(entries + [e])[i]) != []
    ensures Flatten(RunGroups(entries + [e], RunIds(entries + [e])))
            == Flatten(RunGroups(entries, RunIds(entries))) + Once(e, Linked(e))
  {
    hide OfRun, RunIds, RunGroups, Flatten;
    var ids, all := RunIds(entries), entries + [e];
    RunIdsDistinct(entries);
    OneEntryMore(entries, e, if Linked(e) then e.runId.value else "");
    forall i | 0 <= i < |ids|
      ensures OfRun(all, ids[i]) != []
    {
      OneEntryMore(entries, e, ids[i]);
    }
    FlattenRunGroups(entries, e, ids);
    if Linked(e) && e.runId.value !in ids {
      OfRunIsNonempty(entries, e.runId.value);
      assert RunIds(all)[..|ids|] == ids;
      FlattenLast(all, RunIds(all));
    }
  }

  lemma FlattenOne(g: Group)
    ensures Flatten([g]) == multiset(g.entries)
  {
    assert [g][..0] == [];
  }

  /** The groups hold exactly the entries they were given, each as often, none twice. */
  lemma GroupingIsAPartition(entries: seq<Entry>)
    ensures Flatten(Grouped(entries)) == multiset(entries)
  {
    var groups := Collected(entries);
    var sorted := seq(|groups|, i requires 0 <= i < |groups| => SortEntries(groups[i]));
    FlattenSort(sorted);
    FlattenSortEntries(groups, sorted);
    CollectedIsAPartition(entries);
  }

  lemma {:induction false} EarliestIsLeast(s: seq<Entry>)
    requires s != []
    ensures forall e :: e in s ==> Earliest(s) <= e.createdAt <= Latest(s)
    ensures exists e :: e in s && e.createdAt == Earliest(s)
    ensures exists e :: e in s && e.createdAt == Latest(s)
  {
    var front, last := s[..|s| - 1], s[|s| - 1];
    assert s == front + [last];
    if front != [] {
      EarliestIsLeast(front);
    }
  }

  lemma SortedEnds(own: seq<Entry>)
    requires own != []
    ensures var s := SortBy(own, CreatedAt);
            && s != [] && SortedBy(s, CreatedAt)
            && s[0].createdAt == Earliest(own) && s[|s| - 1].createdAt == Latest(own)
  {
    hide SortBy, Earliest, Latest, WithKey;
    var s := SortBy(own, CreatedAt);
    SortIsStable(own, CreatedAt, 0);
    assert |multiset(s)| == |multiset(own)|;
    EarliestIsLeast(own);
    var first: Entry :| first in own && first.createdAt == Earliest(own);
    var last: Entry :| last in own && last.createdAt == Latest(own);
    assert first in multiset(s) && last in multiset(s) && s[0] in multiset(s) && s[|s| - 1] in multiset(s);
    var i :| 0 <= i < |s| && s[i] == first;
    var j :| 0 <= j < |s| && s[j] == last;
    assert CreatedAt(s[0]) <= CreatedAt(s[i]) && CreatedAt(s[j]) <= CreatedAt(s[|s| - 1]);
  }

  /** A group tells a job: its entries in the order they happened, its times those of the first
      and the last, a run's group all of the run's entries and an unlinked one a single entry. */
  ghost predicate TellsAJob(entries: seq<Entry>, g: Group) {
    && g.entries != [] && SortedBy(g.entries, CreatedAt)
    && g.startedAt == g.entries[0].createdAt && g.lastAt == g.entries[|g.entries| - 1].createdAt
    && (g.runId.Some? ==>
          && g.runId.value in RunIds(entries)
          && multiset(g.entries) == multiset(OfRun(entries, g.runId.value))
          && forall t :: WithKey(g.entries, CreatedAt, t) == WithKey(OfRun(entries, g.runId.value), CreatedAt, t))
    && (g.runId.None? ==> |g.entries| == 1 && !Linked(g.entries[0]))
  }

  lemma RunGroupTells(entries: seq<Entry>, id: string)
    requires id in RunIds(entries)
    ensures OfRun(entries, id) != [] && TellsAJob(entries, SortEntries(RunGroup(entries, id)))
  {
    hide SortBy, Earliest, Latest, WithKey, OfRun, RunIds, SortedBy;
    OfRunIsNonempty(entries, id);
    var own := OfRun(entries, id);
    SortedEnds(own);
    SortIsStable(own, CreatedAt, 0);
    forall t
      ensures WithKey(SortBy(own, CreatedAt), CreatedAt, t) == WithKey(own, CreatedAt, t)
    {
      SortIsStable(own, CreatedAt, t);
    }
  }

  lemma SingleTells(e: Entry, all: seq<Entry>)
    requires !Linked(e)
    ensures SortEntries(Single(e)) == Single(e) && TellsAJob(all, Single(e))
  {
    assert [e][..0] == [] && SortBy([], CreatedAt) == [];
    assert SortBy([e], CreatedAt) == [e];
  }

  lemma {:induction false} LooseTells(entries: seq<Entry>, all: seq<Entry>)
    ensures forall i :: 0 <= i < |Loose(entries)| ==>
              Loose(entries)[i].runId.None? && SortEntries(Loose(entries)[i]) == Loose(entries)[i] && TellsAJob(all, Loose(entries)[i])
  {
    hide TellsAJob, SortEntries;
    if entries != [] {
      LooseTells(entries[..|entries| - 1], all);
      if !Linked(entries[|entries| - 1]) {
        SingleTells(entries[|entries| - 1], all);
      }
    }
  }

  /** The groups before the last sort, entries already in order. */
  function Ordered(entries: seq<Entry>): seq<Group> {
    var groups := Collected(entries);
    seq(|groups|, i requires 0 <= i < |groups| => SortEntries(groups[i]))
  }

  lemma OrderedTells(entries: seq<Entry>)
    ensures var gs, ids := Ordered(entries), RunIds(entries);
            && |gs| >= |ids|
            && (forall i :: 0 <= i < |gs| ==> TellsAJob(entries, gs[i]))
            && (forall i :: 0 <= i < |gs| ==> gs[i].runId == if i < |ids| then Some(ids[i]) else None)
  {
    hide OfRun, RunIds, TellsAJob;
    var gs, ids := Ordered(entries), RunIds(entries);
    LooseTells(entries, entries);
    forall i | 0 <= i < |gs|
      ensures TellsAJob(entries, gs[i]) && gs[i].runId == if i < |ids| then Some(ids[i]) else None
    {
      if i < |ids| {
        RunGroupTells(entries, ids[i]);
      } else {
        assert Collected(entries)[i] == Loose(entries)[i - |ids|];
      }
    }
  }

  lemma TwicePresent<T>(s: seq<T>, i: nat, j: nat)
    requires i < j < |s| && s[i] == s[j]
    ensures multiset(s)[s[i]] >= 2
  {
    assert s == s[..j] + ([s[j]] + s[j + 1..]);
    assert s[i] in s[..j];
  }

  lemma {:induction false} OncePresent<T>(s: seq<T>, k: nat)
    requires k < |s| && forall i :: 0 <= i < |s| && i != k ==> s[i] != s[k]
    ensures multiset(s)[s[k]] == 1
  {
    assert s == s[..k] + ([s[k]] + s[k + 1..]);
    assert s[k] !in s[..k] && s[k] !in s[k + 1..];
  }

  /** Rearranging groups with distinct run ids leaves them distinct. */
  lemma StillDistinct(groups: seq<Group>, before: seq<Group>, i: nat, j: nat)
    requires multiset(groups) == multiset(before) && i < j < |groups|
    requires forall k, l :: 0 <= k < l < |before| && before[k].runId.Some? ==> before[k].runId != before[l].runId
    ensures groups[i].runId.Some? ==> groups[i].runId != groups[j].runId
  {
    if groups[i].runId.Some? && groups[i].runId == groups[j].runId {
      assert groups[i] in multiset(before) && groups[j] in multiset(before);
      var k :| 0 <= k < |before| && before[k] == groups[i];
      var l :| 0 <= l < |before| && before[l] == groups[j];
      OncePresent(before, k);
      TwicePresent(groups, i, j);
    }
  }

  lemma SamePresent(a: seq<Group>, b: seq<Group>, g: Group)
    requires multiset(a) == multiset(b)
    ensures g in a <==> g in b
  {
    assert g in multiset(a) <==> g in multiset(b);
  }

  /** The runs are those some entry names; an empty name names none. */
  lemma {:induction false} RunIdsAreNamed(entries: seq<Entry>)
    ensures forall id :: id in RunIds(entries) <==> id != "" && exists e :: e in entries && e.runId == Some(id)
  {
    if entries != [] {
      var front, last := entries[..|entries| - 1], entries[|entries| - 1];
      RunIdsAreNamed(front);
      assert entries == front + [last];
    }
  }

  /**
   * The whole promise: newest job first; each group tells one job; each run has one group
   * and each entry without a run a group of its own.
   */
  lemma GroupsAreTheJobs(entries: seq<Entry>)
    ensures var groups := Grouped(entries);
            && (forall i, j :: 0 <= i < j < |groups| ==> groups[i].lastAt >= groups[j].lastAt)
            && (forall g :: g in groups ==> TellsAJob(entries, g))
            && (forall i, j :: 0 <= i < j < |groups| && groups[i].runId.Some? ==> groups[i].runId != groups[j].runId)
            && (forall id :: id in RunIds(entries) ==> exists g :: g in groups && g.runId == Some(id))
    ensures forall id :: id in RunIds(entries) <==> id != "" && exists e :: e in entries && e.runId == Some(id)
  {
    hide OfRun, RunIds, TellsAJob, Ordered, Grouped, SortBy, WithKey;
    var groups, before, ids := Grouped(entries), Ordered(entries), RunIds(entries);
    GroupedIsSorted(entries);
    SortIsStable(before, NewestFirst, 0);
    OrderedTells(entries);
    RunIdsDistinct(entries);
    RunIdsAreNamed(entries);
    forall i, j | 0 <= i < j < |groups|
      ensures groups[i].lastAt >= groups[j].lastAt
      ensures groups[i].runId.Some? ==> groups[i].runId != groups[j].runId
    {
      assert NewestFirst(groups[i]) <= NewestFirst(groups[j]);
      StillDistinct(groups, before, i, j);
    }
    forall g | g in groups
      ensures TellsAJob(entries, g)
    {
      SamePresent(groups, before, g);
    }
    forall id | id in ids
      ensures exists g :: g in groups && g.runId == Some(id)
    {
      var k :| 0 <= k < |ids| && ids[k] == id;
      SamePresent(groups, before, before[k]);
    }
  }

  lemma GroupedIsSorted(entries: seq<Entry>)
    ensures Grouped(entries) == SortBy(Ordered(entries), NewestFirst)
  {
  }
}
