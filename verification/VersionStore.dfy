/** Agent versions, found or inserted by the hash of their snapshot
    (convex/agentVersioningService.ts:11-18 and 205-232). */
module VersionStore {
  import opened Common

  // ------------------------------------------------------------------------ the hash

  /** A UTF-16 code unit. */
  type CodeUnit = n: nat | n < 65536

  const TWO_31 := 0x8000_0000
  const TWO_32 := 0x1_0000_0000

  /** Conversion to a signed 32-bit integer, as every bitwise operator does it. */
  function ToInt32(n: int): (r: int)
    ensures -TWO_31 <= r < TWO_31
    ensures r % TWO_32 == n % TWO_32
  {
    var m := n % TWO_32;
    assert n == m + n / TWO_32 * TWO_32 == m - TWO_32 + (n / TWO_32 + 1) * TWO_32;
    SameResidue(m, n / TWO_32);
    SameResidue(m - TWO_32, n / TWO_32 + 1);
    if m >= TWO_31 then m - TWO_32 else m
  }

  lemma SameResidue(a: int, k: int)
    ensures (a + k * TWO_32) % TWO_32 == a % TWO_32
  {
    var q, r := a / TWO_32, a % TWO_32;
    assert a + k * TWO_32 == (q + k) * TWO_32 + r;
  }

  function Shl5(n: int): int { ToInt32(ToInt32(n) * 32) }

  function ToUint32(n: int): nat { ToInt32(n) % TWO_32 }

  function Pow33(n: nat): nat { if n == 0 then 1 else 33 * Pow33(n - 1) }

  /** The sum of `s[i]` times 33 to the number of code units after it. */
  function Weighted(s: seq<CodeUnit>): nat {
    if s == [] then 0 else s[0] * Pow33(|s| - 1) + Weighted(s[1..])
  }

  /** What the hash is meant to be, with no wrapping on the way. */
  function Hash(s: seq<CodeUnit>): nat { (5381 * Pow33(|s|) + Weighted(s)) % TWO_32 }

  lemma {:induction false} WeightedAppend(s: seq<CodeUnit>, c: CodeUnit)
    ensures Weighted(s + [c]) == 33 * Weighted(s) + c
  {
    if s == [] {
      assert [c][1..] == [];
    } else {
      assert (s + [c])[1..] == s[1..] + [c];
      WeightedAppend(s[1..], c);
    }
  }

  lemma SumOfResidues(a: int, b: int, c: int)
    requires a % TWO_32 == b % TWO_32
    ensures (a + c) % TWO_32 == (b + c) % TWO_32
  {
    var k := a / TWO_32 - b / TWO_32;
    assert a + c == (b + c) + k * TWO_32;
    SameResidue(b + c, k);
  }

  lemma TimesThirtyThree(a: int, b: int)
    requires a % TWO_32 == b % TWO_32
    ensures (33 * a) % TWO_32 == (33 * b) % TWO_32
  {
    var k := a / TWO_32 - b / TWO_32;
    assert 33 * a == 33 * b + 33 * k * TWO_32;
    SameResidue(33 * b, 33 * k);
  }

  /** One turn of the loop: whatever wraps, the value modulo 2^32 is 33 times the last plus the unit. */
  lemma LoopTurn(hash: int, c: CodeUnit, exact: int)
    requires -TWO_31 <= hash < TWO_31 && hash % TWO_32 == exact % TWO_32
    ensures ToInt32(Shl5(hash) + hash + c) % TWO_32 == (33 * exact + c) % TWO_32
  {
    assert ToInt32(hash) == hash;
    SumOfResidues(Shl5(hash), hash * 32, hash + c);
    TimesThirtyThree(hash, exact);
    SumOfResidues(33 * hash, 33 * exact, c);
  }

  method HashString(value: seq<CodeUnit>) returns (r: nat)
    ensures r == Hash(value)
  {
    var hash := 5381;
    for index := 0 to |value|
      invariant -TWO_31 <= hash < TWO_31
      invariant hash % TWO_32 == (5381 * Pow33(index) + Weighted(value[..index])) % TWO_32
    {
      assert value[..index + 1] == value[..index] + [value[index]];
      WeightedAppend(value[..index], value[index]);
      LoopTurn(hash, value[index], 5381 * Pow33(index) + Weighted(value[..index]));
      hash := Shl5(hash) + hash + value[index];
      hash := ToInt32(hash);
    }
    assert value[..|value|] == value;
    r := ToUint32(hash);
  }

  /** Two known values: nothing hashes to the seed, and 'ab' to 33 times what 'a' does plus 98. */
  lemma HashOfKnown()
    ensures Hash([]) == 5381 && Hash([97]) == 177_670 && Hash([97, 98]) == 5_863_208
  {
    assert [97][1..] == [] && [97, 98][1..] == [98] && [98][1..] == [];
    assert Pow33(1) == 33 && Pow33(2) == 1089 && Weighted([98]) == 98;
  }

  // --------------------------------------------------------------------- collisions

  lemma {:induction false} WeightedConcat(a: seq<CodeUnit>, b: seq<CodeUnit>)
    ensures Weighted(a + b) == Weighted(a) * Pow33(|b|) + Weighted(b)
  {
    if a == [] {
      assert a + b == b;
    } else {
      assert (a + b)[1..] == a[1..] + b;
      WeightedConcat(a[1..], b);
      PowerAdds(|a| - 1, |b|);
      Distribute(a[0], Pow33(|a| - 1), Pow33(|b|), Weighted(a[1..]));
    }
  }

  lemma Distribute(x: nat, p: nat, q: nat, w: nat)
    ensures x * (p * q) + w * q == (x * p + w) * q
  {
  }

  lemma {:induction false} PowerAdds(m: nat, n: nat)
    ensures Pow33(m + n) == Pow33(m) * Pow33(n)
  {
    if m > 0 {
      PowerAdds(m - 1, n);
    }
  }

  function PairValue(x: seq<CodeUnit>): nat
    requires |x| == 2
  {
    var high: nat, low: nat := x[0], x[1];
    33 * high + low
  }

  /** Two units may be swapped for two others of the same weight anywhere in a snapshot without
      changing its hash: 'aB' for 'b!', say. */
  lemma CollidingSnapshots(before: seq<CodeUnit>, x: seq<CodeUnit>, y: seq<CodeUnit>, after: seq<CodeUnit>)
    requires |x| == |y| == 2 && PairValue(x) == PairValue(y)
    ensures Hash(before + x + after) == Hash(before + y + after)
    ensures [97, 66] != [98, 33] && PairValue([97, 66]) == PairValue([98, 33])
  {
    hide Pow33, Weighted;
    PairWeight(x);
    PairWeight(y);
    WeightedConcat(before + x, after);
    WeightedConcat(before + y, after);
    WeightedConcat(before, x);
    WeightedConcat(before, y);
  }

  lemma PairWeight(x: seq<CodeUnit>)
    requires |x| == 2
    ensures Weighted(x) == PairValue(x)
  {
    assert x == [x[0]] + [x[1]];
    assert Weighted([x[0]]) == x[0] * Pow33(0) + Weighted([]) by { assert [x[0]][1..] == []; }
    WeightedAppend([x[0]], x[1]);
  }

  // ----------------------------------------------------------------------- versions

  datatype Version = Version(agent: nat, number: int, hash: nat, snapshot: seq<CodeUnit>, createdAt: int)

  class Versions {
    var rows: seq<Version>

    constructor ()
      ensures rows == []
    {
      rows := [];
    }

    /** The first version of this agent with this hash. */
    method FindByHash(agent: nat, hash: nat) returns (found: Option<nat>)
      ensures found == Existing(rows, agent, hash)
    {
      for id := 0 to |rows|
        invariant Existing(rows, agent, hash) == ExistingFrom(rows, agent, hash, id)
      {
        if rows[id].agent == agent && rows[id].hash == hash {
          return Some(id);
        }
      }
      found := None;
    }

    /** The version of this agent with the greatest creation time, the later inserted of equals. */
    method FindLatest(agent: nat) returns (latest: Option<Version>)
      ensures latest == Latest(rows, agent)
    {
      latest := None;
      for id := 0 to |rows|
        invariant latest == Latest(rows[..id], agent)
      {
        assert rows[..id + 1][..id] == rows[..id];
        if rows[id].agent == agent && (latest.None? || rows[id].createdAt >= latest.value.createdAt) {
          latest := Some(rows[id]);
        }
      }
      assert rows[..|rows|] == rows;
    }

    method EnsureAgentVersionSnapshot(agent: nat, snapshot: seq<CodeUnit>, now: int) returns (id: nat)
      modifies this
      ensures rows == Ensured(old(rows), Request(agent, snapshot, now))
      ensures Existing(rows, agent, Hash(snapshot)) == Some(id)
      ensures rows == if id < |old(rows)| then old(rows)
                      else old(rows) + [Version(agent, NextNumber(old(rows), agent), Hash(snapshot), snapshot, now)]
    {
      hide Hash;
      var hash := HashString(snapshot);
      var existing := FindByHash(agent, hash);
      if existing.Some? {
        return existing.value;
      }
      var latest := FindLatest(agent);
      id := |rows|;
      NewVersionIsFound(rows, Version(agent, (if latest.Some? then latest.value.number else 0) + 1, hash, snapshot, now));
      rows := rows + [Version(agent, (if latest.Some? then latest.value.number else 0) + 1, hash, snapshot, now)];
    }
  }

  function ExistingFrom(rows: seq<Version>, agent: nat, hash: nat, id: nat): (r: Option<nat>)
    ensures r.Some? ==> id <= r.value < |rows| && rows[r.value].agent == agent && rows[r.value].hash == hash
    ensures r.Some? ==> forall i :: id <= i < r.value ==> rows[i].agent != agent || rows[i].hash != hash
    ensures r.None? ==> forall i :: id <= i < |rows| ==> rows[i].agent != agent || rows[i].hash != hash
    decreases |rows| - id
  {
    if id >= |rows| then None
    else if rows[id].agent == agent && rows[id].hash == hash then Some(id)
    else ExistingFrom(rows, agent, hash, id + 1)
  }

  function Existing(rows: seq<Version>, agent: nat, hash: nat): Option<nat> { ExistingFrom(rows, agent, hash, 0) }

  function Latest(rows: seq<Version>, agent: nat): Option<Version> {
    if rows == [] then None
    else
      var row, before := rows[|rows| - 1], Latest(rows[..|rows| - 1], agent);
      if row.agent == agent && (before.None? || row.createdAt >= before.value.createdAt) then Some(row) else before
  }

  /** One more than the number of the agent's latest version, or 1. */
  function NextNumber(rows: seq<Version>, agent: nat): int {
    (if Latest(rows, agent).Some? then Latest(rows, agent).value.number else 0) + 1
  }

  lemma NewVersionIsFound(rows: seq<Version>, v: Version)
    requires Existing(rows, v.agent, v.hash).None?
    ensures Existing(rows + [v], v.agent, v.hash) == Some(|rows|)
  {
    assert (rows + [v])[|rows|] == v;
    assert forall i :: 0 <= i < |rows| ==> (rows + [v])[i] == rows[i];
  }

  // ---------------------------------------------------------------- over a whole history

  datatype Request = Request(agent: nat, snapshot: seq<CodeUnit>, now: int)

  function Ensured(rows: seq<Version>, q: Request): seq<Version> {
    if Existing(rows, q.agent, Hash(q.snapshot)).Some? then rows
    else
      var latest := Latest(rows, q.agent);
      rows + [Version(q.agent, (if latest.Some? then latest.value.number else 0) + 1, Hash(q.snapshot), q.snapshot, q.now)]
  }

  function AfterAll(requests: seq<Request>): seq<Version> {
    if requests == [] then [] else Ensured(AfterAll(requests[..|requests| - 1]), requests[|requests| - 1])
  }

  /** One agent's versions, in the order they were made. */
  function Of(rows: seq<Version>, agent: nat): seq<Version> {
    if rows == [] then []
    else Of(rows[..|rows| - 1], agent) + if rows[|rows| - 1].agent == agent then [rows[|rows| - 1]] else []
  }

  ghost predicate Numbered(versions: seq<Version>) {
    forall i :: 0 <= i < |versions| ==> versions[i].number == i + 1
  }

  ghost predicate DistinctHashes(versions: seq<Version>) {
    forall i, j :: 0 <= i < j < |versions| ==> versions[i].hash != versions[j].hash
  }

  /** The version made last is also the one with the greatest creation time. */
  ghost predicate LastIsLatest(versions: seq<Version>) {
    forall i :: 0 <= i < |versions| ==> versions[i].createdAt <= versions[|versions| - 1].createdAt
  }

  lemma OfAppend(rows: seq<Version>, v: Version, agent: nat)
    ensures Of(rows + [v], agent) == Of(rows, agent) + if v.agent == agent then [v] else []
  {
    assert (rows + [v])[..|rows|] == rows;
  }

  lemma {:induction false} OfMembers(rows: seq<Version>, agent: nat)
    ensures forall v :: v in Of(rows, agent) <==> v in rows && v.agent == agent
  {
    if rows != [] {
      OfMembers(rows[..|rows| - 1], agent);
      assert rows == rows[..|rows| - 1] + [rows[|rows| - 1]];
    }
  }

  /** `v` is one of `versions`, none is newer, and none made after it is as new. */
  ghost predicate IsLatest(versions: seq<Version>, v: Version) {
    exists k :: 0 <= k < |versions| && versions[k] == v
      && (forall i :: 0 <= i < k ==> versions[i].createdAt <= v.createdAt)
      && (forall i :: k < i < |versions| ==> versions[i].createdAt < v.createdAt)
  }

  lemma {:induction false} LatestIsLatest(rows: seq<Version>, agent: nat)
    ensures Latest(rows, agent).None? <==> Of(rows, agent) == []
    ensures Latest(rows, agent).Some? ==> IsLatest(Of(rows, agent), Latest(rows, agent).value)
  {
    if rows != [] {
      var row, front := rows[|rows| - 1], rows[..|rows| - 1];
      LatestIsLatest(front, agent);
      assert rows == front + [row];
      OfAppend(front, row, agent);
      if row.agent == agent {
        LatestAmong(Of(front, agent), Latest(front, agent), row);
      } else {
        assert Of(rows, agent) == Of(front, agent);
      }
    }
  }

  lemma LatestAmong(versions: seq<Version>, latest: Option<Version>, v: Version)
    requires latest.None? <==> versions == []
    requires latest.Some? ==> IsLatest(versions, latest.value)
    ensures IsLatest(versions + [v], if latest.None? || v.createdAt >= latest.value.createdAt then v else latest.value)
  {
    var all := versions + [v];
    if latest.None? || v.createdAt >= latest.value.createdAt {
      assert all[|versions|] == v;
    } else {
      var k :| 0 <= k < |versions| && versions[k] == latest.value
        && (forall i :: 0 <= i < k ==> versions[i].createdAt <= latest.value.createdAt)
        && (forall i :: k < i < |versions| ==> versions[i].createdAt < latest.value.createdAt);
      assert all[k] == latest.value;
    }
  }

  /**
   * One more version keeps the numbering 1 to n exactly when the version made last is also the
   * newest - which a clock that never runs backwards guarantees.
   */
  lemma NumberingHoldsExactly(rows: seq<Version>, q: Request)
    requires Numbered(Of(rows, q.agent)) && Existing(rows, q.agent, Hash(q.snapshot)).None?
    ensures Numbered(Of(Ensured(rows, q), q.agent)) <==> LastIsLatest(Of(rows, q.agent))
  {
    hide Hash, Existing, Numbered, LastIsLatest, IsLatest;
    var versions, latest := Of(rows, q.agent), Latest(rows, q.agent);
    var v := Version(q.agent, NextNumber(rows, q.agent), Hash(q.snapshot), q.snapshot, q.now);
    LatestIsLatest(rows, q.agent);
    OfAppend(rows, v, q.agent);
    assert Ensured(rows, q) == rows + [v];
    if versions == [] {
      NumberedFromOne(v);
    } else {
      NumberedOnExactly(versions, latest.value, v);
    }
  }

  lemma NumberedFromOne(v: Version)
    requires v.number == 1
    ensures LastIsLatest([]) && Numbered([] + [v])
  {
  }

  lemma NumberedOnExactly(versions: seq<Version>, latest: Version, v: Version)
    requires versions != [] && Numbered(versions) && IsLatest(versions, latest) && v.number == latest.number + 1
    ensures Numbered(versions + [v]) <==> LastIsLatest(versions)
  {
    var k :| 0 <= k < |versions| && versions[k] == latest
      && (forall i :: 0 <= i < k ==> versions[i].createdAt <= latest.createdAt)
      && (forall i :: k < i < |versions| ==> versions[i].createdAt < latest.createdAt);
    assert LastIsLatest(versions) <==> k == |versions| - 1;
    assert (versions + [v])[|versions|].number == k + 2;
    assert forall i :: 0 <= i < |versions| ==> (versions + [v])[i] == versions[i];
  }

  ghost predicate ClockNeverRunsBackwards(requests: seq<Request>) {
    forall i, j :: 0 <= i < j < |requests| ==> requests[i].now <= requests[j].now
  }

  ghost predicate InOrderOfTime(rows: seq<Version>, now: int) {
    && (forall i, j :: 0 <= i < j < |rows| ==> rows[i].createdAt <= rows[j].createdAt)
    && (forall i :: 0 <= i < |rows| ==> rows[i].createdAt <= now)
  }

  lemma {:induction false} OfInOrder(rows: seq<Version>, agent: nat, now: int)
    requires InOrderOfTime(rows, now)
    ensures InOrderOfTime(Of(rows, agent), now) && LastIsLatest(Of(rows, agent))
  {
    if rows != [] {
      var front := rows[..|rows| - 1];
      OfInOrder(front, agent, rows[|rows| - 1].createdAt);
    }
  }

  /**
   * Over any sequence of requests on a clock that never runs backwards: every agent's versions
   * are numbered 1 to n in the order they were made, no two with the same hash.
   */
  lemma {:induction false} VersionsAreNumbered(requests: seq<Request>, agent: nat)
    requires ClockNeverRunsBackwards(requests)
    ensures Numbered(Of(AfterAll(requests), agent)) && DistinctHashes(Of(AfterAll(requests), agent))
    ensures requests != [] ==> InOrderOfTime(AfterAll(requests), requests[|requests| - 1].now)
    ensures requests == [] ==> AfterAll(requests) == []
  {
    hide Ensured, Of;
    if requests != [] {
      var q, front := requests[|requests| - 1], requests[..|requests| - 1];
      VersionsAreNumbered(front, agent);
      VersionsStayNumbered(AfterAll(front), q, agent);
    } else {
      assert Of([], agent) == [] by { NoVersions(agent); }
    }
  }

  lemma NoVersions(agent: nat)
    ensures Of([], agent) == []
  {
  }

  lemma VersionsStayNumbered(rows: seq<Version>, q: Request, agent: nat)
    requires InOrderOfTime(rows, q.now) && Numbered(Of(rows, agent)) && DistinctHashes(Of(rows, agent))
    ensures InOrderOfTime(Ensured(rows, q), q.now)
    ensures Numbered(Of(Ensured(rows, q), agent)) && DistinctHashes(Of(Ensured(rows, q), agent))
  {
    hide Hash, Of, Latest;
    if Existing(rows, q.agent, Hash(q.snapshot)).None? {
      var v := Ensured(rows, q)[|rows|];
      OfAppend(rows, v, agent);
      if agent == q.agent {
        OfInOrder(rows, agent, q.now);
        NumberingHoldsExactly(rows, q);
        OfMembers(rows, agent);
        NewHash(rows, Of(rows, agent), v);
      } else {
        assert Of(rows, agent) + [] == Of(rows, agent);
      }
    }
  }

  lemma NewHash(rows: seq<Version>, versions: seq<Version>, v: Version)
    requires DistinctHashes(versions) && Existing(rows, v.agent, v.hash).None?
    requires forall w :: w in versions ==> w in rows && w.agent == v.agent
    ensures DistinctHashes(versions + [v])
  {
    forall i | 0 <= i < |versions|
      ensures versions[i].hash != v.hash
    {
      assert versions[i] in versions;
      var k :| 0 <= k < |rows| && rows[k] == versions[i];
    }
  }

  /** Coming back to an earlier snapshot, after anything else, adds no version and finds the one
      it found before. */
  lemma {:induction false} EarlierVersionIsFoundAgain(requests: seq<Request>, later: seq<Request>, agent: nat, snapshot: seq<CodeUnit>)
    requires Existing(AfterAll(requests), agent, Hash(snapshot)).Some?
    ensures Existing(AfterAll(requests + later), agent, Hash(snapshot)) == Existing(AfterAll(requests), agent, Hash(snapshot))
    ensures forall now :: Ensured(AfterAll(requests + later), Request(agent, snapshot, now)) == AfterAll(requests + later)
    decreases |later|
  {
    hide Hash, Existing;
    if later == [] {
      assert requests + later == requests;
    } else {
      var all, q := requests + later, later[|later| - 1];
      assert all[..|all| - 1] == requests + later[..|later| - 1] && all[|all| - 1] == q;
      EarlierVersionIsFoundAgain(requests, later[..|later| - 1], agent, snapshot);
      var rows := AfterAll(requests + later[..|later| - 1]);
      if Ensured(rows, q) != rows {
        StillFound(rows, Ensured(rows, q)[|rows|], agent, Hash(snapshot));
      }
    }
  }

  lemma StillFound(rows: seq<Version>, v: Version, agent: nat, hash: nat)
    requires Existing(rows, agent, hash).Some?
    ensures Existing(rows + [v], agent, hash) == Existing(rows, agent, hash)
  {
    assert forall i :: 0 <= i < |rows| ==> (rows + [v])[i] == rows[i];
  }

  /** The version handed out holds the snapshot asked for exactly when no different snapshot of
      this agent with the same hash was versioned first. */
  lemma SnapshotIsFaithfulExactly(rows: seq<Version>, q: Request)
    requires DistinctHashes(Of(rows, q.agent))
    ensures var after := Ensured(rows, q); var id := Existing(after, q.agent, Hash(q.snapshot));
            && id.Some?
            && (after[id.value].snapshot == q.snapshot <==>
                  forall i :: 0 <= i < |rows| && rows[i].agent == q.agent && rows[i].hash == Hash(q.snapshot) ==> rows[i].snapshot == q.snapshot)
  {
    hide Hash, Of;
    var existing := Existing(rows, q.agent, Hash(q.snapshot));
    if existing.None? {
      NewVersionIsFound(rows, Ensured(rows, q)[|rows|]);
    } else {
      OnlyOneWithHash(rows, q.agent, existing.value);
    }
  }

  lemma {:induction false} OnlyOneWithHash(rows: seq<Version>, agent: nat, id: nat)
    requires DistinctHashes(Of(rows, agent)) && id < |rows| && rows[id].agent == agent
    ensures forall i :: 0 <= i < |rows| && i != id && rows[i].agent == agent ==> rows[i].hash != rows[id].hash
    decreases |rows|
  {
    var front, last := rows[..|rows| - 1], rows[|rows| - 1];
    assert rows == front + [last];
    OfAppend(front, last, agent);
    var versions := Of(front, agent);
    OfMembers(front, agent);
    assert forall i :: 0 <= i < |versions| ==> Of(rows, agent)[i] == versions[i];
    if last.agent == agent {
      forall i | 0 <= i < |front| && front[i].agent == agent
        ensures front[i].hash != last.hash
      {
        assert front[i] in versions;
        var k :| 0 <= k < |versions| && versions[k] == front[i];
        assert Of(rows, agent)[|versions|] == last;
      }
    }
    if id < |front| {
      OnlyOneWithHash(front, agent, id);
    }
  }
}
