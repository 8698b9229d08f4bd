/** How a refused tool call is recognised when the model asks again
    (`buildRefusedToolCallKey`, `appendRefusedToolCall` in convex/agentRuntimeService.ts). */
module RefusalKey {
  import opened Common

  /** The stored argument text: JSON that parses, or anything else. */
  datatype ArgumentsText = Readable(tree: Json) | Unreadable(raw: string)

  datatype RefusedKey = RefusedKey(tool: string, args: ArgumentsText)

  const REFUSED_TOOL_CALL_LIMIT := 50

  /** Assigning this member on an ordinary object sets its prototype and stores nothing. */
  const PROTO := "__proto__"

  // ------------------------------------------------------------------- key ordering

  /** Code-unit order of two member names, as `Array.prototype.sort` compares strings. */
  predicate Less(a: string, b: string) {
    if b == [] then false
    else if a == [] then true
    else a[0] < b[0] || (a[0] == b[0] && Less(a[1..], b[1..]))
  }

  lemma {:induction false} LessIsTotal(a: string, b: string)
    ensures a == b || Less(a, b) || Less(b, a)
    ensures !(Less(a, b) && Less(b, a)) && !Less(a, a)
  {
    if a != [] {
      LessIsTotal(a[1..], a[1..]);
      if b != [] && a[0] == b[0] {
        LessIsTotal(a[1..], b[1..]);
        assert a == [a[0]] + a[1..] && b == [b[0]] + b[1..];
      }
    }
  }

  lemma {:induction false} LessIsTransitive(a: string, b: string, c: string)
    requires Less(a, b) && Less(b, c)
    ensures Less(a, c)
  {
    if a != [] && a[0] == b[0] == c[0] {
      LessIsTransitive(a[1..], b[1..], c[1..]);
    }
  }

  // ------------------------------------------------------------------ the stable form

  function Stable(j: Json): Json
    decreases j
  {
    match j
    case Arr(items) => Arr(StableItems(items))
    case Obj(members) => Obj(StableMembers(members))
    case _ => j
  }

  function StableItems(items: seq<Json>): (r: seq<Json>)
    ensures |r| == |items|
    decreases items
  {
    if items == [] then [] else [Stable(items[0])] + StableItems(items[1..])
  }

  /** The members in key order; of two with one name the later is the object's. */
  function StableMembers(members: seq<Member>): seq<Member>
    decreases members
  {
    if members == [] then []
    else
      var head, rest := members[0], StableMembers(members[1..]);
      if head.key == PROTO then rest else Place(head.key, Stable(head.value), rest)
  }

  function Place(key: string, value: Json, sorted: seq<Member>): seq<Member> {
    if sorted == [] || Less(key, sorted[0].key) then [Member(key, value)] + sorted
    else if sorted[0].key == key then sorted
    else [sorted[0]] + Place(key, value, sorted[1..])
  }

  function BuildRefusedToolCallKey(toolName: string, args: ArgumentsText): RefusedKey {
    RefusedKey(toolName, if args.Readable? then Readable(Stable(args.tree)) else args)
  }

  // -------------------------------------------------- what the arguments actually say

  /** A JSON value with member order forgotten. */
  datatype Value =
    | Atom(j: Json)
    | List(items: seq<Value>)
    | Record(fields: map<string, Value>)

  function Meaning(j: Json, skip: set<string>): Value
    decreases j
  {
    match j
    case Arr(items) => List(MeaningItems(items, skip))
    case Obj(members) => Record(MeaningMembers(members, skip))
    case _ => Atom(j)
  }

  function MeaningItems(items: seq<Json>, skip: set<string>): (r: seq<Value>)
    ensures |r| == |items|
    decreases items
  {
    if items == [] then [] else [Meaning(items[0], skip)] + MeaningItems(items[1..], skip)
  }

  function MeaningMembers(members: seq<Member>, skip: set<string>): map<string, Value>
    decreases members
  {
    if members == [] then map[]
    else
      var head, rest := members[0], MeaningMembers(members[1..], skip);
      if head.key in skip || head.key in rest then rest
      else rest[head.key := Meaning(head.value, skip)]
  }

  /** Everything the call says, whatever order its members were written in. */
  function Says(j: Json): Value { Meaning(j, {}) }

  /** What the key can see of it. */
  function Seen(j: Json): Value { Meaning(j, {PROTO}) }

  predicate NoProto(j: Json)
    decreases j
  {
    match j
    case Arr(items) => forall i :: 0 <= i < |items| ==> NoProto(items[i])
    case Obj(members) => forall i :: 0 <= i < |members| ==> members[i].key != PROTO && NoProto(members[i].value)
    case _ => true
  }

  // ------------------------------------------------------------------ canonical forms

  /** Members in strictly increasing key order at every depth. */
  predicate Canonical(j: Json)
    decreases j
  {
    match j
    case Arr(items) => CanonicalItems(items)
    case Obj(members) => CanonicalMembers(members)
    case _ => true
  }

  predicate CanonicalItems(items: seq<Json>)
    decreases items
  {
    items == [] || (Canonical(items[0]) && CanonicalItems(items[1..]))
  }

  predicate CanonicalMembers(members: seq<Member>)
    decreases members
  {
    members == [] ||
    (&& members[0].key != PROTO
     && Canonical(members[0].value)
     && CanonicalMembers(members[1..])
     && (|members| > 1 ==> Less(members[0].key, members[1].key)))
  }

  /** In key order, the first key comes before every later one. */
  lemma {:induction false} HeadIsLeast(members: seq<Member>, key: string)
    requires members != [] && CanonicalMembers(members)
    requires key in MeaningMembers(members[1..], {PROTO})
    ensures Less(members[0].key, key)
    decreases members
  {
    var rest := members[1..];
    if rest[0].key != key {
      HeadIsLeast(rest, key);
      LessIsTransitive(members[0].key, rest[0].key, key);
    }
  }

  lemma {:induction false} PlaceIsCanonical(key: string, value: Json, sorted: seq<Member>)
    requires CanonicalMembers(sorted) && Canonical(value) && key != PROTO
    ensures CanonicalMembers(Place(key, value, sorted))
    ensures var r := Place(key, value, sorted);
            r != [] && (r[0].key == key || (sorted != [] && r[0].key == sorted[0].key))
  {
    var r := Place(key, value, sorted);
    if sorted == [] || Less(key, sorted[0].key) {
      assert r[1..] == sorted;
    } else if sorted[0].key != key {
      LessIsTotal(key, sorted[0].key);
      var rest := Place(key, value, sorted[1..]);
      PlaceIsCanonical(key, value, sorted[1..]);
      assert r[1..] == rest && r[1] == rest[0];
    }
  }

  lemma {:induction false} PlaceMeans(key: string, value: Json, sorted: seq<Member>)
    requires CanonicalMembers(sorted) && key != PROTO
    ensures var before, after := MeaningMembers(sorted, {PROTO}), MeaningMembers(Place(key, value, sorted), {PROTO});
            after == if key in before then before else before[key := Meaning(value, {PROTO})]
  {
    var r := Place(key, value, sorted);
    if sorted == [] || Less(key, sorted[0].key) {
      assert r[1..] == sorted;
      if sorted != [] && key in MeaningMembers(sorted, {PROTO}) {
        if key == sorted[0].key {
          LessIsTotal(key, key);
        } else {
          HeadIsLeast(sorted, key);
          LessIsTotal(key, sorted[0].key);
        }
      }
    } else if sorted[0].key != key {
      PlaceMeans(key, value, sorted[1..]);
      assert r[1..] == Place(key, value, sorted[1..]);
      NotInTail(sorted);
    }
  }

  lemma NotInTail(sorted: seq<Member>)
    requires sorted != [] && CanonicalMembers(sorted)
    ensures sorted[0].key !in MeaningMembers(sorted[1..], {PROTO})
  {
    if sorted[0].key in MeaningMembers(sorted[1..], {PROTO}) {
      HeadIsLeast(sorted, sorted[0].key);
      LessIsTotal(sorted[0].key, sorted[0].key);
    }
  }

  /** Normalising keeps what the key can see, and puts it in canonical form. */
  lemma {:induction false} StableIsCanonical(j: Json)
    ensures Canonical(Stable(j)) && Seen(Stable(j)) == Seen(j)
    decreases j, 1
  {
    match j
    case Arr(items) => StableItemsCanonical(items);
    case Obj(members) => StableMembersCanonical(members);
    case _ =>
  }

  lemma {:induction false} StableItemsCanonical(items: seq<Json>)
    ensures CanonicalItems(StableItems(items))
    ensures MeaningItems(StableItems(items), {PROTO}) == MeaningItems(items, {PROTO})
    decreases items, 0
  {
    if items != [] {
      StableIsCanonical(items[0]);
      StableItemsCanonical(items[1..]);
      assert StableItems(items)[1..] == StableItems(items[1..]);
    }
  }

  lemma {:induction false} StableMembersCanonical(members: seq<Member>)
    ensures CanonicalMembers(StableMembers(members))
    ensures MeaningMembers(StableMembers(members), {PROTO}) == MeaningMembers(members, {PROTO})
    decreases members, 0
  {
    if members != [] {
      StableMembersCanonical(members[1..]);
      if members[0].key != PROTO {
        StableIsCanonical(members[0].value);
        PlaceIsCanonical(members[0].key, Stable(members[0].value), StableMembers(members[1..]));
        PlaceMeans(members[0].key, Stable(members[0].value), StableMembers(members[1..]));
      }
    }
  }

  /** Two canonical forms that say the same thing are the same form. */
  lemma {:induction false} CanonicalIsUnique(a: Json, b: Json)
    requires Canonical(a) && Canonical(b) && Seen(a) == Seen(b)
    ensures a == b
    decreases a, 1
  {
    if a.Arr? && b.Arr? {
      CanonicalItemsUnique(a.items, b.items);
    } else if a.Obj? && b.Obj? {
      CanonicalMembersUnique(a.members, b.members);
    }
  }

  lemma {:induction false} CanonicalItemsUnique(a: seq<Json>, b: seq<Json>)
    requires CanonicalItems(a) && CanonicalItems(b)
    requires MeaningItems(a, {PROTO}) == MeaningItems(b, {PROTO})
    ensures a == b
    decreases a, 0
  {
    assert |a| == |MeaningItems(a, {PROTO})| == |b|;
    if a != [] {
      var x, y := MeaningItems(a, {PROTO}), MeaningItems(b, {PROTO});
      assert x[0] == y[0] && x[1..] == y[1..];
      assert x[1..] == MeaningItems(a[1..], {PROTO}) && y[1..] == MeaningItems(b[1..], {PROTO});
      CanonicalIsUnique(a[0], b[0]);
      CanonicalItemsUnique(a[1..], b[1..]);
    }
  }

  lemma {:induction false} CanonicalMembersUnique(a: seq<Member>, b: seq<Member>)
    requires CanonicalMembers(a) && CanonicalMembers(b)
    requires MeaningMembers(a, {PROTO}) == MeaningMembers(b, {PROTO})
    ensures a == b
    decreases a, 0
  {
    var x, y := MeaningMembers(a, {PROTO}), MeaningMembers(b, {PROTO});
    if a != [] {
      NotInTail(a);
      assert a[0].key in x;
    }
    if b != [] {
      NotInTail(b);
      assert b[0].key in y;
    }
    if a != [] && b != [] {
      if a[0].key != b[0].key {
        HeadIsLeast(a, b[0].key);
        HeadIsLeast(b, a[0].key);
        LessIsTotal(a[0].key, b[0].key);
        assert false;
      }
      assert x[a[0].key] == y[a[0].key];
      CanonicalIsUnique(a[0].value, b[0].value);
      assert MeaningMembers(a[1..], {PROTO}) == x - {a[0].key};
      assert MeaningMembers(b[1..], {PROTO}) == y - {a[0].key};
      CanonicalMembersUnique(a[1..], b[1..]);
      assert a == [a[0]] + a[1..] && b == [b[0]] + b[1..];
    }
  }

  // ------------------------------------------------------------------- main results

  /** For readable arguments the key decides exactly equality of what the key can see. */
  lemma KeyDecidesSeen(tool: string, a: Json, b: Json)
    ensures BuildRefusedToolCallKey(tool, Readable(a)) == BuildRefusedToolCallKey(tool, Readable(b))
            <==> Seen(a) == Seen(b)
  {
    StableIsCanonical(a);
    StableIsCanonical(b);
    if Seen(a) == Seen(b) {
      CanonicalIsUnique(Stable(a), Stable(b));
    }
  }

  /** Keys of different tools never agree, and arguments that cannot be read are compared as they stand. */
  lemma KeyIsTheCall(tool: string, other: string, a: ArgumentsText, b: ArgumentsText)
    ensures BuildRefusedToolCallKey(tool, a) == BuildRefusedToolCallKey(other, b)
            <==> tool == other && (a == b || (a.Readable? && b.Readable? && Seen(a.tree) == Seen(b.tree)))
  {
    if a.Readable? && b.Readable? {
      KeyDecidesSeen(tool, a.tree, b.tree);
    }
  }

  lemma {:induction false} WithoutProtoAllIsSeen(j: Json)
    requires NoProto(j)
    ensures Seen(j) == Says(j)
    decreases j, 1
  {
    match j
    case Arr(items) => ItemsAllSeen(items);
    case Obj(members) => MembersAllSeen(members);
    case _ =>
  }

  lemma {:induction false} ItemsAllSeen(items: seq<Json>)
    requires forall i :: 0 <= i < |items| ==> NoProto(items[i])
    ensures MeaningItems(items, {PROTO}) == MeaningItems(items, {})
    decreases items, 0
  {
    if items != [] {
      WithoutProtoAllIsSeen(items[0]);
      ItemsAllSeen(items[1..]);
    }
  }

  lemma {:induction false} MembersAllSeen(members: seq<Member>)
    requires forall i :: 0 <= i < |members| ==> members[i].key != PROTO && NoProto(members[i].value)
    ensures MeaningMembers(members, {PROTO}) == MeaningMembers(members, {})
    decreases members, 0
  {
    if members != [] {
      WithoutProtoAllIsSeen(members[0].value);
      MembersAllSeen(members[1..]);
    }
  }

  /** Same call up to member order, same key; any other difference, another key. */
  lemma KeyIsTheArguments(tool: string, a: Json, b: Json)
    requires NoProto(a) && NoProto(b)
    ensures BuildRefusedToolCallKey(tool, Readable(a)) == BuildRefusedToolCallKey(tool, Readable(b))
            <==> Says(a) == Says(b)
  {
    KeyDecidesSeen(tool, a, b);
    WithoutProtoAllIsSeen(a);
    WithoutProtoAllIsSeen(b);
  }

  /** The excluded family: a member of that name is lost from the key, whatever it holds. */
  lemma ProtoMemberIsInvisible(tool: string, value: Json, members: seq<Member>)
    requires PROTO !in MeaningMembers(members, {})
    ensures var with := Obj([Member(PROTO, value)] + members);
            && BuildRefusedToolCallKey(tool, Readable(with)) == BuildRefusedToolCallKey(tool, Readable(Obj(members)))
            && Says(with) != Says(Obj(members))
  {
    var all := [Member(PROTO, value)] + members;
    assert all[1..] == members;
    assert StableMembers(all) == StableMembers(members);
    assert PROTO in MeaningMembers(all, {});
  }

  // ------------------------------------------------------------ remembering refusals

  function AppendRefusedToolCall(existing: seq<RefusedKey>, key: RefusedKey): seq<RefusedKey> {
    if key in existing then existing
    else
      var all := existing + [key];
      all[if |all| > REFUSED_TOOL_CALL_LIMIT then |all| - REFUSED_TOOL_CALL_LIMIT else 0..]
  }

  function RefuseAll(existing: seq<RefusedKey>, keys: seq<RefusedKey>): seq<RefusedKey>
    decreases |keys|
  {
    if keys == [] then existing
    else AppendRefusedToolCall(RefuseAll(existing, keys[..|keys| - 1]), keys[|keys| - 1])
  }

  ghost predicate NoRepeats(s: seq<RefusedKey>) {
    forall i, j :: 0 <= i < j < |s| ==> s[i] != s[j]
  }

  lemma {:induction false} NoRepeatsSize(s: seq<RefusedKey>, within: set<RefusedKey>)
    requires NoRepeats(s) && forall i :: 0 <= i < |s| ==> s[i] in within
    ensures |s| <= |within|
  {
    if s != [] {
      NoRepeatsSize(s[1..], within - {s[0]});
    }
  }

  /** `key` sits at `p`, and everything behind it was refused after it. */
  ghost predicate Remembers(r: seq<RefusedKey>, key: RefusedKey, p: nat, later: set<RefusedKey>) {
    && NoRepeats(r) && |r| <= REFUSED_TOOL_CALL_LIMIT
    && p < |r| && r[p] == key
    && forall i :: p < i < |r| ==> r[i] in later
  }

  lemma OneMoreRefusal(r: seq<RefusedKey>, key: RefusedKey, p: nat, last: RefusedKey, later: set<RefusedKey>)
      returns (q: nat)
    requires Remembers(r, key, p, later) && last in later && |later| < REFUSED_TOOL_CALL_LIMIT
    ensures Remembers(AppendRefusedToolCall(r, last), key, q, later)
  {
    q := p;
    if last !in r && |r| == REFUSED_TOOL_CALL_LIMIT {
      var newer := r[1..] + [last];
      assert AppendRefusedToolCall(r, last) == newer;
      if p == 0 {
        NoRepeatsSize(newer, later);
      }
      q := p - 1;
    }
  }

  lemma {:induction false} KeyStaysBehind(existing: seq<RefusedKey>, key: RefusedKey, keys: seq<RefusedKey>, later: set<RefusedKey>)
      returns (p: nat)
    requires NoRepeats(existing) && |existing| <= REFUSED_TOOL_CALL_LIMIT && key !in existing
    requires (forall k :: k in keys ==> k in later) && |later| < REFUSED_TOOL_CALL_LIMIT
    ensures Remembers(RefuseAll(AppendRefusedToolCall(existing, key), keys), key, p, later)
    decreases |keys|
  {
    if keys == [] {
      p := |AppendRefusedToolCall(existing, key)| - 1;
    } else {
      p := KeyStaysBehind(existing, key, keys[..|keys| - 1], later);
      p := OneMoreRefusal(RefuseAll(AppendRefusedToolCall(existing, key), keys[..|keys| - 1]), key, p,
                          keys[|keys| - 1], later);
    }
  }

  /** A refusal survives until fifty further distinct calls have been refused. */
  lemma RefusalIsRemembered(existing: seq<RefusedKey>, key: RefusedKey, keys: seq<RefusedKey>)
    requires NoRepeats(existing) && |existing| <= 50 && key !in existing && |set k | k in keys| < 50
    ensures key in RefuseAll(AppendRefusedToolCall(existing, key), keys)
  {
    var p := KeyStaysBehind(existing, key, keys, set k | k in keys);
  }

  /** And fifty new ones do push it out, so the bound cannot be improved. */
  lemma {:induction false} FiftyNewRefusalsForget(existing: seq<RefusedKey>, keys: seq<RefusedKey>)
    requires NoRepeats(existing + keys) && |existing| <= 50
    ensures var all := existing + keys; RefuseAll(existing, keys) == all[if |all| > 50 then |all| - 50 else 0..]
    decreases |keys|
  {
    if keys == [] {
      assert existing + keys == existing;
    } else {
      var n := |keys| - 1;
      var all, front := existing + keys, existing + keys[..n];
      assert all == front + [keys[n]];
      assert all[|all| - 1] == keys[n];
      forall i, j | 0 <= i < j < |front|
        ensures front[i] != front[j]
      {
        assert all[i] == front[i] && all[j] == front[j];
      }
      FiftyNewRefusalsForget(existing, keys[..n]);
      var before := RefuseAll(existing, keys[..n]);
      forall i | 0 <= i < |before|
        ensures before[i] != keys[n]
      {
        assert before[i] == all[|front| - |before| + i];
      }
    }
  }
}
