/** The conversation a run carries: how a tool batch is written into it, what makes it
    acceptable to a provider, and how it is cut down to fit in a checkpoint
    (convex/agentRuntimeService.ts, convex/agentRunContinuationService.ts). */
module Transcript {
  import opened Common
  import opened ToolGate

  datatype Speaker = User | Assistant

  datatype CallPart = CallPart(name: string, args: Json, signature: Option<string>)

  datatype ResultPart = ResultPart(name: string, content: Payload)

  /** `Calls` is a model turn asking for tools, `Results` the function turn answering it. */
  datatype Turn =
    | Text(speaker: Speaker, text: string)
    | Calls(calls: seq<CallPart>)
    | Results(results: seq<ResultPart>)

  datatype ExecutedCall = ExecutedCall(name: string, args: Json, payload: Payload, signature: Option<string>)

  // ---------------------------------------------------------------- tool interaction

  function KeepSignature(signature: Option<string>): Option<string> {
    if signature == Some("") then None else signature
  }

  function BuildToolInteractionTurns(calls: seq<ExecutedCall>): seq<Turn> {
    if calls == [] then []
    else [
      Calls(seq(|calls|, i requires 0 <= i < |calls| =>
        CallPart(calls[i].name, calls[i].args, KeepSignature(calls[i].signature)))),
      Results(seq(|calls|, i requires 0 <= i < |calls| =>
        ResultPart(calls[i].name, calls[i].payload)))
    ]
  }

  /** What the model must find in the conversation for these calls: nothing for none, and otherwise one
      turn with each request as it was made and one with each call's own result. */
  ghost predicate Tell(turns: seq<Turn>, calls: seq<ExecutedCall>) {
    if calls == [] then turns == []
    else
      && |turns| == 2 && turns[0].Calls? && turns[1].Results?
      && |turns[0].calls| == |calls| && |turns[1].results| == |calls|
      && forall i :: 0 <= i < |calls| ==>
           && turns[0].calls[i].name == calls[i].name && turns[0].calls[i].args == calls[i].args
           && (if calls[i].signature == None || calls[i].signature == Some("") then turns[0].calls[i].signature == None
               else turns[0].calls[i].signature == calls[i].signature)
           && turns[1].results[i].name == calls[i].name && turns[1].results[i].content == calls[i].payload
  }

  /** The two turns written tell exactly that, and no other turns do. */
  lemma TurnsTellTheCalls(turns: seq<Turn>, calls: seq<ExecutedCall>)
    ensures Tell(turns, calls) <==> turns == BuildToolInteractionTurns(calls)
  {
    var built := BuildToolInteractionTurns(calls);
    assert Tell(built, calls);
    if Tell(turns, calls) && calls != [] {
      assert turns[0].calls == built[0].calls && turns[1].results == built[1].results;
      assert turns == [turns[0], turns[1]];
    }
  }

  /** A function turn answers a model turn: the same names in the same order. */
  ghost predicate Answers(request: Turn, response: Turn) {
    && request.Calls? && response.Results?
    && |request.calls| == |response.results|
    && forall i :: 0 <= i < |request.calls| ==> request.calls[i].name == response.results[i].name
  }

  /** Every function turn after the first position answers the turn just before it. */
  ghost predicate Paired(t: seq<Turn>) {
    forall i :: 0 < i < |t| && t[i].Results? ==> Answers(t[i - 1], t[i])
  }

  /** The first turn is not a tool result without its request. */
  predicate HeadClean(t: seq<Turn>) {
    t == [] || !t[0].Results?
  }

  /** The batch turns always extend a paired conversation to a paired conversation. */
  lemma BatchKeepsPairing(t: seq<Turn>, calls: seq<ExecutedCall>)
    requires Paired(t)
    ensures Paired(t + BuildToolInteractionTurns(calls))
    ensures HeadClean(t) ==> HeadClean(t + BuildToolInteractionTurns(calls))
  {
    var b := BuildToolInteractionTurns(calls);
    var r := t + b;
    forall i | 0 < i < |r| && r[i].Results?
      ensures Answers(r[i - 1], r[i])
    {
      if i < |t| {
        assert r[i - 1] == t[i - 1] && r[i] == t[i];
      } else {
        assert r[i] == b[1] && r[i - 1] == b[0];
      }
    }
  }

  // ------------------------------------------------------------------------ trimming

  function PartsChars(t: Turn): nat {
    match t
    case Text(_, text) => 2 + |text|
    case Calls(calls) => CallChars(calls)
    case Results(results) => ResultChars(results)
  }

  function CallChars(calls: seq<CallPart>): nat {
    if calls == [] then 2 else |calls[0].name| + JsonChars(calls[0].args) + CallChars(calls[1..])
  }

  function PayloadChars(p: Payload): nat {
    match p
    case DataPayload(data) => 26 + JsonChars(data)
    case ErrorPayload(HandlerError(text)) => 28 + |text|
    case _ => 64
  }

  function ResultChars(results: seq<ResultPart>): nat {
    if results == [] then 2
    else 2 * |results[0].name| + PayloadChars(results[0].content) + ResultChars(results[1..])
  }

  /** Length of a serialised turn list: brackets, and one separator a turn. */
  function Chars(t: seq<Turn>): (n: nat)
    ensures n > 0
  {
    if t == [] then 2 else 1 + BodyChars(t)
  }

  function BodyChars(t: seq<Turn>): nat {
    if t == [] then 0 else PartsChars(t[0]) + 1 + BodyChars(t[1..])
  }

  /** The inner loop: past tool results, but never past the last turn. */
  function NextCut(t: seq<Turn>, k: nat): (r: nat)
    requires k < |t|
    ensures k <= r < |t| && (r == |t| - 1 || !t[r].Results?)
    ensures forall j :: k <= j < r ==> t[j].Results?
    decreases |t| - k
  {
    if k < |t| - 1 && t[k].Results? then NextCut(t, k + 1) else k
  }

  /** The outer loop, started with the first `k` turns already dropped. */
  function CutFrom(t: seq<Turn>, cap: nat, k: nat): (r: nat)
    requires k < |t|
    ensures k <= r < |t|
    decreases |t| - k
  {
    if Chars(t[k..]) > cap && k < |t| - 1 then CutFrom(t, cap, NextCut(t, k + 1)) else k
  }

  /** How many leading turns a checkpoint drops. */
  function Cut(t: seq<Turn>, cap: nat): (k: nat)
    ensures t != [] ==> k < |t|
    ensures t == [] ==> k == 0
  {
    if t == [] then 0 else CutFrom(t, cap, 0)
  }

  /** The transcript a checkpoint stores. */
  function Trim(t: seq<Turn>, cap: nat): seq<Turn> {
    t[Cut(t, cap)..]
  }

  predicate Storable(t: seq<Turn>, cap: nat) {
    Chars(t) <= cap
  }

  method TrimConversationForCheckpoint(turns: seq<Turn>, maxChars: nat)
    returns (kept: seq<Turn>, serialized: nat, trimmed: bool)
    ensures kept == Trim(turns, maxChars)
    ensures serialized == Chars(kept)
    ensures trimmed <==> |kept| < |turns|
  {
    hide Chars;
    kept := turns;
    serialized := Chars(kept);
    trimmed := false;
    ghost var k := 0;
    while serialized > maxChars && |kept| > 1
      invariant turns != [] ==> k < |turns| && CutFrom(turns, maxChars, k) == Cut(turns, maxChars)
      invariant k <= |turns| && kept == turns[k..]
      invariant serialized == Chars(kept) && (trimmed <==> k > 0)
      decreases |kept|
    {
      ghost var from := k + 1;
      kept := kept[1..];
      k := k + 1;
      while |kept| > 1 && kept[0].Results?
        invariant from <= k < |turns| && kept == turns[k..]
        invariant NextCut(turns, k) == NextCut(turns, from)
        decreases |kept|
      {
        kept := kept[1..];
        k := k + 1;
      }
      trimmed := true;
      serialized := Chars(kept);
    }
  }

  /** Where a cut may fall: the start, the last turn, or in front of anything but a tool result. */
  predicate MayCut(t: seq<Turn>, k: nat)
    requires k < |t|
  {
    k == 0 || k == |t| - 1 || !t[k].Results?
  }

  /** `k` is the first permitted cut whose remainder fits, or the last turn when none fits. */
  ghost predicate FirstFit(t: seq<Turn>, cap: nat, k: nat)
    requires k < |t|
  {
    && MayCut(t, k)
    && (Chars(t[k..]) <= cap || k == |t| - 1)
    && forall j :: 0 <= j < k && MayCut(t, j) ==> Chars(t[j..]) > cap
  }

  /** Dropping turns from the front makes the text strictly shorter. */
  lemma {:induction false} ShorterIsSmaller(t: seq<Turn>, k: nat)
    requires 0 < k < |t|
    ensures Chars(t[k..]) < Chars(t)
    decreases k
  {
    assert Chars(t[1..]) < Chars(t);
    if k > 1 {
      assert t[1..][k - 1..] == t[k..];
      ShorterIsSmaller(t[1..], k - 1);
    }
  }

  /** Trimming cuts exactly at the first permitted place where the rest fits: correct and minimal. */
  lemma TrimIsFirstFit(t: seq<Turn>, cap: nat)
    requires t != []
    ensures FirstFit(t, cap, Cut(t, cap))
  {
    CutFromIsFirstFit(t, cap, 0);
  }

  lemma {:induction false} CutFromIsFirstFit(t: seq<Turn>, cap: nat, k: nat)
    requires k < |t| && MayCut(t, k)
    requires forall j :: 0 <= j < k && MayCut(t, j) ==> Chars(t[j..]) > cap
    ensures FirstFit(t, cap, CutFrom(t, cap, k))
    decreases |t| - k
  {
    if Chars(t[k..]) > cap && k < |t| - 1 {
      CutFromIsFirstFit(t, cap, NextCut(t, k + 1));
    }
  }

  /** The first fitting cut is unique, so finding one computes the trim. */
  lemma FirstFitIsTrim(t: seq<Turn>, cap: nat, k: nat)
    requires k < |t| && FirstFit(t, cap, k)
    ensures Cut(t, cap) == k
  {
    TrimIsFirstFit(t, cap);
  }

  /** A conversation can be stored exactly when what follows some permitted cut fits. */
  lemma StorableExactly(t: seq<Turn>, cap: nat)
    requires t != []
    ensures Storable(Trim(t, cap), cap) <==> exists k :: 0 <= k < |t| && MayCut(t, k) && Chars(t[k..]) <= cap
  {
    TrimIsFirstFit(t, cap);
  }

  /** Every character of a conversation counts towards its size: of what was said, asked for and answered. */
  lemma EveryCharacterCounts(before: seq<Turn>, turn: Turn, after: seq<Turn>)
    ensures Chars(before + [turn] + after) == Chars(before + after) + 1 + PartsChars(turn)
            || (before + after == [] && Chars(before + [turn] + after) == 2 + PartsChars(turn))
    ensures turn.Text? ==> PartsChars(turn) == 2 + |turn.text|
    ensures turn.Calls? ==> PartsChars(turn) == 2 + TotalOf(turn.calls, (p: CallPart) => |p.name| + JsonChars(p.args))
    ensures turn.Results? ==> PartsChars(turn) == 2 + TotalOf(turn.results, (p: ResultPart) => 2 * |p.name| + PayloadChars(p.content))
    ensures forall a: string, b: string :: PayloadChars(ErrorPayload(HandlerError(a + b))) == PayloadChars(ErrorPayload(HandlerError(a))) + |b|
    ensures forall x, y :: PayloadChars(DataPayload(x)) - PayloadChars(DataPayload(y)) == JsonChars(x) - JsonChars(y)
  {
    BodyCharsAdd(before + [turn], after);
    BodyCharsAdd(before, [turn]);
    BodyCharsAdd(before, after);
    assert [turn][1..] == [];
    if turn.Calls? {
      CallsAddUp(turn.calls);
    }
    if turn.Results? {
      ResultsAddUp(turn.results);
    }
  }

  function TotalOf<T>(s: seq<T>, size: T -> nat): nat {
    if s == [] then 0 else size(s[0]) + TotalOf(s[1..], size)
  }

  lemma {:induction false} CallsAddUp(calls: seq<CallPart>)
    ensures CallChars(calls) == 2 + TotalOf(calls, (p: CallPart) => |p.name| + JsonChars(p.args))
  {
    if calls != [] {
      CallsAddUp(calls[1..]);
    }
  }

  lemma {:induction false} ResultsAddUp(results: seq<ResultPart>)
    ensures ResultChars(results) == 2 + TotalOf(results, (p: ResultPart) => 2 * |p.name| + PayloadChars(p.content))
  {
    if results != [] {
      ResultsAddUp(results[1..]);
    }
  }

  lemma TrimIsIdempotent(t: seq<Turn>, cap: nat)
    ensures Trim(Trim(t, cap), cap) == Trim(t, cap)
  {
    if t != [] {
      TrimIsFirstFit(t, cap);
    }
  }

  /** A trim never separates a result from its request, except by keeping one turn only. */
  lemma TrimKeepsPairing(t: seq<Turn>, cap: nat)
    requires Paired(t)
    ensures Paired(Trim(t, cap))
    ensures 0 < Cut(t, cap) < |t| - 1 ==> HeadClean(Trim(t, cap))
  {
    if t != [] {
      TrimIsFirstFit(t, cap);
      var k := Cut(t, cap);
      forall i | 0 < i < |t| - k && t[k..][i].Results?
        ensures Answers(t[k..][i - 1], t[k..][i])
      {
        assert t[k + i].Results?;
      }
    }
  }

  /** Did this trim keep nothing but a tool result whose request it dropped? */
  predicate LeftOrphan(h: seq<Turn>, cap: nat) {
    h != [] && 0 < Cut(h, cap) == |h| - 1 && h[|h| - 1].Results?
  }

  /**
   * Trimming at a save and again after later turns are appended gives what one trim of
   * the whole conversation gives, unless the first trim was left holding an orphaned tool
   * result that still fits beside the new turns; then the two differ.
   */
  lemma TrimComposes(h: seq<Turn>, more: seq<Turn>, cap: nat)
    requires more != [] && HeadClean(more)
    ensures Trim(Trim(h, cap) + more, cap) == Trim(h + more, cap)
            <==> !(LeftOrphan(h, cap) && Chars(Trim(h, cap) + more) <= cap)
  {
    var whole, k := h + more, Cut(h, cap);
    assert Trim(h, cap) + more == whole[k..];
    if h != [] {
      TrimIsFirstFit(h, cap);
      forall j | 0 <= j < k && MayCut(whole, j)
        ensures Chars(whole[j..]) > cap
      {
        assert MayCut(h, j);
        assert whole[j..] == h[j..] + more;
        BodyCharsAdd(h[j..], more);
      }
    }
    if MayCut(whole, k) {
      TrimAfterCut(whole, cap, k);
    } else {
      TrimAfterOrphan(whole, cap, k);
    }
  }

  /** A cap under which only the result of one long call fits: the save keeps it without its request,
      and with the next turn it still fits, where one trim of the whole would have dropped it. */
  lemma OrphanThatStillFits() returns (h: seq<Turn>, more: seq<Turn>, cap: nat)
    ensures Paired(h) && HeadClean(h) && more != [] && HeadClean(more)
    ensures LeftOrphan(h, cap) && Chars(Trim(h, cap) + more) <= cap
    ensures Trim(Trim(h, cap) + more, cap) != Trim(h + more, cap)
  {
    var args := Str(seq(40, _ => 'x'));
    var asks, answers := [CallPart("t", args, None)], [ResultPart("t", RehearsedPayload)];
    h, more, cap := [Calls(asks), Results(answers)], [Text(User, "go on")], 90;
    assert asks[1..] == [] && answers[1..] == [];
    assert CallChars(asks) == 45 && ResultChars(answers) == 68;
    assert h[1..] == [Results(answers)] && h[1..][1..] == [];
    assert Chars(h[1..]) == 70 && BodyChars(h) == CallChars(asks) + 1 + BodyChars(h[1..]);
    assert h[0..] == h && Chars(h[0..]) == 116;
    assert Cut(h, cap) == 1;
    assert Trim(h, cap) + more == [Results(answers), Text(User, "go on")];
    BodyCharsAdd(h[1..], more);
    assert more[1..] == [] && BodyChars(more) == 8;
    TrimComposes(h, more, cap);
  }

  lemma {:induction false} BodyCharsAdd(a: seq<Turn>, b: seq<Turn>)
    ensures BodyChars(a + b) == BodyChars(a) + BodyChars(b)
  {
    if a == [] {
      assert a + b == b;
    } else {
      assert (a + b)[1..] == a[1..] + b;
      BodyCharsAdd(a[1..], b);
    }
  }

  /** Once every earlier cut is known not to fit, trimming may start at this one. */
  lemma TrimAfterCut(whole: seq<Turn>, cap: nat, k: nat)
    requires k < |whole| && MayCut(whole, k)
    requires forall j :: 0 <= j < k && MayCut(whole, j) ==> Chars(whole[j..]) > cap
    ensures Cut(whole, cap) == k + Cut(whole[k..], cap)
    ensures Trim(whole[k..], cap) == Trim(whole, cap)
  {
    var part := whole[k..];
    TrimIsFirstFit(part, cap);
    var m := Cut(part, cap);
    assert part[m..] == whole[k + m..];
    forall j | 0 <= j < k + m && MayCut(whole, j)
      ensures Chars(whole[j..]) > cap
    {
      if j >= k {
        assert MayCut(part, j - k);
        assert part[j - k..] == whole[j..];
      }
    }
    FirstFitIsTrim(whole, cap, k + m);
  }

  lemma TrimAfterOrphan(whole: seq<Turn>, cap: nat, k: nat)
    requires 0 < k && k + 1 < |whole|
    requires whole[k].Results? && !whole[k + 1].Results?
    requires forall j :: 0 <= j < k && MayCut(whole, j) ==> Chars(whole[j..]) > cap
    ensures Trim(whole[k..], cap) == Trim(whole, cap) <==> Chars(whole[k..]) > cap
  {
    var part := whole[k..];
    TrimAfterCut(whole, cap, k + 1);
    if Chars(part) <= cap {
      assert Cut(part, cap) == 0;
      assert |Trim(whole, cap)| < |part|;
    } else {
      assert part[0..] == part;
      TrimAfterCut(part, cap, 1);
      assert part[1..] == whole[k + 1..];
    }
  }
}
