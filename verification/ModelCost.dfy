/** What a run has cost, as the spend ceiling sees it (convex/aiCostService.ts:28-81), and how
    the figure fares when an action starts from the saved counters: it has forgotten how much of
    its input came from a cache, and after a crash whole turns
    (convex/agentRuntime.ts:452-465, convex/agentObjectiveLoop.ts:195-213, 416-426 and 472-479). */
module ModelCost {
  import opened Common

  datatype Rates = Rates(
    inputBelow200k: Option<real>, inputAbove200k: Option<real>,
    cachedBelow200k: Option<real>, cachedAbove200k: Option<real>, output: Option<real>)

  const TOKENS_PER_RATE_UNIT := 1_000_000
  const LARGE_CONTEXT_TOKEN_THRESHOLD := 200_000

  predicate IsLargeContext(inputTokens: int) { inputTokens > LARGE_CONTEXT_TOKEN_THRESHOLD }

  predicate Positive(rate: Option<real>) { rate.Some? && rate.value > 0.0 }

  function OrZero(rate: Option<real>): real { if rate.Some? then rate.value else 0.0 }

  /** A tier without a price of its own takes the other's, never zero. */
  function StandardRate(rates: Rates, inputTokens: int): real {
    var configured := if IsLargeContext(inputTokens) then rates.inputAbove200k else rates.inputBelow200k;
    if Positive(configured) then configured.value else OrZero(rates.inputBelow200k)
  }

  function CachedRate(rates: Rates, inputTokens: int): real {
    var configured := if IsLargeContext(inputTokens) then rates.cachedAbove200k else rates.cachedBelow200k;
    if Positive(configured) then configured.value else StandardRate(rates, inputTokens)
  }

  function Max0(n: int): nat { if n > 0 then n else 0 }

  /** The cached share, which the provider reports as part of the input. */
  function CachedShare(inputTokens: int, cachedInputTokens: int): nat {
    if Max0(cachedInputTokens) < Max0(inputTokens) then Max0(cachedInputTokens) else Max0(inputTokens)
  }

  function Priced(tokens: int, rate: real): real { tokens as real / TOKENS_PER_RATE_UNIT as real * rate }

  function CalculateModelCost(inputTokens: int, outputTokens: int, cachedInputTokens: int, rates: Option<Rates>): real {
    if rates.None? then 0.0
    else
      var cached := CachedShare(inputTokens, cachedInputTokens);
      Priced(Max0(inputTokens - cached), StandardRate(rates.value, inputTokens))
      + Priced(cached, CachedRate(rates.value, inputTokens))
      + Priced(Max0(outputTokens), OrZero(rates.value.output))
  }

  // ------------------------------------------------------------------------ the bill

  /** `rate` is what a tier charges: its own price above 200,000 input tokens where it has a positive one,
      the ordinary price, or nothing. */
  ghost predicate ChargedFor(rate: real, above: Option<real>, below: Option<real>, inputTokens: int) {
    match (above, below)
    case (Some(a), Some(b)) => rate == if inputTokens > 200_000 && a > 0.0 then a else b
    case (Some(a), None) => rate == if inputTokens > 200_000 && a > 0.0 then a else 0.0
    case (None, Some(b)) => rate == b
    case (None, None) => rate == 0.0
  }

  /**
   * The bill for a call whose cached tokens are part of its input: a millionth of the fresh input at the
   * standard rate, of the cached input at the cached rate and of the output at its own. The cached rate is
   * the tier's, if it has a positive one, and otherwise the standard rate.
   */
  lemma CostIsTheBill(inputTokens: int, outputTokens: int, cachedInputTokens: int, rates: Rates, standard: real, cached: real)
    requires 0 <= cachedInputTokens <= inputTokens && 0 <= outputTokens
    requires ChargedFor(standard, rates.inputAbove200k, rates.inputBelow200k, inputTokens)
    requires var own := if inputTokens > 200_000 then rates.cachedAbove200k else rates.cachedBelow200k;
             cached == if own.Some? && own.value > 0.0 then own.value else standard
    ensures 1_000_000.0 * CalculateModelCost(inputTokens, outputTokens, cachedInputTokens, Some(rates))
            == (inputTokens - cachedInputTokens) as real * standard + cachedInputTokens as real * cached
               + outputTokens as real * (if rates.output.Some? then rates.output.value else 0.0)
    ensures CalculateModelCost(inputTokens, outputTokens, cachedInputTokens, None) == 0.0
  {
    InMillionths(inputTokens - cachedInputTokens, standard);
    InMillionths(cachedInputTokens, cached);
    InMillionths(outputTokens, OrZero(rates.output));
    assert StandardRate(rates, inputTokens) == standard && CachedRate(rates, inputTokens) == cached;
    assert CachedShare(inputTokens, cachedInputTokens) == cachedInputTokens;
  }

  lemma InMillionths(tokens: int, rate: real)
    ensures 1_000_000.0 * Priced(tokens, rate) == tokens as real * rate
  {
    var t := tokens as real / 1_000_000.0;
    assert t * 1_000_000.0 == tokens as real;
    Reorder(1_000_000.0, t, rate);
  }

  lemma Reorder(a: real, b: real, c: real)
    ensures a * (b * c) == (b * a) * c
  {
  }

  /** Counts below zero are taken for nothing, and no more is cached than was read. */
  lemma NonsenseIsNothing(inputTokens: int, outputTokens: int, cachedInputTokens: int, rates: Option<Rates>)
    ensures outputTokens < 0 ==> CalculateModelCost(inputTokens, outputTokens, cachedInputTokens, rates) == CalculateModelCost(inputTokens, 0, cachedInputTokens, rates)
    ensures cachedInputTokens < 0 ==> CalculateModelCost(inputTokens, outputTokens, cachedInputTokens, rates) == CalculateModelCost(inputTokens, outputTokens, 0, rates)
    ensures inputTokens < 0 ==> CalculateModelCost(inputTokens, outputTokens, cachedInputTokens, rates) == CalculateModelCost(0, outputTokens, 0, rates)
    ensures 0 <= inputTokens <= cachedInputTokens ==>
              CalculateModelCost(inputTokens, outputTokens, cachedInputTokens, rates) == CalculateModelCost(inputTokens, outputTokens, inputTokens, rates)
  {
  }

  // ----------------------------------------------------------------- never for nothing

  lemma PricedGrows(tokens: nat, rate: real)
    requires rate >= 0.0
    ensures Priced(tokens, rate) >= 0.0
    ensures tokens > 0 && rate > 0.0 ==> Priced(tokens, rate) > 0.0
  {
    var t := tokens as real / TOKENS_PER_RATE_UNIT as real;
    assert t >= 0.0 && (tokens > 0 ==> t > 0.0);
    assert t * rate >= 0.0;
  }

  /** A priced model never reads input for nothing, in either tier, however much was cached. */
  lemma InputIsNeverFree(inputTokens: int, outputTokens: int, cachedInputTokens: int, rates: Rates)
    requires inputTokens > 0 && Positive(rates.inputBelow200k) && OrZero(rates.output) >= 0.0
    ensures CalculateModelCost(inputTokens, outputTokens, cachedInputTokens, Some(rates)) > 0.0
  {
    hide Priced;
    var cached := CachedShare(inputTokens, cachedInputTokens);
    PricedGrows(Max0(inputTokens - cached), StandardRate(rates, inputTokens));
    PricedGrows(cached, CachedRate(rates, inputTokens));
    PricedGrows(Max0(outputTokens), OrZero(rates.output));
  }

  // ---------------------------------------------------------- forgetting the cache

  lemma PricedDifference(uncached: nat, c1: nat, c2: nat, standard: real, cachedRate: real)
    requires c1 <= c2
    ensures (Priced(uncached + (c2 - c1), standard) + Priced(c1, cachedRate)) - (Priced(uncached, standard) + Priced(c2, cachedRate))
            == Priced(c2 - c1, standard - cachedRate)
  {
    var u, d := uncached as real / TOKENS_PER_RATE_UNIT as real, (c2 - c1) as real / TOKENS_PER_RATE_UNIT as real;
    var c := c1 as real / TOKENS_PER_RATE_UNIT as real;
    assert Priced(uncached + (c2 - c1), standard) == (u + d) * standard == u * standard + d * standard;
    assert Priced(c2, cachedRate) == (c + d) * cachedRate == c * cachedRate + d * cachedRate;
    assert d * (standard - cachedRate) == d * standard - d * cachedRate;
  }

  /**
   * Knowing of less cached input never lowers the figure, exactly when the cached rate in
   * force is no dearer than the standard one (or the forgotten share is nothing).
   */
  lemma ForgettingOverstatesExactly(inputTokens: int, outputTokens: int, known: int, all: int, rates: Rates)
    requires known <= all
    ensures CalculateModelCost(inputTokens, outputTokens, known, Some(rates)) >= CalculateModelCost(inputTokens, outputTokens, all, Some(rates))
            <==> CachedShare(inputTokens, known) == CachedShare(inputTokens, all)
                 || CachedRate(rates, inputTokens) <= StandardRate(rates, inputTokens)
  {
    hide Priced, StandardRate, CachedRate;
    var c1, c2 := CachedShare(inputTokens, known), CachedShare(inputTokens, all);
    var standard, cachedRate := StandardRate(rates, inputTokens), CachedRate(rates, inputTokens);
    PricedDifference(Max0(inputTokens - c2), c1, c2, standard, cachedRate);
    assert Max0(inputTokens - c1) == Max0(inputTokens - c2) + (c2 - c1);
    SignOfPriced(c2 - c1, standard - cachedRate);
  }

  lemma SignOfPriced(tokens: nat, rate: real)
    ensures Priced(tokens, rate) >= 0.0 <==> tokens == 0 || rate >= 0.0
  {
    var t := tokens as real / TOKENS_PER_RATE_UNIT as real;
    if tokens > 0 {
      assert t > 0.0;
      if rate < 0.0 {
        assert t * rate < 0.0;
      } else {
        assert t * rate >= 0.0;
      }
    }
  }

  // ------------------------------------------------------------------ over a whole run

  /** An answer counted, the position saved, or an action starting from the last save: after a
      handover nothing lies in between, after a crash the turns since that save do. */
  datatype Entry = Turn(inputTokens: nat, outputTokens: nat, cachedInputTokens: nat) | Saved | Resumed

  datatype Counters = Counters(inTokens: nat, outTokens: nat, cachedInTokens: nat) {
    function Plus(e: Entry): Counters
      requires e.Turn?
    {
      Counters(inTokens + e.inputTokens, outTokens + e.outputTokens, cachedInTokens + e.cachedInputTokens)
    }
  }

  /** `carried` is what the loop counts with; `kept` the truth about the turns it still knows of;
      `total` the truth about all of them. A save stores the first two. */
  datatype Books = Books(carried: Counters, kept: Counters, total: Counters, saved: Option<(Counters, Counters)>, crashes: nat)

  const NOTHING := Counters(0, 0, 0)

  /** A resume keeps the totals that were saved and starts the cached count at 0. */
  function After(run: seq<Entry>): Books {
    if run == [] then Books(NOTHING, NOTHING, NOTHING, None, 0)
    else
      var b, e := After(run[..|run| - 1]), run[|run| - 1];
      match e
      case Turn(_, _, _) => b.(carried := b.carried.Plus(e), kept := b.kept.Plus(e), total := b.total.Plus(e))
      case Saved => b.(saved := Some((b.carried, b.kept)))
      case Resumed =>
        if b.saved.None? then b
        else b.(carried := b.saved.value.0.(cachedInTokens := 0), kept := b.saved.value.1,
                crashes := b.crashes + if b.kept == b.saved.value.1 then 0 else 1)
  }

  function CostOf(n: Counters, rates: Rates): real {
    CalculateModelCost(n.inTokens, n.outTokens, n.cachedInTokens, Some(rates))
  }

  predicate ShouldStopForCostBudget(cost: real, maxCost: real) { cost >= maxCost }

  /** A run may spend anything short of its ceiling, and not the ceiling itself. */
  lemma StopsAtTheCeiling(maxCost: real, less: real)
    requires less < maxCost
    ensures ShouldStopForCostBudget(maxCost, maxCost) && !ShouldStopForCostBudget(less, maxCost)
  {
  }

  /** Every action started where the last one saved: no turn was lost. */
  predicate NothingLost(run: seq<Entry>) { After(run).kept == After(run).total }

  ghost predicate SavedBehind(b: Books) {
    b.saved.Some? ==>
      && b.saved.value.0.inTokens == b.saved.value.1.inTokens && b.saved.value.0.outTokens == b.saved.value.1.outTokens
      && b.saved.value.0.cachedInTokens <= b.saved.value.1.cachedInTokens
  }

  lemma {:induction false} OnlyTheCachedCountFallsBehind(run: seq<Entry>)
    ensures var b := After(run);
            && b.carried.inTokens == b.kept.inTokens && b.carried.outTokens == b.kept.outTokens
            && b.carried.cachedInTokens <= b.kept.cachedInTokens && SavedBehind(b)
  {
    if run != [] {
      OnlyTheCachedCountFallsBehind(run[..|run| - 1]);
    }
  }

  /** Neither tier prices cached input above fresh input. */
  predicate CacheIsNoDearer(rates: Rates) {
    && CachedRate(rates, 0) <= StandardRate(rates, 0)
    && CachedRate(rates, LARGE_CONTEXT_TOKEN_THRESHOLD + 1) <= StandardRate(rates, LARGE_CONTEXT_TOKEN_THRESHOLD + 1)
  }

  lemma NeverBelowWhatIsKept(rates: Rates, run: seq<Entry>)
    requires CacheIsNoDearer(rates)
    ensures CostOf(After(run).carried, rates) >= CostOf(After(run).kept, rates)
  {
    hide After;
    OnlyTheCachedCountFallsBehind(run);
    var b := After(run);
    ForgettingOverstatesExactly(b.kept.inTokens, b.kept.outTokens, b.carried.cachedInTokens, b.kept.cachedInTokens, rates);
  }

  /** While no turn is lost, the cost stop fires no later than it should. */
  lemma NeverBelowTheTruth(rates: Rates, run: seq<Entry>, maxCost: real)
    requires CacheIsNoDearer(rates) && NothingLost(run)
    ensures ShouldStopForCostBudget(CostOf(After(run).total, rates), maxCost) ==>
              ShouldStopForCostBudget(CostOf(After(run).carried, rates), maxCost)
  {
    hide After, CostOf;
    NeverBelowWhatIsKept(rates, run);
  }

  /**
   * However often a run is handed over, the figure the loop compares with its ceiling is at least the
   * true one at every point at which no turn has been lost - exactly for the models whose cached input
   * is no dearer than fresh input.
   */
  lemma SpendIsNeverUnderstated(rates: Rates)
    ensures CacheIsNoDearer(rates)
            <==> forall run :: NothingLost(run) ==> CostOf(After(run).carried, rates) >= CostOf(After(run).total, rates)
  {
    if CacheIsNoDearer(rates) {
      forall run | NothingLost(run)
        ensures CostOf(After(run).carried, rates) >= CostOf(After(run).total, rates)
      {
        NeverBelowWhatIsKept(rates, run);
      }
    } else {
      var run := UnderstatedRun(rates);
    }
  }

  /** One turn read wholly from the cache, then a handover, in the tier whose cache is dearer. */
  lemma UnderstatedRun(rates: Rates) returns (run: seq<Entry>)
    requires !CacheIsNoDearer(rates)
    ensures NothingLost(run) && CostOf(After(run).carried, rates) < CostOf(After(run).total, rates)
  {
    hide CalculateModelCost, After;
    var n := if CachedRate(rates, 0) > StandardRate(rates, 0) then 1 else LARGE_CONTEXT_TOKEN_THRESHOLD + 1;
    run := [Turn(n, 0, n), Saved, Resumed];
    OneCachedTurn(n);
    ForgettingOverstatesExactly(n, 0, 0, n, rates);
  }

  lemma OneCachedTurn(n: nat)
    ensures var all := Counters(n, 0, n);
            After([Turn(n, 0, n), Saved, Resumed]) == Books(Counters(n, 0, 0), all, all, Some((all, all)), 0)
  {
    var turn, all := Turn(n, 0, n), Counters(n, 0, n);
    var run := [turn, Saved, Resumed];
    assert run[..2] == [turn, Saved] && [turn, Saved][..1] == [turn] && [turn][..0] == [];
    assert After([turn]) == Books(all, all, all, None, 0);
    assert After([turn, Saved]) == Books(all, all, all, Some((all, all)), 0);
  }

  // ------------------------------------------------------------------------- crashes

  /** The model has a price for something. */
  predicate CostsSomething(rates: Rates) {
    Positive(rates.inputBelow200k) || Positive(rates.inputAbove200k) || Positive(rates.cachedBelow200k)
    || Positive(rates.cachedAbove200k) || Positive(rates.output)
  }

  /** A turn lost to a crash is never counted again: unless the model costs nothing at all, some run
      spends more than its figure shows. */
  lemma CrashesHideSpendExactly(rates: Rates)
    ensures CostsSomething(rates) <==> exists run :: CostOf(After(run).carried, rates) < CostOf(After(run).total, rates)
  {
    if CostsSomething(rates) {
      var run := LostTurn(rates);
    } else {
      forall run
        ensures CostOf(After(run).carried, rates) >= CostOf(After(run).total, rates)
      {
        OnlyTheCachedCountFallsBehind(run);
        KeptIsPartOfTotal(run);
        FreeModel(rates, After(run).carried, After(run).total);
      }
    }
  }

  /** A first turn is saved, the second is lost in a crash. */
  lemma LostTurn(rates: Rates) returns (run: seq<Entry>)
    requires CostsSomething(rates)
    ensures CostOf(After(run).carried, rates) < CostOf(After(run).total, rates)
  {
    hide CostOf;
    var turn := CostlyTurn(rates);
    var none, n := Turn(0, 0, 0), NOTHING.Plus(turn);
    run := [none, Saved, turn, Resumed];
    assert run[..3] == [none, Saved, turn] && [none, Saved, turn][..2] == [none, Saved] && [none, Saved][..1] == [none] && [none][..0] == [];
    assert After([none]) == Books(NOTHING, NOTHING, NOTHING, None, 0);
    assert After([none, Saved]) == Books(NOTHING, NOTHING, NOTHING, Some((NOTHING, NOTHING)), 0);
    assert After([none, Saved, turn]) == Books(n, n, n, Some((NOTHING, NOTHING)), 0);
    assert After(run).carried == NOTHING && After(run).total == n;
  }

  lemma CostlyTurn(rates: Rates) returns (turn: Entry)
    requires CostsSomething(rates)
    ensures turn.Turn? && CostOf(NOTHING, rates) == 0.0 < CostOf(NOTHING.Plus(turn), rates)
  {
    hide Priced;
    NoTokensCostNothing(StandardRate(rates, 0));
    NoTokensCostNothing(CachedRate(rates, 0));
    NoTokensCostNothing(OrZero(rates.output));
    var large := LARGE_CONTEXT_TOKEN_THRESHOLD + 1;
    if Positive(rates.output) {
      turn := Turn(0, 1, 0);
      SignOfPriced(1, OrZero(rates.output));
      PricedGrows(1, OrZero(rates.output));
    } else if Positive(rates.inputBelow200k) {
      turn := Turn(1, 0, 0);
      NoTokensCostNothing(CachedRate(rates, 1));
      PricedGrows(1, StandardRate(rates, 1));
    } else if Positive(rates.cachedBelow200k) {
      turn := Turn(1, 0, 1);
      NoTokensCostNothing(StandardRate(rates, 1));
      PricedGrows(1, CachedRate(rates, 1));
    } else if Positive(rates.inputAbove200k) {
      turn := Turn(large, 0, 0);
      NoTokensCostNothing(CachedRate(rates, large));
      PricedGrows(large, StandardRate(rates, large));
    } else {
      turn := Turn(large, 0, large);
      NoTokensCostNothing(StandardRate(rates, large));
      PricedGrows(large, CachedRate(rates, large));
    }
  }

  lemma NoTokensCostNothing(rate: real)
    ensures Priced(0, rate) == 0.0
  {
  }

  /** Without a positive price more tokens never cost more. */
  lemma FreeModel(rates: Rates, fewer: Counters, more: Counters)
    requires !CostsSomething(rates) && fewer.inTokens <= more.inTokens && fewer.outTokens <= more.outTokens
    ensures CostOf(fewer, rates) >= CostOf(more, rates)
  {
    hide Priced;
    var r, o := OrZero(rates.inputBelow200k), OrZero(rates.output);
    SharesAddUp(fewer, r);
    SharesAddUp(more, r);
    PricedFalls(fewer.inTokens, more.inTokens, r);
    PricedFalls(fewer.outTokens, more.outTokens, o);
  }

  lemma SharesAddUp(n: Counters, rate: real)
    ensures var cached := CachedShare(n.inTokens, n.cachedInTokens);
            Priced(Max0(n.inTokens - cached), rate) + Priced(cached, rate) == Priced(n.inTokens, rate)
  {
    var cached := CachedShare(n.inTokens, n.cachedInTokens);
    PricedAdds(n.inTokens - cached, cached, rate);
  }

  lemma PricedAdds(a: nat, b: nat, rate: real)
    ensures Priced(a, rate) + Priced(b, rate) == Priced(a + b, rate)
  {
    var x, y := a as real / TOKENS_PER_RATE_UNIT as real, b as real / TOKENS_PER_RATE_UNIT as real;
    assert (a + b) as real / TOKENS_PER_RATE_UNIT as real == x + y;
    assert (x + y) * rate == x * rate + y * rate;
  }

  lemma PricedFalls(a: nat, b: nat, rate: real)
    requires a <= b && rate <= 0.0
    ensures Priced(a, rate) >= Priced(b, rate)
  {
    PricedAdds(a, b - a, rate);
    var t := (b - a) as real / TOKENS_PER_RATE_UNIT as real;
    assert t >= 0.0;
    assert t * rate <= 0.0;
  }

  lemma {:induction false} KeptIsPartOfTotal(run: seq<Entry>)
    ensures var b := After(run);
            && b.kept.inTokens <= b.total.inTokens && b.kept.outTokens <= b.total.outTokens
            && (b.saved.Some? ==> b.saved.value.1.inTokens <= b.total.inTokens && b.saved.value.1.outTokens <= b.total.outTokens)
  {
    if run != [] {
      KeptIsPartOfTotal(run[..|run| - 1]);
    }
  }

  // -------------------------------------------------------------- what survives crashes

  /** What these tokens cost at the tier in force for an input of `at`. */
  function CostAt(n: Counters, at: int, rates: Rates): real {
    Priced(Max0(n.inTokens - n.cachedInTokens), StandardRate(rates, at)) + Priced(n.cachedInTokens, CachedRate(rates, at))
    + Priced(n.outTokens, OrZero(rates.output))
  }

  /** Nothing is priced below zero, and the long-context tier at most `g` times the other. */
  predicate WithinFactor(rates: Rates, g: real) {
    var large := LARGE_CONTEXT_TOKEN_THRESHOLD + 1;
    && g >= 1.0 && StandardRate(rates, 0) >= 0.0 && OrZero(rates.output) >= 0.0
    && StandardRate(rates, large) <= g * StandardRate(rates, 0) && CachedRate(rates, large) <= g * CachedRate(rates, 0)
  }

  /** The cached share of a turn is part of its input, as providers report it. */
  ghost predicate WellReported(run: seq<Entry>) {
    forall e :: e in run && e.Turn? ==> e.cachedInputTokens <= e.inputTokens
  }

  predicate Sound(n: Counters) { n.cachedInTokens <= n.inTokens }

  lemma CostAtAdds(n: Counters, e: Entry, at: int, rates: Rates)
    requires e.Turn? && Sound(n) && e.cachedInputTokens <= e.inputTokens
    ensures CostAt(n.Plus(e), at, rates) == CostAt(n, at, rates) + CostAt(NOTHING.Plus(e), at, rates)
  {
    hide Priced, StandardRate, CachedRate;
    PricedAdds(n.inTokens - n.cachedInTokens, e.inputTokens - e.cachedInputTokens, StandardRate(rates, at));
    PricedAdds(n.cachedInTokens, e.cachedInputTokens, CachedRate(rates, at));
    PricedAdds(n.outTokens, e.outputTokens, OrZero(rates.output));
  }

  lemma CostAtIsPositive(n: Counters, at: int, rates: Rates)
    requires Sound(n) && StandardRate(rates, at) >= 0.0 && OrZero(rates.output) >= 0.0
    ensures CostAt(n, at, rates) >= 0.0
  {
    hide Priced;
    PricedGrows(n.inTokens - n.cachedInTokens, StandardRate(rates, at));
    PricedGrows(n.cachedInTokens, CachedRate(rates, at));
    PricedGrows(n.outTokens, OrZero(rates.output));
  }

  lemma {:induction false} BooksAreSound(run: seq<Entry>)
    requires WellReported(run)
    ensures var b := After(run); Sound(b.kept) && Sound(b.total) && (b.saved.Some? ==> Sound(b.saved.value.1))
  {
    if run != [] {
      assert forall e :: e in run[..|run| - 1] ==> e in run;
      BooksAreSound(run[..|run| - 1]);
      assert run[|run| - 1] in run;
    }
  }

  /** Each crash hides at most what the life it ended had on its books. */
  lemma {:induction false} EachLifeHidesAtMostItsBooks(run: seq<Entry>, at: int, rates: Rates, most: real)
    requires WellReported(run) && StandardRate(rates, at) >= 0.0 && OrZero(rates.output) >= 0.0
    requires forall n :: 0 <= n <= |run| ==> CostAt(After(run[..n]).kept, at, rates) <= most
    ensures CostAt(After(run).total, at, rates) <= CostAt(After(run).kept, at, rates) + Lives(After(run).crashes, most)
  {
    hide CostAt, Priced, Lives;
    if run == [] {
      OneMoreLife(0, most);
    } else {
      var front, e := run[..|run| - 1], run[|run| - 1];
      assert forall x :: x in front ==> x in run;
      assert forall n :: 0 <= n <= |front| ==> front[..n] == run[..n];
      EachLifeHidesAtMostItsBooks(front, at, rates, most);
      assert front == run[..|front|] && e in run;
      BooksAreSound(front);
      OneMoreEntry(front, e, run, at, rates, most);
    }
  }

  /** `most` for each of `n` lives. */
  function Lives(n: nat, most: real): real { n as real * most }

  lemma OneMoreLife(n: nat, most: real)
    ensures Lives(n + 1, most) == Lives(n, most) + most && Lives(0, most) == 0.0
    ensures n <= 4 && most >= 0.0 ==> Lives(n, most) <= 4.0 * most
  {
    assert (n as real + 1.0) * most == n as real * most + most;
    if n <= 4 && most >= 0.0 {
      assert (4.0 - n as real) * most >= 0.0;
      assert (4.0 - n as real) * most == 4.0 * most - n as real * most;
    }
  }

  lemma OneMoreEntry(front: seq<Entry>, e: Entry, run: seq<Entry>, at: int, rates: Rates, most: real)
    requires run != [] && front == run[..|run| - 1] && e == run[|run| - 1] && (e.Turn? ==> e.cachedInputTokens <= e.inputTokens)
    requires StandardRate(rates, at) >= 0.0 && OrZero(rates.output) >= 0.0
    requires var b := After(front); Sound(b.kept) && Sound(b.total) && (b.saved.Some? ==> Sound(b.saved.value.1))
    requires CostAt(After(front).kept, at, rates) <= most
    requires CostAt(After(front).total, at, rates) <= CostAt(After(front).kept, at, rates) + Lives(After(front).crashes, most)
    ensures CostAt(After(run).total, at, rates) <= CostAt(After(run).kept, at, rates) + Lives(After(run).crashes, most)
  {
    hide CostAt, Lives, StandardRate, Priced;
    var b := After(front);
    match e {
      case Turn(_, _, _) =>
        CostAtAdds(b.kept, e, at, rates);
        CostAtAdds(b.total, e, at, rates);
      case Saved =>
      case Resumed =>
        if b.saved.Some? {
          CostAtIsPositive(b.saved.value.1, at, rates);
          OneMoreLife(b.crashes, most);
        }
    }
  }

  lemma PricedScales(tokens: nat, high: real, low: real, g: real)
    requires high <= g * low
    ensures Priced(tokens, high) <= g * Priced(tokens, low)
  {
    var t := tokens as real / TOKENS_PER_RATE_UNIT as real;
    assert t >= 0.0;
    assert t * high <= t * (g * low);
    assert t * (g * low) == g * (t * low);
  }

  /** Repricing at the tier of a longer context costs at most `g` times as much. */
  lemma RepricedWithinFactor(n: Counters, at: int, rates: Rates, g: real)
    requires WithinFactor(rates, g) && Sound(n) && n.inTokens <= at
    ensures CostAt(n, at, rates) <= g * CostOf(n, rates)
  {
    hide Priced, StandardRate, CachedRate;
    var u, k, o := n.inTokens - n.cachedInTokens, n.cachedInTokens, n.outTokens;
    var s1, c1, p := StandardRate(rates, n.inTokens), CachedRate(rates, n.inTokens), OrZero(rates.output);
    TierRates(rates, at, n.inTokens, g);
    PricedScales(u, StandardRate(rates, at), s1, g);
    PricedScales(k, CachedRate(rates, at), c1, g);
    assert p <= g * p;
    PricedScales(o, p, p, g);
    var x, y, z := Priced(u, s1), Priced(k, c1), Priced(o, p);
    assert g * (x + y + z) == g * x + g * y + g * z;
  }

  lemma TierRates(rates: Rates, at: int, below: int, g: real)
    requires WithinFactor(rates, g) && below <= at
    ensures StandardRate(rates, at) <= g * StandardRate(rates, below) && CachedRate(rates, at) <= g * CachedRate(rates, below)
    ensures StandardRate(rates, at) >= 0.0
  {
    var s, k := StandardRate(rates, below), CachedRate(rates, below);
    assert s >= 0.0 && k >= 0.0;
    NoLessThan(g, s);
    NoLessThan(g, k);
    if IsLargeContext(at) == IsLargeContext(below) {
      assert StandardRate(rates, at) == s && CachedRate(rates, at) == k;
    }
  }

  lemma NoLessThan(g: real, x: real)
    requires g >= 1.0 && x >= 0.0
    ensures x <= g * x
  {
    assert (g - 1.0) * x >= 0.0;
  }

  /**
   * What survives crashes: if `figure` is the greatest figure the run's books ever showed, its true
   * spend is at most that for each of its lives, times the factor between the price tiers - with at
   * most three revivals, four times.
   */
  lemma CrashesHideAtMostALifeEach(run: seq<Entry>, rates: Rates, g: real, figure: real)
    requires WellReported(run) && CacheIsNoDearer(rates) && WithinFactor(rates, g)
    requires forall n :: 0 <= n <= |run| ==> CostOf(After(run[..n]).carried, rates) <= figure
    ensures CostOf(After(run).total, rates) <= Lives(1 + After(run).crashes, g * figure)
    ensures After(run).crashes <= 3 ==> CostOf(After(run).total, rates) <= 4.0 * (g * figure)
  {
    hide CostOf, CostAt, Priced, After, Lives, StandardRate, CachedRate;
    var at := After(run).total.inTokens;
    forall n | 0 <= n <= |run|
      ensures CostAt(After(run[..n]).kept, at, rates) <= g * figure
    {
      PrefixBooks(run, n);
      NeverBelowWhatIsKept(rates, run[..n]);
      RepricedWithinFactor(After(run[..n]).kept, at, rates, g);
      var k := CostOf(After(run[..n]).kept, rates);
      assert g * k <= g * figure;
    }
    TierRates(rates, at, 0, g);
    EachLifeHidesAtMostItsBooks(run, at, rates, g * figure);
    assert run[..|run|] == run;
    BooksAreSound(run);
    CostOfIsCostAt(After(run).total, rates);
    NoTokensNoCost(rates);
    assert run[..0] == [] && figure >= 0.0 && g * figure >= 0.0;
    OneMoreLife(After(run).crashes, g * figure);
    OneMoreLife(1 + After(run).crashes, g * figure);
  }

  lemma CostOfIsCostAt(n: Counters, rates: Rates)
    requires Sound(n)
    ensures CostOf(n, rates) == CostAt(n, n.inTokens, rates)
  {
  }

  lemma NoTokensNoCost(rates: Rates)
    ensures CostOf(After([]).carried, rates) == 0.0
  {
  }

  lemma {:induction false} PrefixBooks(run: seq<Entry>, n: nat)
    requires WellReported(run) && n <= |run|
    ensures Sound(After(run[..n]).kept) && After(run[..n]).kept.inTokens <= After(run).total.inTokens
    ensures After(run[..n]).total.inTokens <= After(run).total.inTokens
  {
    if n == |run| {
      assert run[..n] == run;
      BooksAreSound(run);
      KeptIsPartOfTotal(run);
    } else {
      var front := run[..|run| - 1];
      assert forall e :: e in front ==> e in run;
      assert front[..n] == run[..n];
      PrefixBooks(front, n);
    }
  }
}
