/** Which budget a run gets: its agent's overrides, platform defaults and hard ceilings
    (convex/agentRuntimeService.ts:26-240). */
module RunLimits {
  import opened Common
  import opened RunRecords

  /** A number as it reaches the clamp; anything not finite counts as unusable. */
  datatype Number = Finite(value: real) | NotFinite

  datatype Overrides = Overrides(
    maxSteps: Option<Number>, maxToolCalls: Option<Number>, maxRuntimeMs: Option<Number>,
    maxInputTokens: Option<Number>, maxCostGBP: Option<Number>)

  datatype Limits = Limits(
    maxSteps: int, maxToolCalls: int, maxRuntimeMs: int, maxInputTokens: int, maxOutputTokens: int, maxCostGBP: real)

  const DEFAULTS := Limits(25, 25, 30 * 60 * 1000, 1_000_000, 100_000, 10.0)
  const UNPRICED := Limits(4, 3, 120_000, 200_000, 20_000, 1.0)
  const CEILINGS := Limits(500, 500, 60 * 60 * 1000, 10_000_000, 1_000_000, 50.0)

  predicate Usable(value: Option<Number>) {
    value.Some? && value.value.Finite? && value.value.value > 0.0
  }

  function Min(a: real, b: real): real { if a < b then a else b }

  function ClampCount(value: Option<Number>, fallback: int, ceiling: int): int {
    if Usable(value) then Min(value.value.value, ceiling as real).Floor else fallback
  }

  function ClampMoney(value: Option<Number>, fallback: real, ceiling: real): real {
    if Usable(value) then Min(value.value.value, ceiling) else fallback
  }

  function MinInt(a: int, b: int): int { if a < b then a else b }

  function ResolveAgentObjectiveLimits(o: Overrides, costMeasurable: bool): Limits {
    if !costMeasurable then
      UNPRICED.(maxSteps := MinInt(ClampCount(o.maxSteps, UNPRICED.maxSteps, UNPRICED.maxSteps), UNPRICED.maxSteps),
                maxToolCalls := MinInt(ClampCount(o.maxToolCalls, UNPRICED.maxToolCalls, UNPRICED.maxToolCalls), UNPRICED.maxToolCalls),
                maxRuntimeMs := MinInt(ClampCount(o.maxRuntimeMs, UNPRICED.maxRuntimeMs, UNPRICED.maxRuntimeMs), UNPRICED.maxRuntimeMs))
    else
      Limits(ClampCount(o.maxSteps, DEFAULTS.maxSteps, CEILINGS.maxSteps),
             ClampCount(o.maxToolCalls, DEFAULTS.maxToolCalls, CEILINGS.maxToolCalls),
             ClampCount(o.maxRuntimeMs, DEFAULTS.maxRuntimeMs, CEILINGS.maxRuntimeMs),
             ClampCount(o.maxInputTokens, DEFAULTS.maxInputTokens, CEILINGS.maxInputTokens),
             DEFAULTS.maxOutputTokens,
             ClampMoney(o.maxCostGBP, DEFAULTS.maxCostGBP, CEILINGS.maxCostGBP))
  }

  /** What the settings screen stores for a count, and for money. */
  function ClampCountOverride(value: Option<Number>, ceiling: int): Option<Number> {
    if Usable(value) then Some(Finite(Min(value.value.value, ceiling as real).Floor as real)) else None
  }

  function ClampAgentLimitOverrides(o: Overrides): Overrides {
    Overrides(ClampCountOverride(o.maxSteps, CEILINGS.maxSteps),
              ClampCountOverride(o.maxToolCalls, CEILINGS.maxToolCalls),
              ClampCountOverride(o.maxRuntimeMs, CEILINGS.maxRuntimeMs),
              ClampCountOverride(o.maxInputTokens, CEILINGS.maxInputTokens),
              if Usable(o.maxCostGBP) then Some(Finite(Min(o.maxCostGBP.value.value, CEILINGS.maxCostGBP))) else None)
  }

  /** A usable number that flooring turns into zero. */
  predicate BelowOne(value: Option<Number>) {
    Usable(value) && value.value.value < 1.0
  }

  /**
   * Whatever an agent is set to, no count exceeds its ceiling and spend stays within (0, 50];
   * a count is a workable budget of at least one exactly when its override is not a fraction
   * below one, which flooring makes zero.
   */
  lemma LimitsAreWorkable(o: Overrides, costMeasurable: bool)
    ensures var l := ResolveAgentObjectiveLimits(o, costMeasurable);
            && 0 <= l.maxSteps <= CEILINGS.maxSteps && (l.maxSteps >= 1 <==> !BelowOne(o.maxSteps))
            && 0 <= l.maxToolCalls <= CEILINGS.maxToolCalls && (l.maxToolCalls >= 1 <==> !BelowOne(o.maxToolCalls))
            && 0 <= l.maxRuntimeMs <= CEILINGS.maxRuntimeMs && (l.maxRuntimeMs >= 1 <==> !BelowOne(o.maxRuntimeMs))
            && 0.0 < l.maxCostGBP <= CEILINGS.maxCostGBP
    ensures var l := ResolveAgentObjectiveLimits(o, costMeasurable);
            !costMeasurable ==> l.maxSteps <= UNPRICED.maxSteps && l.maxToolCalls <= UNPRICED.maxToolCalls
  {
  }

  /** What the protocol's theorems ask of a run's limits is what the platform guarantees: a batch
      never outgrows one settlement query, and no run is given more than an hour. */
  lemma LimitsFitTheProtocol(o: Overrides, costMeasurable: bool)
    ensures ResolveAgentObjectiveLimits(o, costMeasurable).maxToolCalls <= AGENT_RUN_DETAIL_LIMIT
    ensures ResolveAgentObjectiveLimits(o, costMeasurable).maxRuntimeMs <= 3_600_000
  {
  }

  /**
   * The stored record says what will run: resolving the clamped overrides gives the same
   * limits as resolving the raw ones, exactly when no count in play is a fraction below one
   * (which runs as zero, but is stored as a zero the next read takes for "use the default").
   */
  lemma StoredRecordSaysWhatRuns(o: Overrides, costMeasurable: bool)
    ensures ResolveAgentObjectiveLimits(ClampAgentLimitOverrides(o), costMeasurable) == ResolveAgentObjectiveLimits(o, costMeasurable)
            <==> && !BelowOne(o.maxSteps) && !BelowOne(o.maxToolCalls) && !BelowOne(o.maxRuntimeMs)
                 && (costMeasurable ==> !BelowOne(o.maxInputTokens))
  {
  }

  // ------------------------------------------------------------- what an override does

  /** `n` is the greatest whole number at most `x`. */
  ghost predicate WholePart(n: int, x: real) { n as real <= x < n as real + 1.0 }

  /** The count a field comes to: its override cut to a whole number, but never more than `most`;
      without a usable override what it falls back to. */
  ghost predicate CountFor(n: int, value: Option<Number>, fallback: int, most: int) {
    match value
    case Some(Finite(v)) =>
      if v <= 0.0 then n == fallback else if v >= most as real then n == most else WholePart(n, v)
    case _ => n == fallback
  }

  ghost predicate MoneyFor(m: real, value: Option<Number>, fallback: real, most: real) {
    match value
    case Some(Finite(v)) => if v <= 0.0 then m == fallback else if v >= most then m == most else m == v
    case _ => m == fallback
  }

  /** A whole number cut to a whole number is itself, so the two readings of a ceiling agree. */
  lemma FloorOfMin(v: real, most: int)
    ensures var n := Min(v, most as real).Floor; if v >= most as real then n == most else WholePart(n, v)
  {
  }

  lemma ClampIsCountFor(value: Option<Number>, fallback: int, most: int)
    ensures CountFor(ClampCount(value, fallback, most), value, fallback, most)
  {
    if Usable(value) {
      FloorOfMin(value.value.value, most);
    }
  }

  /**
   * An agent's settings are honoured: on a priced model each count is its override as a whole number up
   * to the ceiling, the money as it stands up to its own, and whatever is not usable the default. On an
   * unpriced model steps, calls and time are the override only where it is lower than the conservative
   * limit, and the rest does not move at all.
   */
  lemma OverridesAreHonoured(o: Overrides)
    ensures var l := ResolveAgentObjectiveLimits(o, true);
            && CountFor(l.maxSteps, o.maxSteps, 25, 500) && CountFor(l.maxToolCalls, o.maxToolCalls, 25, 500)
            && CountFor(l.maxRuntimeMs, o.maxRuntimeMs, 1_800_000, 3_600_000)
            && CountFor(l.maxInputTokens, o.maxInputTokens, 1_000_000, 10_000_000)
            && MoneyFor(l.maxCostGBP, o.maxCostGBP, 10.0, 50.0) && l.maxOutputTokens == 100_000
    ensures var l := ResolveAgentObjectiveLimits(o, false);
            && CountFor(l.maxSteps, o.maxSteps, 4, 4) && CountFor(l.maxToolCalls, o.maxToolCalls, 3, 3)
            && CountFor(l.maxRuntimeMs, o.maxRuntimeMs, 120_000, 120_000)
            && l.maxInputTokens == 200_000 && l.maxOutputTokens == 20_000 && l.maxCostGBP == 1.0
  {
    ClampIsCountFor(o.maxSteps, 25, 500);
    ClampIsCountFor(o.maxToolCalls, 25, 500);
    ClampIsCountFor(o.maxRuntimeMs, 1_800_000, 3_600_000);
    ClampIsCountFor(o.maxInputTokens, 1_000_000, 10_000_000);
    ClampIsCountFor(o.maxSteps, 4, 4);
    ClampIsCountFor(o.maxToolCalls, 3, 3);
    ClampIsCountFor(o.maxRuntimeMs, 120_000, 120_000);
  }

  lemma CountForOnlyOnce(n: int, m: int, value: Option<Number>, fallback: int, most: int)
    requires CountFor(n, value, fallback, most) && CountFor(m, value, fallback, most)
    ensures n == m
  {
  }

  /** What is stored for a count is what it comes to; nothing unusable is stored. */
  ghost predicate StoredFor(stored: Option<Number>, value: Option<Number>, most: int) {
    if Usable(value) then stored.Some? && stored.value.Finite? && exists n: int :: stored.value.value == n as real && CountFor(n, value, 0, most)
    else stored == None
  }

  lemma StoredCount(value: Option<Number>, most: int)
    ensures StoredFor(ClampCountOverride(value, most), value, most)
  {
    if Usable(value) {
      ClampIsCountFor(value, 0, most);
      assert ClampCountOverride(value, most) == Some(Finite(ClampCount(value, 0, most) as real));
    }
  }

  /** The settings screen shows each override as it will count, money to the penny. */
  lemma StoredOverrides(o: Overrides)
    ensures var r := ClampAgentLimitOverrides(o);
            && StoredFor(r.maxSteps, o.maxSteps, 500) && StoredFor(r.maxToolCalls, o.maxToolCalls, 500)
            && StoredFor(r.maxRuntimeMs, o.maxRuntimeMs, 3_600_000) && StoredFor(r.maxInputTokens, o.maxInputTokens, 10_000_000)
            && (if Usable(o.maxCostGBP) then r.maxCostGBP.Some? && r.maxCostGBP.value.Finite? && MoneyFor(r.maxCostGBP.value.value, o.maxCostGBP, 0.0, 50.0)
                else r.maxCostGBP == None)
  {
    StoredCount(o.maxSteps, 500);
    StoredCount(o.maxToolCalls, 500);
    StoredCount(o.maxRuntimeMs, 3_600_000);
    StoredCount(o.maxInputTokens, 10_000_000);
  }

  predicate NoLess(more: Option<Number>, less: Option<Number>) {
    Usable(more) && Usable(less) && more.value.value >= less.value.value
  }

  /** More allowed never means less given: every limit grows with its override. */
  lemma LimitsGrow(o: Overrides, o': Overrides, costMeasurable: bool)
    requires NoLess(o'.maxSteps, o.maxSteps) && NoLess(o'.maxToolCalls, o.maxToolCalls) && NoLess(o'.maxRuntimeMs, o.maxRuntimeMs)
    requires NoLess(o'.maxInputTokens, o.maxInputTokens) && NoLess(o'.maxCostGBP, o.maxCostGBP)
    ensures var l, l' := ResolveAgentObjectiveLimits(o, costMeasurable), ResolveAgentObjectiveLimits(o', costMeasurable);
            && l.maxSteps <= l'.maxSteps && l.maxToolCalls <= l'.maxToolCalls && l.maxRuntimeMs <= l'.maxRuntimeMs
            && l.maxInputTokens <= l'.maxInputTokens && l.maxCostGBP <= l'.maxCostGBP
  {
    hide ResolveAgentObjectiveLimits, ClampCount;
    OverridesAreHonoured(o);
    OverridesAreHonoured(o');
  }
}
