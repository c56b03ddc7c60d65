/** Stateful pre-trade guardrails: which intents may become orders. */
module Risk {
  import opened Wrappers
  import opened Market
  import opened Totals
  import opened Portfolio
  import opened Lifecycle
  import opened Fills

  datatype Policy = Policy(
    enforceSpotCashCheck: bool,
    blockNewEntriesBelowEquity: Option<real>,
    maxPositionQty: Option<real>,
    maxOrderQty: Option<real>,
    maxOrderNotional: Option<real>,
    maxGrossExposureMultiple: Option<real>,
    maxDrawdownPct: Option<real>,
    maxDailyLossPct: Option<real>,
    maxLeverage: Option<real>,
    cooldownBarsAfterStop: Option<nat>,
    allowReduceOnlyWhenBlocked: bool)

  datatype Session = Session(
    peakEquity: Option<real>,
    lastEquity: Option<real>,
    tradingDay: Option<int>,
    dailyStartEquity: Option<real>,
    cooldown: nat,
    activations: nat,
    nextBoundary: Instant)

  const FRESH := Session(None, None, None, None, 0, 0, 0)

  // ----- Session state -----

  /** The calendar day of an instant in a zone at a fixed offset from UTC. */
  function LocalDay(offset: int, t: Instant): int {
    (t + offset) / MICROS_PER_DAY
  }

  function DayEnd(offset: int, t: Instant): Instant {
    (LocalDay(offset, t) + 1) * MICROS_PER_DAY - offset
  }

  /** The local day is looked up again only once the cached end of day is reached. */
  function Refreshed(s: Session, offset: int, t: Instant, equity: real): Session {
    var rolled :=
      if t < s.nextBoundary then s
      else if s.tradingDay == Some(LocalDay(offset, t)) then s.(nextBoundary := DayEnd(offset, t))
      else
        s.(tradingDay := Some(LocalDay(offset, t)), dailyStartEquity := Some(equity),
           nextBoundary := DayEnd(offset, t));
    var peak := if s.peakEquity.None? then equity else Max(s.peakEquity.value, equity);
    rolled.(peakEquity := Some(peak), lastEquity := Some(equity))
  }

  predicate LossClose(o: FillOutcome) {
    o.closeEvent && o.realizedDelta < 0.0
  }

  function Observed(s: Session, p: Policy, o: FillOutcome): Session {
    if p.cooldownBarsAfterStop.None? || !LossClose(o) then s
    else
      var bars := p.cooldownBarsAfterStop.value;
      s.(cooldown := if bars > s.cooldown then bars else s.cooldown, activations := s.activations + 1)
  }

  function BarCompleted(s: Session): Session {
    if s.cooldown > 0 then s.(cooldown := s.cooldown - 1) else s
  }

  function DrawdownPct(s: Session): Option<real> {
    if s.peakEquity.None? || s.lastEquity.None? || s.peakEquity.value <= 0.0 then None
    else Some((s.peakEquity.value - s.lastEquity.value) / s.peakEquity.value)
  }

  function DailyLossPct(s: Session): Option<real> {
    if s.dailyStartEquity.None? || s.lastEquity.None? || s.dailyStartEquity.value <= 0.0 then None
    else if s.dailyStartEquity.value - s.lastEquity.value <= 0.0 then Some(0.0)
    else Some((s.dailyStartEquity.value - s.lastEquity.value) / s.dailyStartEquity.value)
  }

  // ----- Rules -----

  /** Everything an intent is judged against. */
  datatype Scene = Scene(policy: Policy, costs: CostModel, session: Session, ledger: Ledger, marks: map<Symbol, real>,
      bar: Bar)

  datatype Rule =
    | CooldownActive
    | EquityFloor
    | MaxDrawdownPct
    | MaxDailyLossPct
    | SpotCash
    | MaxOrderQty
    | MaxOrderNotional
    | MaxPositionQty
    | MaxGrossExposure
    | MaxLeverage

  /** The order in which rules are consulted; the first one breached is the one reported. */
  const RULES: seq<Rule> := [
    CooldownActive, EquityFloor, MaxDrawdownPct, MaxDailyLossPct, SpotCash,
    MaxOrderQty, MaxOrderNotional, MaxPositionQty, MaxGrossExposure, MaxLeverage]

  function Expands(current: real, target: real): bool {
    if current == 0.0 then target != 0.0
    else if current > 0.0 then target < 0.0 || (target > 0.0 && Abs(target) > Abs(current))
    else target > 0.0 || (target < 0.0 && Abs(target) > Abs(current))
  }

  function WouldExpand(i: Intent): bool {
    Expands(i.currentQty, i.targetQty)
  }

  predicate EndsWith(s: string, suffix: string) {
    |s| >= |suffix| && s[|s| - |suffix|..] == suffix
  }

  predicate RequiresSpotCash(i: Intent) {
    EndsWith(i.symbol, "_SPOT") && i.side.Buy? && !i.reduceOnly
  }

  function SpotCashNeeded(c: CostModel, i: Intent, bar: Bar): real {
    var requested := i.limitPrice.GetOr(0.0);
    var reference := if requested != 0.0 then requested else bar.close;
    var price := SlippedPrice(c, i.orderType, i.side, reference);
    Notional(price, Abs(i.deltaQty)) + FeeOf(c, price, Abs(i.deltaQty), if i.orderType.Limit? then Maker else Taker)
  }

  function EstimatedNotional(i: Intent, bar: Bar): real {
    Notional(Abs(i.deltaQty), bar.close)
  }

  /** The ledger with the intent's symbol moved to its target. */
  function Moved(l: Ledger, i: Intent): Ledger {
    l.(positions := l.positions[i.symbol := Position(i.targetQty, Held(l, i.symbol).entry)])
  }

  ghost function GrossAfter(sc: Scene, i: Intent): real {
    MarkOf(Moved(sc.ledger, i), sc.marks).gross
  }

  /** A held position with neither a mark nor an entry price makes the gross estimate raise. */
  predicate Unpriceable(sc: Scene, i: Intent) {
    var after := Moved(sc.ledger, i).positions;
    exists s :: s in sc.ledger.positions && after[s].qty != 0.0 && s !in sc.marks && after[s].entry.None?
  }

  predicate NeedsGross(sc: Scene, r: Rule, i: Intent) {
    (r.MaxGrossExposure? && sc.policy.maxGrossExposureMultiple.Some?)
      || (r.MaxLeverage? && sc.policy.maxLeverage.Some? && WouldExpand(i))
  }

  ghost predicate Breached(sc: Scene, r: Rule, i: Intent) {
    var p := sc.policy;
    var equity := Equity(sc.ledger, sc.marks);
    match r
    case CooldownActive => WouldExpand(i) && sc.session.cooldown > 0
    case EquityFloor => WouldExpand(i) && p.blockNewEntriesBelowEquity.Some?
      && equity <= p.blockNewEntriesBelowEquity.value
    case MaxDrawdownPct =>
      WouldExpand(i) && p.maxDrawdownPct.Some? && DrawdownPct(sc.session).Some?
        && DrawdownPct(sc.session).value >= p.maxDrawdownPct.value
    case MaxDailyLossPct =>
      WouldExpand(i) && p.maxDailyLossPct.Some? && DailyLossPct(sc.session).Some?
        && DailyLossPct(sc.session).value >= p.maxDailyLossPct.value
    case SpotCash =>
      p.enforceSpotCashCheck && RequiresSpotCash(i)
        && sc.ledger.cash < (if i.deltaQty == 0.0 then 0.0 else SpotCashNeeded(sc.costs, i, sc.bar))
    case MaxOrderQty => p.maxOrderQty.Some? && Abs(i.deltaQty) > p.maxOrderQty.value
    case MaxOrderNotional => p.maxOrderNotional.Some? && EstimatedNotional(i, sc.bar) > p.maxOrderNotional.value
    case MaxPositionQty => p.maxPositionQty.Some? && Abs(i.targetQty) > p.maxPositionQty.value
    case MaxGrossExposure =>
      p.maxGrossExposureMultiple.Some?
        && GrossAfter(sc, i) > Notional(Max(equity, 0.0), p.maxGrossExposureMultiple.value)
    case MaxLeverage =>
      && p.maxLeverage.Some? && WouldExpand(i) && GrossAfter(sc, i) > 0.0
      && (equity <= 0.0 || GrossAfter(sc, i) / equity > p.maxLeverage.value)
  }

  datatype Detection = Passes | Breaches(rule: Rule) | Crashes

  ghost function DetectFrom(sc: Scene, i: Intent, k: nat): Detection
    requires k <= |RULES|
    decreases |RULES| - k
  {
    if k == |RULES| then Passes
    else if NeedsGross(sc, RULES[k], i) && Unpriceable(sc, i) then Crashes
    else if Breached(sc, RULES[k], i) then Breaches(RULES[k])
    else DetectFrom(sc, i, k + 1)
  }

  datatype Ruling = Allow | AllowBypass(bypassed: Rule) | Block(rule: Rule)

  datatype RiskOutcome = RiskOutcome(
    ruling: Ruling,
    symbol: Symbol,
    time: Instant,
    currentQty: real,
    targetQty: real,
    deltaQty: real,
    estimatedNotional: real)

  predicate Permits(r: Ruling) {
    !r.Block?
  }

  function CanBypass(p: Policy, i: Intent): bool {
    p.allowReduceOnlyWhenBlocked && i.reduceOnly && Abs(i.targetQty) <= Abs(i.currentQty)
  }

  function OutcomeFor(i: Intent, bar: Bar, ruling: Ruling): RiskOutcome {
    RiskOutcome(ruling, i.symbol, i.time, i.currentQty, i.targetQty, i.deltaQty, EstimatedNotional(i, bar))
  }

  ghost function Judge(sc: Scene, i: Intent): Result<RiskOutcome, Error> {
    match DetectFrom(sc, i, 0)
    case Passes => Ok(OutcomeFor(i, sc.bar, Allow))
    case Breaches(r) => Ok(OutcomeFor(i, sc.bar, if CanBypass(sc.policy, i) then AllowBypass(r) else Block(r)))
    case Crashes => Raised(TypeError)
  }

  datatype Filtered = Filtered(allowed: seq<Intent>, outcomes: seq<RiskOutcome>)

  ghost function Filter(sc: Scene, intents: seq<Intent>): Result<Filtered, Error> {
    if intents == [] then Ok(Filtered([], [])) else
      var earlier :- Filter(sc, intents[..|intents| - 1]);
      var i := intents[|intents| - 1];
      var outcome :- Judge(sc, i);
      Ok(Filtered(earlier.allowed + (if Permits(outcome.ruling) then [i] else []), earlier.outcomes + [outcome]))
  }

  // ----- The guard chain -----

  /** A move is either reducing or expanding, never both, never neither. */
  lemma ReducesOrExpands(i: Intent)
    requires i.currentQty != i.targetQty
    ensures IsReduceOnly(i.currentQty, i.targetQty) <==> !WouldExpand(i)
    ensures WouldExpand(i) <==> Opposite(i.currentQty, i.targetQty) || Abs(i.targetQty) > Abs(i.currentQty)
  {
    if i.currentQty != 0.0 && i.targetQty != 0.0 && Sign(i.currentQty) == Sign(i.targetQty) {
      assert Abs(i.targetQty) != Abs(i.currentQty);
    }
  }

  predicate Crashing(sc: Scene, r: Rule, i: Intent) {
    NeedsGross(sc, r, i) && Unpriceable(sc, i)
  }

  ghost predicate Clear(sc: Scene, r: Rule, i: Intent) {
    !Crashing(sc, r, i) && !Breached(sc, r, i)
  }

  /** Detection stops at the first rule, in the documented order, that is not clear. */
  lemma {:induction false} DetectionStopsAtFirst(sc: Scene, i: Intent, k: nat, j: nat)
    requires k <= j <= |RULES|
    requires forall m :: k <= m < j ==> Clear(sc, RULES[m], i)
    requires j < |RULES| ==> !Clear(sc, RULES[j], i)
    ensures DetectFrom(sc, i, k) ==
            if j == |RULES| then Passes else if Crashing(sc, RULES[j], i) then Crashes else Breaches(RULES[j])
    decreases j - k
  {
    hide Breached, NeedsGross, Unpriceable;
    if k < j {
      assert Clear(sc, RULES[k], i);
      DetectionStopsAtFirst(sc, i, k + 1, j);
    }
  }

  /** How many rules are consulted before this one. */
  function Priority(r: Rule): nat {
    match r
    case CooldownActive => 0
    case EquityFloor => 1
    case MaxDrawdownPct => 2
    case MaxDailyLossPct => 3
    case SpotCash => 4
    case MaxOrderQty => 5
    case MaxOrderNotional => 6
    case MaxPositionQty => 7
    case MaxGrossExposure => 8
    case MaxLeverage => 9
  }

  lemma EveryRuleListed(r: Rule)
    ensures Priority(r) < |RULES| && RULES[Priority(r)] == r
  {
  }

  lemma PriorityOfListed(j: nat)
    requires j < |RULES|
    ensures Priority(RULES[j]) == j
  {
  }

  lemma FirstNotClear(sc: Scene, i: Intent, k: nat) returns (j: nat)
    requires k <= |RULES|
    ensures k <= j <= |RULES|
    ensures forall m :: k <= m < j ==> Clear(sc, RULES[m], i)
    ensures j < |RULES| ==> !Clear(sc, RULES[j], i)
  {
    hide Clear;
    j := k;
    while j < |RULES| && Clear(sc, RULES[j], i)
      invariant k <= j <= |RULES|
      invariant forall m :: k <= m < j ==> Clear(sc, RULES[m], i)
    {
      j := j + 1;
    }
  }

  /** An intent passes exactly when every rule is clear. */
  lemma PassesIffClear(sc: Scene, i: Intent)
    ensures DetectFrom(sc, i, 0) == Passes <==> forall r :: Clear(sc, r, i)
  {
    hide Clear, Crashing, Breached;
    var j := FirstNotClear(sc, i, 0);
    DetectionStopsAtFirst(sc, i, 0, j);
    if j == |RULES| {
      forall r ensures Clear(sc, r, i) {
        EveryRuleListed(r);
      }
    }
  }

  /** Buying at the limit if one is given, else at the close, with the order type's own slippage and fee on top. */
  function SpotOutlay(c: CostModel, i: Intent, bar: Bar): real {
    var reference := if i.limitPrice.Some? && i.limitPrice.value != 0.0 then i.limitPrice.value else bar.close;
    var slippageBps := if i.orderType.MarketOrder? then c.marketOrderBps else c.limitOrderBps;
    var feeBps := if i.orderType.Limit? then c.makerFeeBps else c.takerFeeBps;
    Abs(i.deltaQty) * (reference * (1.0 + slippageBps / 10000.0)) * (1.0 + feeBps / 10000.0)
  }

  lemma SpotCashIsOutlay(c: CostModel, i: Intent, bar: Bar)
    requires i.side.Buy?
    ensures SpotOutlay(c, i, bar) == if i.deltaQty == 0.0 then 0.0 else SpotCashNeeded(c, i, bar)
  {
    var requested := i.limitPrice.GetOr(0.0);
    var reference := if requested != 0.0 then requested else bar.close;
    var bps := SlippageBps(c, i.orderType);
    var price := SlippedPrice(c, i.orderType, i.side, reference);
    assert price == reference * (1.0 + bps / 10000.0) by { OnTop(reference, bps); }
    OnTop(price * Abs(i.deltaQty), FeeBps(c, if i.orderType.Limit? then Maker else Taker));
  }

  lemma OnTop(x: real, bps: real)
    ensures x * (1.0 + bps / 10000.0) == x + x * bps / 10000.0
  {
  }

  /** What one limit of a policy means for an intent, stated without ratios. */
  ghost predicate Bound(sc: Scene, r: Rule, i: Intent) {
    var p, s := sc.policy, sc.session;
    var equity, gross := Equity(sc.ledger, sc.marks), GrossAfter(sc, i);
    match r
    case CooldownActive => WouldExpand(i) ==> s.cooldown == 0
    case EquityFloor => WouldExpand(i) && p.blockNewEntriesBelowEquity.Some? ==>
      equity > p.blockNewEntriesBelowEquity.value
    case MaxDrawdownPct =>
      && WouldExpand(i) && p.maxDrawdownPct.Some?
      && s.peakEquity.Some? && s.lastEquity.Some? && s.peakEquity.value > 0.0 ==>
        s.lastEquity.value > s.peakEquity.value - p.maxDrawdownPct.value * s.peakEquity.value
    case MaxDailyLossPct =>
      && WouldExpand(i) && p.maxDailyLossPct.Some?
      && s.dailyStartEquity.Some? && s.lastEquity.Some? && s.dailyStartEquity.value > 0.0 ==>
        && p.maxDailyLossPct.value > 0.0
        && s.lastEquity.value > s.dailyStartEquity.value - p.maxDailyLossPct.value * s.dailyStartEquity.value
    case SpotCash =>
      && p.enforceSpotCashCheck
      && |i.symbol| >= 5 && i.symbol[|i.symbol| - 5..] == "_SPOT" && i.side.Buy? && !i.reduceOnly ==>
        sc.ledger.cash >= SpotOutlay(sc.costs, i, sc.bar)
    case MaxOrderQty => p.maxOrderQty.Some? ==> Abs(i.deltaQty) <= p.maxOrderQty.value
    case MaxOrderNotional => p.maxOrderNotional.Some? ==> Abs(i.deltaQty) * sc.bar.close <= p.maxOrderNotional.value
    case MaxPositionQty => p.maxPositionQty.Some? ==> Abs(i.targetQty) <= p.maxPositionQty.value
    case MaxGrossExposure =>
      p.maxGrossExposureMultiple.Some? ==> gross <= p.maxGrossExposureMultiple.value * Max(equity, 0.0)
    case MaxLeverage =>
      WouldExpand(i) && p.maxLeverage.Some? ==> gross <= 0.0 || (equity > 0.0 && gross <= p.maxLeverage.value * equity)
  }

  ghost predicate WithinLimits(sc: Scene, i: Intent) {
    forall r :: Bound(sc, r, i)
  }

  lemma RatioBelow(part: real, whole: real, limit: real)
    requires whole > 0.0
    ensures part / whole < limit <==> part < limit * whole
    ensures part / whole > limit <==> part > limit * whole
  {
    var q := part / whole;
    assert q * whole == part;
    if q < limit { assert (limit - q) * whole > 0.0; }
    if q > limit { assert (q - limit) * whole > 0.0; }
  }

  lemma DailyLossBelow(s: Session, limit: real)
    requires DailyLossPct(s).Some?
    ensures var start := s.dailyStartEquity.value;
            DailyLossPct(s).value < limit <==> limit > 0.0 && start - s.lastEquity.value < limit * start
  {
    var start := s.dailyStartEquity.value;
    var loss := start - s.lastEquity.value;
    if loss > 0.0 {
      RatioBelow(loss, start, limit);
      if limit <= 0.0 { assert limit * start <= 0.0; }
    } else if limit > 0.0 {
      assert limit * start > 0.0;
    }
  }

  lemma DrawdownIsBound(sc: Scene, i: Intent)
    ensures Breached(sc, MaxDrawdownPct, i) <==> !Bound(sc, MaxDrawdownPct, i)
  {
    hide Equity, GrossAfter, WouldExpand;
    var p, s := sc.policy, sc.session;
    if p.maxDrawdownPct.Some? && DrawdownPct(s).Some? {
      RatioBelow(s.peakEquity.value - s.lastEquity.value, s.peakEquity.value, p.maxDrawdownPct.value);
    }
  }

  lemma DailyLossIsBound(sc: Scene, i: Intent)
    ensures Breached(sc, MaxDailyLossPct, i) <==> !Bound(sc, MaxDailyLossPct, i)
  {
    hide Equity, GrossAfter, WouldExpand;
    if sc.policy.maxDailyLossPct.Some? && DailyLossPct(sc.session).Some? {
      DailyLossBelow(sc.session, sc.policy.maxDailyLossPct.value);
    }
  }

  lemma GrossIsBound(sc: Scene, i: Intent)
    ensures Breached(sc, MaxGrossExposure, i) <==> !Bound(sc, MaxGrossExposure, i)
  {
    hide Equity, GrossAfter, Max;
  }

  lemma LeverageIsBound(sc: Scene, i: Intent)
    ensures Breached(sc, MaxLeverage, i) <==> !Bound(sc, MaxLeverage, i)
  {
    hide Equity, GrossAfter, WouldExpand;
    if sc.policy.maxLeverage.Some? && Equity(sc.ledger, sc.marks) > 0.0 {
      RatioBelow(GrossAfter(sc, i), Equity(sc.ledger, sc.marks), sc.policy.maxLeverage.value);
    }
  }

  /** Each rule is its limit. */
  lemma RuleIsBound(sc: Scene, r: Rule, i: Intent)
    ensures Breached(sc, r, i) <==> !Bound(sc, r, i)
  {
    match r
    case MaxDrawdownPct => DrawdownIsBound(sc, i);
    case MaxDailyLossPct => DailyLossIsBound(sc, i);
    case MaxGrossExposure => GrossIsBound(sc, i);
    case MaxLeverage => LeverageIsBound(sc, i);
    case SpotCash => SpotCashIsBound(sc, i);
    case _ => PlainRuleIsBound(sc, r, i);
  }

  lemma PlainRuleIsBound(sc: Scene, r: Rule, i: Intent)
    requires !r.MaxDrawdownPct? && !r.MaxDailyLossPct? && !r.MaxGrossExposure? && !r.MaxLeverage? && !r.SpotCash?
    ensures Breached(sc, r, i) <==> !Bound(sc, r, i)
  {
    hide Equity, GrossAfter, WouldExpand, SpotCashNeeded, RequiresSpotCash, DrawdownPct, DailyLossPct;
  }

  lemma SpotCashIsBound(sc: Scene, i: Intent)
    ensures Breached(sc, SpotCash, i) <==> !Bound(sc, SpotCash, i)
  {
    hide Equity, GrossAfter, WouldExpand, SpotCashNeeded, SpotOutlay;
    if RequiresSpotCash(i) { SpotCashIsOutlay(sc.costs, i, sc.bar); }
  }

  /** The rules, taken together, are the limits. */
  lemma ClearIsWithinLimits(sc: Scene, i: Intent)
    ensures (forall r :: !Breached(sc, r, i)) <==> WithinLimits(sc, i)
  {
    hide Breached, Bound;
    forall r ensures Breached(sc, r, i) <==> !Bound(sc, r, i) {
      RuleIsBound(sc, r, i);
    }
  }

  /** An expanding intent is allowed exactly when it is within every limit (and the gross estimate does not raise). */
  lemma ExpansionAllowedIffWithinLimits(sc: Scene, i: Intent)
    requires i.currentQty != i.targetQty && (i.reduceOnly ==> IsReduceOnly(i.currentQty, i.targetQty))
    requires WouldExpand(i)
    ensures Judge(sc, i).Ok? && Permits(Judge(sc, i).value.ruling) <==>
            WithinLimits(sc, i) && forall r :: !Crashing(sc, r, i)
  {
    hide Breached, Crashing, WithinLimits;
    ReducesOrExpands(i);
    PassesIffClear(sc, i);
    ClearIsWithinLimits(sc, i);
    if forall r :: Clear(sc, r, i) {
      forall r ensures !Crashing(sc, r, i) && !Breached(sc, r, i) {
        assert Clear(sc, r, i);
      }
    }
  }

  /** Judging raises only for want of a price, and only where a limit needs the resulting gross. */
  lemma JudgingRaisesUnpriced(sc: Scene, i: Intent)
    ensures Judge(sc, i).Raised? ==>
              && Judge(sc, i).error == TypeError && Unpriceable(sc, i)
              && (sc.policy.maxGrossExposureMultiple.Some? || sc.policy.maxLeverage.Some?)
  {
    hide Breached, Unpriceable, DetectFrom;
    var j := FirstNotClear(sc, i, 0);
    DetectionStopsAtFirst(sc, i, 0, j);
  }

  lemma FilterOne(sc: Scene, i: Intent)
    requires Judge(sc, i).Ok?
    ensures var outcome := Judge(sc, i).value;
            Filter(sc, [i]) == Ok(Filtered(if Permits(outcome.ruling) then [i] else [], [outcome]))
  {
    hide Judge;
    var none := [i][..0];
    assert none == [] && Filter(sc, none) == Ok(Filtered([], []));
    var outcome := Judge(sc, i).value;
    var allowed: seq<Intent> := if Permits(outcome.ruling) then [i] else [];
    assert Filter(sc, [i]) == Ok(Filtered([] + allowed, [] + [outcome]));
    assert [] + allowed == allowed && [] + [outcome] == [outcome];
  }

  lemma FilterOneRaises(sc: Scene, i: Intent)
    requires Judge(sc, i).Raised?
    ensures Filter(sc, [i]) == Raised(Judge(sc, i).error)
  {
    hide Judge;
    var none := [i][..0];
    assert none == [] && Filter(sc, none) == Ok(Filtered([], []));
  }

  /** The rule raises or is breached, and no rule consulted earlier does or is. */
  ghost predicate IsFirst(sc: Scene, r: Rule, i: Intent) {
    (Crashing(sc, r, i) || !Bound(sc, r, i))
    && forall q :: Priority(q) < Priority(r) ==> Bound(sc, q, i) && !Crashing(sc, q, i)
  }

  /** What comes of an intent hangs on the first rule that is breached or raises. */
  lemma DetectionIsFirst(sc: Scene, i: Intent)
    ensures match DetectFrom(sc, i, 0)
            case Passes => WithinLimits(sc, i) && forall r :: !Crashing(sc, r, i)
            case Breaches(r) => IsFirst(sc, r, i) && !Crashing(sc, r, i)
            case Crashes => exists r :: IsFirst(sc, r, i) && Crashing(sc, r, i)
  {
    hide Bound, Crashing, Breached;
    var j := FirstNotClear(sc, i, 0);
    DetectionStopsAtFirst(sc, i, 0, j);
    forall r ensures Clear(sc, r, i) <==> Bound(sc, r, i) && !Crashing(sc, r, i) {
      RuleIsBound(sc, r, i);
    }
    forall q | Priority(q) < j ensures Clear(sc, q, i) { EveryRuleListed(q); }
    if j < |RULES| {
      PriorityOfListed(j);
      assert IsFirst(sc, RULES[j], i);
    } else {
      forall r ensures Clear(sc, r, i) { EveryRuleListed(r); }
    }
  }

  lemma FirstIsUnique(sc: Scene, i: Intent, q: Rule, r: Rule)
    requires IsFirst(sc, q, i) && IsFirst(sc, r, i)
    ensures q == r
  {
    hide Bound, Crashing;
    EveryRuleListed(q);
    EveryRuleListed(r);
  }

  /**
   * Any intent, expanding or not. Judging raises exactly when the first rule that matters does. Otherwise the ruling is
   * to allow exactly within the limits; it names the first breached rule if not; and the intent is permitted exactly
   * within the limits or, with the bypass on, as a reduce-only intent that leads no further from zero.
   */
  lemma PermittedIff(sc: Scene, i: Intent)
    ensures Judge(sc, i).Raised? <==> exists r :: IsFirst(sc, r, i) && Crashing(sc, r, i)
    ensures Judge(sc, i).Ok? ==>
              var ruling := Judge(sc, i).value.ruling;
              && (ruling.Allow? <==> WithinLimits(sc, i))
              && (ruling.AllowBypass? ==> IsFirst(sc, ruling.bypassed, i))
              && (ruling.Block? ==> IsFirst(sc, ruling.rule, i))
              && (Permits(ruling) <==>
                   || WithinLimits(sc, i)
                   || (sc.policy.allowReduceOnlyWhenBlocked && i.reduceOnly && Abs(i.targetQty) <= Abs(i.currentQty)))
  {
    DetectionIsFirst(sc, i);
    hide Bound, Crashing, DetectFrom;
    if exists r :: IsFirst(sc, r, i) && Crashing(sc, r, i) {
      var r :| IsFirst(sc, r, i) && Crashing(sc, r, i);
      if DetectFrom(sc, i, 0).Breaches? {
        FirstIsUnique(sc, i, r, DetectFrom(sc, i, 0).rule);
      }
    }
  }

  /** The outcome repeats the intent, and estimates its notional at the close. */
  lemma OutcomeDescribesIntent(sc: Scene, i: Intent)
    requires Judge(sc, i).Ok?
    ensures var o := Judge(sc, i).value;
            && o.symbol == i.symbol && o.time == i.time && o.currentQty == i.currentQty && o.targetQty == i.targetQty
            && o.deltaQty == i.deltaQty && o.estimatedNotional == Abs(i.deltaQty) * sc.bar.close
  {
    hide DetectFrom;
  }

  /**
   * The gross exposure that an intent would lead to is the present one with the symbol's position replaced by the
   * target, both at the symbol's mark, or its entry price if it has no mark.
   */
  lemma GrossAfterMovesOneSymbol(sc: Scene, i: Intent)
    ensures var price := if i.symbol in sc.marks then sc.marks[i.symbol]
                         else if i.symbol in sc.ledger.positions then sc.ledger.positions[i.symbol].entry.GetOr(0.0)
                         else 0.0;
            GrossAfter(sc, i) ==
            MarkOf(sc.ledger, sc.marks).gross - Abs(Qty(sc.ledger, i.symbol) * price) + Abs(i.targetQty * price)
  {
    var l, s := sc.ledger, i.symbol;
    var grosses, moved := GrossBySymbol(l, sc.marks), Position(i.targetQty, Held(l, s).entry);
    TotalWrite(grosses, s, Abs(NetOf(moved, s, sc.marks)));
    GrossWrites(l, s, moved, sc.marks);
    hide GrossBySymbol, Total, Equity, Unrealized, NetBySymbol;
    assert s !in l.positions ==> Abs(Qty(l, s) * 0.0) == 0.0;
    assert s in grosses <==> s in l.positions by { GrossKeys(l, sc.marks); }
    if s in l.positions { GrossAt(l, s, sc.marks); }
  }

  lemma GrossKeys(l: Ledger, marks: map<Symbol, real>)
    ensures GrossBySymbol(l, marks).Keys == l.positions.Keys
  {
  }

  lemma GrossAt(l: Ledger, s: Symbol, marks: map<Symbol, real>)
    requires s in l.positions
    ensures s in GrossBySymbol(l, marks) && GrossBySymbol(l, marks)[s] == Abs(NetOf(l.positions[s], s, marks))
  {
  }

  lemma GrossWrites(l: Ledger, s: Symbol, p: Position, marks: map<Symbol, real>)
    ensures GrossBySymbol(l.(positions := l.positions[s := p]), marks) ==
            GrossBySymbol(l, marks)[s := Abs(NetOf(p, s, marks))]
  {
    hide NetOf;
  }

  /** The estimate raises exactly over a position left open that has neither a mark nor an entry price. */
  lemma UnpriceableIff(sc: Scene, i: Intent)
    ensures Unpriceable(sc, i) <==>
            exists s :: s in sc.ledger.positions && s !in sc.marks && sc.ledger.positions[s].entry.None?
                        && (if s == i.symbol then i.targetQty else sc.ledger.positions[s].qty) != 0.0
  {
    var l := sc.ledger;
    forall s | s in l.positions
      ensures Moved(l, i).positions[s] ==
              if s == i.symbol then Position(i.targetQty, l.positions[s].entry) else l.positions[s]
    {
    }
  }

  /** With the bypass on, an intent that only reduces is never blocked. */
  lemma ReductionNeverBlocked(sc: Scene, i: Intent)
    requires sc.policy.allowReduceOnlyWhenBlocked && i.reduceOnly && IsReduceOnly(i.currentQty, i.targetQty)
    ensures Judge(sc, i).Ok? ==> Permits(Judge(sc, i).value.ruling)
  {
    hide DetectFrom;
  }

  /** Whatever the guard lets through, the target is within the position limit or no larger than what is held. */
  lemma AllowedTargetIsBounded(sc: Scene, i: Intent)
    requires Judge(sc, i).Ok? && Permits(Judge(sc, i).value.ruling)
    requires sc.policy.maxPositionQty.Some?
    ensures Abs(i.targetQty) <= sc.policy.maxPositionQty.value || Abs(i.targetQty) <= Abs(i.currentQty)
  {
    hide DetectFrom;
    PassesIffClear(sc, i);
    if Judge(sc, i).value.ruling.Allow? {
      assert Clear(sc, MaxPositionQty, i);
    }
  }

  /** A policy that limits the gross exposure or the leverage, and nothing else. */
  predicate ExposureLimitsOnly(p: Policy) {
    && (p.maxGrossExposureMultiple.Some? || p.maxLeverage.Some?)
    && !p.enforceSpotCashCheck && p.blockNewEntriesBelowEquity.None? && p.maxPositionQty.None? && p.maxOrderQty.None?
    && p.maxOrderNotional.None? && p.maxDrawdownPct.None? && p.maxDailyLossPct.None?
  }

  /** Under such a policy an expanding intent beside an unpriced position makes the guard raise. */
  lemma UnpricedMakesJudgingRaise(sc: Scene, i: Intent)
    requires ExposureLimitsOnly(sc.policy) && sc.session.cooldown == 0 && WouldExpand(i) && Unpriceable(sc, i)
    ensures Judge(sc, i) == Raised(TypeError)
  {
    hide Equity, GrossAfter, Unpriceable, WouldExpand;
    var j := if sc.policy.maxGrossExposureMultiple.Some? then 8 else 9;
    forall m | 0 <= m < j ensures Clear(sc, RULES[m], i) {
      assert RULES[m] in {CooldownActive, EquityFloor, MaxDrawdownPct, MaxDailyLossPct, SpotCash, MaxOrderQty,
          MaxOrderNotional, MaxPositionQty, MaxGrossExposure};
    }
    DetectionStopsAtFirst(sc, i, 0, j);
  }

  /** A held position with neither a mark nor an entry price. */
  predicate Unpriced(l: Ledger, marks: map<Symbol, real>, s: Symbol) {
    s in l.positions && l.positions[s].qty != 0.0 && l.positions[s].entry.None? && s !in marks
  }

  /**
   * An unpriced seed of another symbol makes the gross estimate, and with it the guard, raise, although marking the
   * same ledger passes over it: every total is the one without the position.
   */
  lemma SeededSymbolMakesGrossRaise(sc: Scene, i: Intent, s: Symbol)
    requires ExposureLimitsOnly(sc.policy) && sc.session.cooldown == 0 && WouldExpand(i)
    requires Unpriced(sc.ledger, sc.marks, s) && s != i.symbol
    ensures Judge(sc, i) == Raised(TypeError)
    ensures MarkOf(sc.ledger, sc.marks) == MarkOf(sc.ledger.(positions := sc.ledger.positions - {s}), sc.marks)
  {
    assert Unpriceable(sc, i) by {
      assert Moved(sc.ledger, i).positions[s] == sc.ledger.positions[s];
    }
    UnpricedMakesJudgingRaise(sc, i);
    hide Judge, DetectFrom;
    var l, without := sc.ledger, sc.ledger.(positions := sc.ledger.positions - {s});
    TotalPeel(NetBySymbol(l, sc.marks), s);
    TotalPeel(GrossBySymbol(l, sc.marks), s);
    TotalPeel(GainBySymbol(l, sc.marks), s);
    assert NetBySymbol(l, sc.marks) - {s} == NetBySymbol(without, sc.marks);
    assert GrossBySymbol(l, sc.marks) - {s} == GrossBySymbol(without, sc.marks);
    assert GainBySymbol(l, sc.marks) - {s} == GainBySymbol(without, sc.marks);
  }

  // ----- The class -----

  /** Passing or stopping at one rule of the chain. */
  lemma ConsultRule(sc: Scene, i: Intent, k: nat)
    requires k < |RULES|
    ensures Clear(sc, RULES[k], i) ==> DetectFrom(sc, i, k) == DetectFrom(sc, i, k + 1)
    ensures Crashing(sc, RULES[k], i) ==> DetectFrom(sc, i, k) == Crashes
    ensures !Crashing(sc, RULES[k], i) && Breached(sc, RULES[k], i) ==> DetectFrom(sc, i, k) == Breaches(RULES[k])
  {
  }

  lemma {:induction false} FilterPrefix(sc: Scene, intents: seq<Intent>, k: nat)
    requires k < |intents| && Filter(sc, intents[..k]).Ok?
    ensures Judge(sc, intents[k]).Raised? ==> Filter(sc, intents) == Raised(Judge(sc, intents[k]).error)
    ensures Judge(sc, intents[k]).Ok? ==>
              var earlier, outcome := Filter(sc, intents[..k]).value, Judge(sc, intents[k]).value;
              Filter(sc, intents[..k + 1]) ==
              Ok(Filtered(earlier.allowed + (if Permits(outcome.ruling) then [intents[k]] else []),
                  earlier.outcomes + [outcome]))
    decreases |intents|
  {
    hide Judge;
    assert intents[..k + 1][..k] == intents[..k];
    if k + 1 == |intents| {
      assert intents[..k + 1] == intents;
    } else {
      assert intents[..|intents| - 1][..k] == intents[..k];
      FilterPrefix(sc, intents[..|intents| - 1], k);
    }
  }

  /** The intents whose outcome permits them, in order. */
  function Permitted(intents: seq<Intent>, outcomes: seq<RiskOutcome>): seq<Intent>
    requires |intents| == |outcomes|
  {
    if intents == [] then [] else
      var m := |intents| - 1;
      Permitted(intents[..m], outcomes[..m]) + if Permits(outcomes[m].ruling) then [intents[m]] else []
  }

  /** Outcomes list the ruling on every intent, in order; the allowed intents are exactly those permitted, in order. */
  lemma {:induction false} FilterJudgesEach(sc: Scene, intents: seq<Intent>)
    requires Filter(sc, intents).Ok?
    ensures var r := Filter(sc, intents).value;
            && |r.outcomes| == |intents|
            && (forall k :: 0 <= k < |intents| ==> Judge(sc, intents[k]) == Ok(r.outcomes[k]))
            && r.allowed == Permitted(intents, r.outcomes)
            && (forall i :: i in r.allowed ==> i in intents && Judge(sc, i).Ok? && Permits(Judge(sc, i).value.ruling))
  {
    hide Judge;
    if intents != [] {
      var init, last := intents[..|intents| - 1], intents[|intents| - 1];
      FilterJudgesEach(sc, init);
      var earlier, r := Filter(sc, init).value, Filter(sc, intents).value;
      assert r.outcomes[..|intents| - 1] == earlier.outcomes;
      assert forall i :: i in init ==> i in intents;
      assert last in intents;
    }
  }

  class BacktestRiskGuardrailEngine {
    const policy: Policy
    const costs: CostModel
    const zoneOffset: int
    var session: Session

    constructor (policy: Policy, costs: CostModel, zoneOffset: int)
      ensures this.policy == policy && this.costs == costs && this.zoneOffset == zoneOffset && session == FRESH
    {
      this.policy, this.costs, this.zoneOffset := policy, costs, zoneOffset;
      session := FRESH;
    }

    method ObserveFillApplication(o: FillOutcome)
      modifies this
      ensures session == Observed(old(session), policy, o)
    {
      if policy.cooldownBarsAfterStop.None? {
        return;
      }
      if !o.closeEvent || o.realizedDelta >= 0.0 {
        return;
      }
      var bars := policy.cooldownBarsAfterStop.value;
      session := session.(cooldown := if bars > session.cooldown then bars else session.cooldown);
      session := session.(activations := session.activations + 1);
    }

    method CompleteBar()
      modifies this
      ensures session == BarCompleted(old(session))
    {
      if session.cooldown > 0 {
        session := session.(cooldown := session.cooldown - 1);
      }
    }

    method RefreshSessionState(t: Instant, equity: real)
      modifies this
      ensures session == Refreshed(old(session), zoneOffset, t, equity)
    {
      if t >= session.nextBoundary {
        var day := (t + zoneOffset) / MICROS_PER_DAY;
        if session.tradingDay != Some(day) {
          session := session.(tradingDay := Some(day), dailyStartEquity := Some(equity));
        }
        session := session.(nextBoundary := (day + 1) * MICROS_PER_DAY - zoneOffset);
      }
      if session.peakEquity.None? {
        session := session.(peakEquity := Some(equity));
      } else {
        session := session.(peakEquity := Some(Max(session.peakEquity.value, equity)));
      }
      session := session.(lastEquity := Some(equity));
    }

    ghost function SceneOf(portfolio: PortfolioState, marks: map<Symbol, real>, bar: Bar): Scene
      reads this, portfolio
    {
      Scene(policy, costs, session, portfolio.View(), marks, bar)
    }

    /** Agrees with marking the moved portfolio to market, except that an unpriced seeded position raises. */
    method EstimateResultingGrossExposure(
      i: Intent, portfolio: PortfolioState, marks: map<Symbol, real>, ghost bar: Bar)
      returns (r: Result<real, Error>)
      ensures var sc := SceneOf(portfolio, marks, bar);
              r == if Unpriceable(sc, i) then Raised(TypeError) else Ok(GrossAfter(sc, i))
    {
      hide NetOf, Notional, GainOf;
      ghost var sc := SceneOf(portfolio, marks, bar);
      ghost var after := Moved(sc.ledger, i);
      ghost var grosses := GrossBySymbol(after, marks);
      var gross := 0.0;
      var rest := portfolio.positions.Keys + {i.symbol};
      ghost var symbols := rest;
      assert On(grosses, rest) == grosses;
      while rest != {}
        invariant rest <= symbols == grosses.Keys
        invariant gross + Total(On(grosses, rest)) == Total(grosses)
        invariant forall s :: s in symbols - rest && s in sc.ledger.positions ==>
                    after.positions[s].qty == 0.0 || s in marks || after.positions[s].entry.Some?
      {
        var s :| s in rest;
        PeelRest(grosses, rest, s);
        MarkBySide(after.positions[s], s, marks);
        rest := rest - {s};
        var qty :=
          if s == i.symbol then i.targetQty else (if s in portfolio.positions then portfolio.positions[s].qty else 0.0);
        if qty != 0.0 {
          var price;
          if s in marks {
            price := marks[s];
          } else if s in portfolio.positions {
            if portfolio.positions[s].entry.None? {
              assert s in sc.ledger.positions && after.positions[s].qty != 0.0 && s !in sc.marks
                && after.positions[s].entry.None?;
              return Raised(TypeError);
            }
            price := portfolio.positions[s].entry.value;
          } else {
            price := 0.0;
          }
          gross := gross + Abs(Notional(qty, price));
        }
      }
      assert On(grosses, rest) == map[];
      r := Ok(gross);
    }

    method DetectViolation(
      i: Intent, bar: Bar, portfolio: PortfolioState, mark: Mark, marks: map<Symbol, real>, estimatedNotional: real)
      returns (d: Detection)
      requires mark == MarkOf(portfolio.View(), marks)
      requires estimatedNotional == EstimatedNotional(i, bar)
      ensures d == DetectFrom(SceneOf(portfolio, marks, bar), i, 0)
    {
      hide GrossAfter, Unpriceable, WouldExpand, DrawdownPct, DailyLossPct, SpotCashNeeded, EstimatedNotional,
        Notional, EndsWith;
      ghost var sc := SceneOf(portfolio, marks, bar);
      assert mark.equity == Equity(sc.ledger, marks);
      hide MarkOf, Equity;
      var expands := WouldExpand(i);

      ConsultRule(sc, i, 0);
      if expands && session.cooldown > 0 {
        return Breaches(CooldownActive);
      }

      ConsultRule(sc, i, 1);
      ConsultRule(sc, i, 2);
      ConsultRule(sc, i, 3);
      if expands {
        if policy.blockNewEntriesBelowEquity.Some? && mark.equity <= policy.blockNewEntriesBelowEquity.value {
          return Breaches(EquityFloor);
        }
        var drawdown := DrawdownPct(session);
        if policy.maxDrawdownPct.Some? && drawdown.Some? && drawdown.value >= policy.maxDrawdownPct.value {
          return Breaches(MaxDrawdownPct);
        }
        var loss := DailyLossPct(session);
        if policy.maxDailyLossPct.Some? && loss.Some? && loss.value >= policy.maxDailyLossPct.value {
          return Breaches(MaxDailyLossPct);
        }
      }

      d := DetectSize(i, bar, portfolio, mark, marks, estimatedNotional);
    }

    /** The rules about the cash, size and notional of the order and the position it leads to. */
    method DetectSize(
      i: Intent, bar: Bar, portfolio: PortfolioState, mark: Mark, marks: map<Symbol, real>, estimatedNotional: real)
      returns (d: Detection)
      requires mark.equity == Equity(portfolio.View(), marks)
      requires estimatedNotional == EstimatedNotional(i, bar)
      ensures d == DetectFrom(SceneOf(portfolio, marks, bar), i, 4)
    {
      hide GrossAfter, Unpriceable, WouldExpand, DrawdownPct, DailyLossPct, SpotCashNeeded, EstimatedNotional, Notional,
        EndsWith, Equity;
      ghost var sc := SceneOf(portfolio, marks, bar);
      ConsultRule(sc, i, 4);
      if policy.enforceSpotCashCheck && RequiresSpotCash(i) {
        var required := if Abs(i.deltaQty) == 0.0 then 0.0 else SpotCashNeeded(costs, i, bar);
        if portfolio.cash < required {
          return Breaches(SpotCash);
        }
      }

      ConsultRule(sc, i, 5);
      if policy.maxOrderQty.Some? && Abs(i.deltaQty) > policy.maxOrderQty.value {
        return Breaches(MaxOrderQty);
      }

      ConsultRule(sc, i, 6);
      if policy.maxOrderNotional.Some? && estimatedNotional > policy.maxOrderNotional.value {
        return Breaches(MaxOrderNotional);
      }

      ConsultRule(sc, i, 7);
      if policy.maxPositionQty.Some? && Abs(i.targetQty) > policy.maxPositionQty.value {
        return Breaches(MaxPositionQty);
      }

      d := DetectExposure(i, bar, portfolio, mark, marks);
    }

    /** The last two rules, which need the resulting gross exposure. */
    method DetectExposure(
      i: Intent, bar: Bar, portfolio: PortfolioState, mark: Mark, marks: map<Symbol, real>)
      returns (d: Detection)
      requires mark.equity == Equity(portfolio.View(), marks)
      ensures d == DetectFrom(SceneOf(portfolio, marks, bar), i, 8)
    {
      hide GrossAfter, Unpriceable, WouldExpand, Equity, Notional;
      ghost var sc := SceneOf(portfolio, marks, bar);
      ConsultRule(sc, i, 8);
      if policy.maxGrossExposureMultiple.Some? {
        var allowed := Notional(Max(mark.equity, 0.0), policy.maxGrossExposureMultiple.value);
        var gross := EstimateResultingGrossExposure(i, portfolio, marks, bar);
        if gross.Raised? {
          return Crashes;
        }
        if gross.value > allowed {
          return Breaches(MaxGrossExposure);
        }
      }

      ConsultRule(sc, i, 9);
      if policy.maxLeverage.Some? && WouldExpand(i) {
        var gross := EstimateResultingGrossExposure(i, portfolio, marks, bar);
        if gross.Raised? {
          return Crashes;
        }
        if mark.equity <= 0.0 && gross.value > 0.0 {
          return Breaches(MaxLeverage);
        }
        if mark.equity > 0.0 && gross.value > 0.0 {
          if gross.value / mark.equity > policy.maxLeverage.value {
            return Breaches(MaxLeverage);
          }
        }
      }
      d := Passes;
    }

    method EvaluateIntent(i: Intent, bar: Bar, portfolio: PortfolioState, mark: Mark, marks: map<Symbol, real>)
      returns (r: Result<RiskOutcome, Error>)
      requires mark == MarkOf(portfolio.View(), marks)
      ensures r == Judge(SceneOf(portfolio, marks, bar), i)
    {
      hide DetectFrom, MarkOf, EstimatedNotional;
      var estimatedNotional := EstimatedNotional(i, bar);
      var violation := DetectViolation(i, bar, portfolio, mark, marks, estimatedNotional);
      match violation
      case Crashes =>
        r := Raised(TypeError);
      case Passes =>
        r := Ok(RiskOutcome(Allow, i.symbol, i.time, i.currentQty, i.targetQty, i.deltaQty, estimatedNotional));
      case Breaches(rule) =>
        var ruling := if CanBypass(policy, i) then AllowBypass(rule) else Block(rule);
        r := Ok(RiskOutcome(ruling, i.symbol, i.time, i.currentQty, i.targetQty, i.deltaQty, estimatedNotional));
    }

    /** Refreshes the session at the bar's close, then judges every intent against the same portfolio. */
    method FilterExecutionIntents(intents: seq<Intent>, bar: Bar, portfolio: PortfolioState, marks: map<Symbol, real>)
      returns (r: Result<Filtered, Error>, newMarks: map<Symbol, real>)
      modifies this
      ensures newMarks == marks[bar.symbol := bar.close]
      ensures session == Refreshed(old(session), zoneOffset, bar.time, Equity(portfolio.View(), newMarks))
      ensures r == Filter(SceneOf(portfolio, newMarks, bar), intents)
    {
      hide Equity, Judge;
      newMarks := marks[bar.symbol := bar.close];
      if intents == [] {
        var equity := portfolio.CalculateEquity(newMarks);
        RefreshSessionState(bar.time, equity);
        return Ok(Filtered([], [])), newMarks;
      }
      var mark := portfolio.MarkToMarket(newMarks);
      RefreshSessionState(bar.time, mark.equity);
      ghost var sc := SceneOf(portfolio, newMarks, bar);
      var allowed: seq<Intent>, outcomes: seq<RiskOutcome> := [], [];
      var k := 0;
      while k < |intents|
        invariant 0 <= k <= |intents|
        invariant SceneOf(portfolio, newMarks, bar) == sc
        invariant Filter(sc, intents[..k]) == Ok(Filtered(allowed, outcomes))
      {
        FilterPrefix(sc, intents, k);
        var outcome := EvaluateIntent(intents[k], bar, portfolio, mark, newMarks);
        if outcome.Raised? {
          return Raised(outcome.error), newMarks;
        }
        outcomes := outcomes + [outcome.value];
        if Permits(outcome.value.ruling) {
          allowed := allowed + [intents[k]];
        } else {
          assert allowed + [] == allowed;
        }
        k := k + 1;
      }
      assert intents[..k] == intents;
      r := Ok(Filtered(allowed, outcomes));
    }
  }
}
