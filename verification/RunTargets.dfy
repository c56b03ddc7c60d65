/**
 * With market orders and decisions about the bar's own symbol, a position is always where the guard last let it go,
 * and so stays within the position limit.
 */
module RunTargets {
  import opened Wrappers
  import opened Market
  import opened Portfolio
  import opened Lifecycle
  import opened Fills
  import opened Risk
  import opened RunSpec
  import opened RunLaws

  /** A decision names at most one target, and only the symbol whose bar is being evaluated. */
  predicate OwnTarget(d: Decision, s: Symbol) {
    match d
    case Pass => true
    case TargetPosition(_, items) => |items| <= 1 && (|items| == 1 ==> items[0].symbol == s)
    case Signal(_, item, _) => item.symbol == s
  }

  ghost predicate OwnSymbolStrategy(strategy: Strategy) {
    forall seen: seq<Evaluation> :: |seen| > 0 ==> OwnTarget(strategy(seen), seen[|seen| - 1].bar.symbol)
  }

  function TargetOf(exchange: string, s: Symbol, q: real, seen: seq<Evaluation>): Decision {
    if seen == [] || seen[|seen| - 1].bar.symbol != s then Pass
    else TargetPosition(seen[|seen| - 1].bar.time, [TargetItem(exchange, s, Some(q))])
  }

  /** Asks for q of s on every bar of s. */
  function Chase(exchange: string, s: Symbol, q: real): Strategy {
    seen => TargetOf(exchange, s, q, seen)
  }

  lemma ChaseIsOwnSymbol(exchange: string, s: Symbol, q: real)
    ensures OwnSymbolStrategy(Chase(exchange, s, q))
  {
  }

  /** The target of the last outcome on `s` that the guard permitted. */
  function LastPermitted(outcomes: seq<RiskOutcome>, s: Symbol): Option<real> {
    if outcomes == [] then None
    else
      var last := outcomes[|outcomes| - 1];
      if last.symbol == s && Permits(last.ruling) then Some(last.targetQty)
      else LastPermitted(outcomes[..|outcomes| - 1], s)
  }

  function LastAllowed(steps: seq<StepRecord>, s: Symbol): Option<real> {
    if steps == [] then None
    else
      var own := LastPermitted(steps[|steps| - 1].outcomes, s);
      if own.Some? then own else LastAllowed(steps[..|steps| - 1], s)
  }

  /** Where a symbol is headed: the last allowed target, or its seed if none was ever allowed. */
  function Goal(steps: seq<StepRecord>, seeds: map<Symbol, real>, s: Symbol): real {
    LastAllowed(steps, s).GetOr(if s in seeds then seeds[s] else 0.0)
  }

  lemma GoalAfter(steps: seq<StepRecord>, r: StepRecord, seeds: map<Symbol, real>, s: Symbol)
    ensures Goal(steps + [r], seeds, s) == LastPermitted(r.outcomes, s).GetOr(Goal(steps, seeds, s))
  {
    assert (steps + [r])[..|steps|] == steps;
  }

  predicate PendingReaches(queue: seq<Order>, qty: real, goal: real, s: Symbol) {
    if queue == [] then qty == goal
    else
      && |queue| == 1
      && queue[0].symbol == s && queue[0].orderType.MarketOrder? && IsOpen(queue[0].status)
      && qty + Signed(queue[0].side, queue[0].qty) == goal
  }

  ghost predicate OnTrack(st: RunState, seeds: map<Symbol, real>) {
    forall s :: PendingReaches(Queue(st.pending, s), Qty(st.ledger, s), Goal(st.steps, seeds, s), s)
  }

  predicate WithinBound(qty: real, bound: real) {
    -bound <= qty <= bound
  }

  ghost predicate Bounded(st: RunState, seeds: map<Symbol, real>, bound: real) {
    forall s :: WithinBound(Qty(st.ledger, s), bound) && WithinBound(Goal(st.steps, seeds, s), bound)
  }

  // ----- One step -----

  /** A market order at its own symbol's bar fills completely: the queue empties and the goal is reached. */
  lemma PendingIsFilled(cfg: RunConfig, st: RunState, bar: Bar, goal: real)
    requires PendingReaches(Queue(st.pending, bar.symbol), Qty(st.ledger, bar.symbol), goal, bar.symbol)
    ensures var r := FillPending(cfg, OpenPass(st, bar), Queue(st.pending, bar.symbol), bar);
            r.Ok? && r.value.remaining == [] && Qty(r.value.ledger, bar.symbol) == goal
  {
    hide Booked, SlippedPrice, SlippageCost, FeeOf;
    var queue, start := Queue(st.pending, bar.symbol), OpenPass(st, bar);
    if queue != [] {
      assert queue[..0] == [];
      assert FillPending(cfg, start, queue[..0], bar) == Ok(start);
      var o := queue[0];
      var f := Process(cfg.costs, o, bar, start.nextFill).value.value;
      FillSymbol(cfg.costs, o, bar, start.nextFill);
      FillMovesPosition(start.ledger, f);
    }
  }

  /** At most one intent, about the bar's symbol. */
  lemma OwnTargetPlansOnce(v: Venue, d: Decision, positions: map<Symbol, real>, s: Symbol)
    requires OwnTarget(d, s) && Plan(v, d, positions).Ok?
    ensures |Plan(v, d, positions).value| <= 1
    ensures forall i :: i in Plan(v, d, positions).value ==>
            i.symbol == s && Coherent(i, positions) && i.orderType == v.execution.orderType
  {
    hide PlanItem, Coherent;
    if !d.Pass? {
      var items := Targets(d).value;
      PlannedIntentsAreCoherent(v, d.time, items, positions);
      if items != [] {
        assert items[..0] == [];
        PlanItemOnce(v, d.time, items[0], positions);
      }
    }
  }

  lemma PlanItemOnce(v: Venue, time: Instant, item: TargetItem, positions: map<Symbol, real>)
    ensures PlanItem(v, time, item, positions).Ok? ==> |PlanItem(v, time, item, positions).value| <= 1
  {
  }

  /** With at most one intent, the guard either lets it through or nothing at all. */
  lemma {:induction false} FilterAtMostOne(sc: Scene, intents: seq<Intent>)
    requires |intents| <= 1 && Filter(sc, intents).Ok?
    ensures var r := Filter(sc, intents).value;
            if intents != [] && Judge(sc, intents[0]).Ok? && Permits(Judge(sc, intents[0]).value.ruling)
            then r.allowed == intents && r.outcomes == [Judge(sc, intents[0]).value]
            else r.allowed == [] && |r.outcomes| <= 1 && forall o :: o in r.outcomes ==> !Permits(o.ruling)
  {
    hide Judge;
    if intents != [] {
      hide Filter;
      var i := intents[0];
      assert intents == [i];
      if Judge(sc, i).Ok? { FilterOne(sc, i); } else { FilterOneRaises(sc, i); }
    }
  }

  /** The parts of a step under these hypotheses, once its pending order has filled. */
  lemma OwnStep(cfg: RunConfig, strategy: Strategy, st: RunState, bar: Bar, seeds: map<Symbol, real>)
    returns (pass: FillPass, shown: Evaluation, scene: Scene, intents: seq<Intent>, filtered: Filtered)
    requires cfg.venue.execution.orderType.MarketOrder? && OwnSymbolStrategy(strategy)
    requires StepBar(cfg, strategy, st, bar).Ok?
    requires PendingReaches(Queue(st.pending, bar.symbol), Qty(st.ledger, bar.symbol),
               Goal(st.steps, seeds, bar.symbol), bar.symbol)
    ensures var after, s := StepBar(cfg, strategy, st, bar).value, bar.symbol;
            && after.ledger == pass.ledger && Qty(pass.ledger, s) == Goal(st.steps, seeds, s)
            && Queue(after.pending, s) == OrdersFor(filtered.allowed, bar, st.nextOrder)
            && after.seen == st.seen + [shown] && shown.positions == OpenPositions(pass.ledger)
            && Goal(after.steps, seeds, s) == LastPermitted(filtered.outcomes, s).GetOr(Goal(st.steps, seeds, s))
    ensures scene.policy == cfg.policy && Filter(scene, intents) == Ok(filtered)
    ensures |intents| <= 1
    ensures forall i :: i in intents ==>
            i.symbol == bar.symbol && Coherent(i, shown.positions) && i.orderType.MarketOrder?
  {
    hide StepBar, FillPending, Judge, Filter, Plan, OwnTarget, Coherent, Refreshed, Equity, MarkOf, Goal, LastPermitted;
    PendingIsFilled(cfg, st, bar, Goal(st.steps, seeds, bar.symbol));
    pass, intents, filtered := StepParts(cfg, strategy, st, bar);
    shown, scene := Shown(cfg, st, pass.ledger, bar), SceneAt(cfg, st, pass, bar);
    var after, seen := StepBar(cfg, strategy, st, bar).value, st.seen + [shown];
    assert seen[|seen| - 1] == shown;
    OwnTargetPlansOnce(cfg.venue, strategy(seen), shown.positions, bar.symbol);
    GoalAfter(st.steps, after.steps[|st.steps|], seeds, bar.symbol);
    assert pass.remaining + OrdersFor(filtered.allowed, bar, st.nextOrder) ==
      OrdersFor(filtered.allowed, bar, st.nextOrder);
  }

  /** What the last step did to the goal and the queue of each symbol. */
  lemma StepSetsGoal(cfg: RunConfig, strategy: Strategy, st: RunState, bar: Bar, seeds: map<Symbol, real>)
    requires cfg.venue.execution.orderType.MarketOrder? && OwnSymbolStrategy(strategy)
    requires StepBar(cfg, strategy, st, bar).Ok?
    requires PendingReaches(Queue(st.pending, bar.symbol), Qty(st.ledger, bar.symbol),
               Goal(st.steps, seeds, bar.symbol), bar.symbol)
    ensures var after, s := StepBar(cfg, strategy, st, bar).value, bar.symbol;
            && CurrentQty(after.seen[|st.seen|].positions, s) == Qty(after.ledger, s) == Goal(st.steps, seeds, s)
            && PendingReaches(Queue(after.pending, s), Qty(after.ledger, s), Goal(after.steps, seeds, s), s)
            && (cfg.policy.maxPositionQty.Some? ==>
                  WithinBound(Goal(after.steps, seeds, s), cfg.policy.maxPositionQty.value)
                  || Abs(Goal(after.steps, seeds, s)) <= Abs(Goal(st.steps, seeds, s)))
  {
    hide StepBar, Goal, OwnTarget, OwnSymbolStrategy, Judge, Filter, Coherent;
    var s := bar.symbol;
    var pass, shown, scene, intents, filtered := OwnStep(cfg, strategy, st, bar, seeds);
    FilterAtMostOne(scene, intents);
    if filtered.allowed == [] {
      NothingPermitted(filtered.outcomes, s);
    } else {
      AllowedIntentSetsGoal(scene, intents[0], s);
      IntentParts(intents[0], shown.positions, s);
      if cfg.policy.maxPositionQty.Some? {
        AllowedTargetIsBounded(scene, intents[0]);
      }
    }
  }

  lemma NothingPermitted(outcomes: seq<RiskOutcome>, s: Symbol)
    requires |outcomes| <= 1 && forall o :: o in outcomes ==> !Permits(o.ruling)
    ensures LastPermitted(outcomes, s) == None
  {
  }

  predicate CoherentIntent(i: Intent, positions: map<Symbol, real>, s: Symbol) {
    i.symbol == s && i.currentQty == CurrentQty(positions, s)
      && i.currentQty + Signed(i.side, Abs(i.deltaQty)) == i.targetQty
  }

  lemma IntentParts(i: Intent, positions: map<Symbol, real>, s: Symbol)
    requires Coherent(i, positions) && i.symbol == s
    ensures CoherentIntent(i, positions, s)
  {
  }

  lemma AllowedIntentSetsGoal(sc: Scene, i: Intent, s: Symbol)
    requires Judge(sc, i).Ok? && Permits(Judge(sc, i).value.ruling) && i.symbol == s
    ensures LastPermitted([Judge(sc, i).value], s) == Some(i.targetQty)
  {
    hide DetectFrom;
  }

  /** A step leaves other symbols' positions, queues and goals alone. */
  lemma StepLeavesOthers(
    cfg: RunConfig, strategy: Strategy, st: RunState, bar: Bar, seeds: map<Symbol, real>, s: Symbol)
    requires OwnSymbolStrategy(strategy) && StepBar(cfg, strategy, st, bar).Ok? && s != bar.symbol
    ensures var after := StepBar(cfg, strategy, st, bar).value;
            && Queue(after.pending, s) == Queue(st.pending, s)
            && Qty(after.ledger, s) == Qty(st.ledger, s)
            && Goal(after.steps, seeds, s) == Goal(st.steps, seeds, s)
  {
    hide StepBar, FillPending, Judge, Filter, Plan, SceneAt, OwnTarget, Coherent, Capital, Goal, LastPermitted,
      OrdersFor, MarkOf;
    var pass, intents, filtered := StepParts(cfg, strategy, st, bar);
    var shown := Shown(cfg, st, pass.ledger, bar);
    var after, seen := StepBar(cfg, strategy, st, bar).value, st.seen + [shown];
    FillingIsLocal(cfg, OpenPass(st, bar), Queue(st.pending, bar.symbol), bar);
    assert seen[|seen| - 1] == shown;
    OwnTargetPlansOnce(cfg.venue, strategy(seen), shown.positions, bar.symbol);
    FilterJudgesEach(SceneAt(cfg, st, pass, bar), intents);
    OthersNotPermitted(SceneAt(cfg, st, pass, bar), intents, filtered.outcomes, bar.symbol, s);
    GoalAfter(st.steps, after.steps[|st.steps|], seeds, s);
  }

  lemma OthersNotPermitted(sc: Scene, intents: seq<Intent>, outcomes: seq<RiskOutcome>, own: Symbol, s: Symbol)
    requires |outcomes| == |intents| <= 1 && s != own
    requires forall k :: 0 <= k < |intents| ==> Judge(sc, intents[k]) == Ok(outcomes[k]) && intents[k].symbol == own
    ensures LastPermitted(outcomes, s) == None
  {
    hide DetectFrom;
    if outcomes != [] {
      assert outcomes[0].symbol == own;
      assert outcomes[..0] == [];
    }
  }

  lemma StepStaysOnTrack(cfg: RunConfig, strategy: Strategy, st: RunState, bar: Bar, seeds: map<Symbol, real>)
    requires cfg.venue.execution.orderType.MarketOrder? && OwnSymbolStrategy(strategy)
    requires StepBar(cfg, strategy, st, bar).Ok? && OnTrack(st, seeds)
    ensures OnTrack(StepBar(cfg, strategy, st, bar).value, seeds)
    ensures forall bound :: cfg.policy.maxPositionQty == Some(bound) && Bounded(st, seeds, bound) ==>
              Bounded(StepBar(cfg, strategy, st, bar).value, seeds, bound)
  {
    hide StepBar, OwnTarget, Goal, Qty, PendingReaches;
    var after := StepBar(cfg, strategy, st, bar).value;
    assert PendingReaches(Queue(st.pending, bar.symbol), Qty(st.ledger, bar.symbol),
        Goal(st.steps, seeds, bar.symbol), bar.symbol);
    StepSetsGoal(cfg, strategy, st, bar, seeds);
    forall s
      ensures PendingReaches(Queue(after.pending, s), Qty(after.ledger, s), Goal(after.steps, seeds, s), s)
      ensures s != bar.symbol ==>
              Qty(after.ledger, s) == Qty(st.ledger, s) && Goal(after.steps, seeds, s) == Goal(st.steps, seeds, s)
    {
      if s != bar.symbol {
        StepLeavesOthers(cfg, strategy, st, bar, seeds, s);
        assert PendingReaches(Queue(st.pending, s), Qty(st.ledger, s), Goal(st.steps, seeds, s), s);
      }
    }
    if cfg.policy.maxPositionQty.Some? && Bounded(st, seeds, cfg.policy.maxPositionQty.value) {
      var bound := cfg.policy.maxPositionQty.value;
      assert WithinBound(Goal(st.steps, seeds, bar.symbol), bound);
      forall s ensures WithinBound(Qty(after.ledger, s), bound) && WithinBound(Goal(after.steps, seeds, s), bound) {
        assert WithinBound(Qty(st.ledger, s), bound) && WithinBound(Goal(st.steps, seeds, s), bound);
      }
    }
  }

  // ----- Whole runs -----

  lemma {:induction false} RunStaysOnTrack(
    cfg: RunConfig, strategy: Strategy, st0: RunState, seeds: map<Symbol, real>, bars: seq<Bar>, n: nat)
    requires cfg.venue.execution.orderType.MarketOrder? && OwnSymbolStrategy(strategy)
    requires n <= |bars| && Stepped(cfg, strategy, st0, bars, n).Ok? && OnTrack(st0, seeds)
    ensures OnTrack(Stepped(cfg, strategy, st0, bars, n).value, seeds)
    ensures forall bound :: cfg.policy.maxPositionQty == Some(bound) && Bounded(st0, seeds, bound) ==>
              Bounded(Stepped(cfg, strategy, st0, bars, n).value, seeds, bound)
  {
    hide Stepped, StepBar, Before, CloseGroup, OwnSymbolStrategy, OnTrack, Bounded;
    if n == 0 {
      NoStep(cfg, strategy, st0, bars);
    } else {
      var earlier, st := LastStep(cfg, strategy, st0, bars, n);
      RunStaysOnTrack(cfg, strategy, st0, seeds, bars, n - 1);
      if st != earlier {
        ClosingStaysOnTrack(earlier, bars[n - 2].time, seeds);
      }
      StepStaysOnTrack(cfg, strategy, st, bars[n - 1], seeds);
    }
  }

  lemma ClosingStaysOnTrack(st: RunState, time: Instant, seeds: map<Symbol, real>)
    ensures OnTrack(st, seeds) ==> OnTrack(CloseGroup(st, time), seeds)
    ensures forall bound :: Bounded(st, seeds, bound) ==> Bounded(CloseGroup(st, time), seeds, bound)
  {
    hide CloseGroup;
    CloseKeeps(st, time);
  }

  lemma OpeningIsOnTrack(cash: real, seeds: map<Symbol, real>, session: Session, nextOrder: nat, nextFill: nat)
    ensures OnTrack(Start(cash, seeds, session, nextOrder, nextFill), seeds)
    ensures forall bound :: bound >= 0.0 && (forall s :: s in seeds ==> WithinBound(seeds[s], bound)) ==>
              Bounded(Start(cash, seeds, session, nextOrder, nextFill), seeds, bound)
  {
  }

  /**
   * When the k-th bar of any run is evaluated, its symbol's position is exactly the target the guard last allowed for
   * it (or its seed if none was); and after any number of bars nothing but the order towards that target is pending.
   */
  lemma {:induction false} PositionFollowsTarget(
    cfg: RunConfig, strategy: Strategy, st0: RunState, seeds: map<Symbol, real>, bars: seq<Bar>, n: nat, k: nat)
    requires cfg.venue.execution.orderType.MarketOrder? && OwnSymbolStrategy(strategy)
    requires st0.seen == [] && st0.steps == [] && OnTrack(st0, seeds)
    requires k < n <= |bars| && Stepped(cfg, strategy, st0, bars, n).Ok?
    ensures var st := Stepped(cfg, strategy, st0, bars, n).value;
            && |st.seen| == |st.steps| == n
            && CurrentQty(st.seen[k].positions, bars[k].symbol) == Goal(st.steps[..k], seeds, bars[k].symbol)
            && OnTrack(st, seeds)
  {
    hide Stepped, StepBar, Before, CloseGroup, OwnTarget, Goal, PendingReaches;
    RunStaysOnTrack(cfg, strategy, st0, seeds, bars, n);
    var earlier, st := LastStep(cfg, strategy, st0, bars, n);
    if st != earlier {
      CloseKeeps(earlier, bars[n - 2].time);
    }
    StepsFollowBars(cfg, strategy, st0, bars, n - 1);
    var record, shown := StepAppends(cfg, strategy, st, bars[n - 1]);
    var after := Stepped(cfg, strategy, st0, bars, n).value;
    assert after.steps[..k] == st.steps[..k];
    if k < n - 1 {
      PositionFollowsTarget(cfg, strategy, st0, seeds, bars, n - 1, k);
    } else {
      RunStaysOnTrack(cfg, strategy, st0, seeds, bars, n - 1);
      var s := bars[k].symbol;
      assert PendingReaches(Queue(earlier.pending, s), Qty(earlier.ledger, s), Goal(earlier.steps, seeds, s), s);
      StepSetsGoal(cfg, strategy, st, bars[k], seeds);
      assert st.steps[..k] == st.steps;
    }
  }

  /** From seeds within the limit, no reachable position ever exceeds it, even with the reduce-only bypass on. */
  lemma PositionLimitHolds(
    cfg: RunConfig, strategy: Strategy, cash: real, seeds: map<Symbol, real>, session: Session, bars: seq<Bar>,
    n: nat, s: Symbol)
    requires cfg.venue.execution.orderType.MarketOrder? && OwnSymbolStrategy(strategy)
    requires cfg.policy.maxPositionQty.Some? && cfg.policy.maxPositionQty.value >= 0.0
    requires forall s :: s in seeds ==> WithinBound(seeds[s], cfg.policy.maxPositionQty.value)
    requires n <= |bars| && Stepped(cfg, strategy, Start(cash, seeds, session, 1, 1), bars, n).Ok?
    ensures Abs(Qty(Stepped(cfg, strategy, Start(cash, seeds, session, 1, 1), bars, n).value.ledger,
              s)) <= cfg.policy.maxPositionQty.value
  {
    hide Stepped, OwnTarget, Goal, Qty, Start;
    var bound := cfg.policy.maxPositionQty.value;
    OpeningIsOnTrack(cash, seeds, session, 1, 1);
    RunStaysOnTrack(cfg, strategy, Start(cash, seeds, session, 1, 1), seeds, bars, n);
    var st := Stepped(cfg, strategy, Start(cash, seeds, session, 1, 1), bars, n).value;
    assert Bounded(st, seeds, bound);
    assert WithinBound(Qty(st.ledger, s), bound);
  }
}
