/**
 * Two runs in which orders stack: the guard allows nothing beyond its position limit, and yet the position ends at
 * twice the limit. In one the orders are limit orders, in the other a decision names its symbol twice.
 */
module RunStacking {
  import opened Wrappers
  import opened Market
  import opened Portfolio
  import opened Lifecycle
  import opened Fills
  import opened Risk
  import opened RunSpec
  import opened RunLaws
  import opened RunTargets
  import opened RunWaiting

  /** No guardrail but a limit on the position. */
  function PositionLimitOnly(limit: real): Policy {
    Policy(false, None, Some(limit), None, None, None, None, None, None, None, false)
  }

  /** A position of at most q is the only limit. */
  predicate Capped(cfg: RunConfig, s: Symbol, q: real) {
    s in cfg.venue.universe && cfg.policy == PositionLimitOnly(q) && q > 0.0
  }

  predicate LimitOrders(cfg: RunConfig, s: Symbol, q: real) {
    Capped(cfg, s, q) && cfg.venue.execution.orderType.Limit?
  }

  predicate MarketOrders(cfg: RunConfig, s: Symbol, q: real) {
    Capped(cfg, s, q) && cfg.venue.execution.orderType.MarketOrder?
  }

  function ChaseIntent(cfg: RunConfig, bar: Bar, current: real, q: real): Intent {
    Intent(bar.symbol, bar.time, current, q, q - current, if q > current then Buy else Sell,
        cfg.venue.execution.orderType, None, IsReduceOnly(current, q) && cfg.venue.execution.reduceOnlyOnExit)
  }

  lemma ChaseItem(cfg: RunConfig, bar: Bar, q: real, positions: map<Symbol, real>)
    requires Capped(cfg, bar.symbol, q)
    requires var current := CurrentQty(positions, bar.symbol); current >= 0.0 && current != q
    ensures PlanItem(cfg.venue, bar.time, TargetItem(cfg.venue.exchange, bar.symbol, Some(q)), positions) ==
            Ok([ChaseIntent(cfg, bar, CurrentQty(positions, bar.symbol), q)])
  {
  }

  lemma ChasePlan(cfg: RunConfig, bar: Bar, q: real, positions: map<Symbol, real>)
    requires Capped(cfg, bar.symbol, q)
    requires var current := CurrentQty(positions, bar.symbol); current >= 0.0 && current != q
    ensures Plan(cfg.venue, TargetPosition(bar.time, [TargetItem(cfg.venue.exchange, bar.symbol, Some(q))]),
              positions) ==
            Ok([ChaseIntent(cfg, bar, CurrentQty(positions, bar.symbol), q)])
  {
    ChaseItem(cfg, bar, q, positions);
    hide PlanItem;
    PlanOne(cfg.venue, bar.time, TargetItem(cfg.venue.exchange, bar.symbol, Some(q)), positions);
  }

  lemma ChaseIsJudged(sc: Scene, i: Intent, q: real)
    requires sc.policy == PositionLimitOnly(q) && q > 0.0 && i.targetQty == q
    requires i.currentQty != i.targetQty && (i.reduceOnly ==> IsReduceOnly(i.currentQty, i.targetQty))
    ensures Judge(sc, i).Ok? && Judge(sc, i).value.symbol == i.symbol && Judge(sc, i).value.targetQty == q
    ensures i.currentQty == 0.0 && sc.session.cooldown == 0 ==> Permits(Judge(sc, i).value.ruling)
  {
    JudgingRaisesUnpriced(sc, i);
    if i.currentQty == 0.0 && sc.session.cooldown == 0 {
      forall r ensures Bound(sc, r, i) && !Crashing(sc, r, i) {
        hide Equity, GrossAfter, SpotOutlay, Unpriceable;
      }
      ExpansionAllowedIffWithinLimits(sc, i);
    }
    hide DetectFrom;
  }

  /** The bid that a bar leaves behind. */
  predicate LeavesBid(before: seq<Order>, after: seq<Order>, bar: Bar, q: real) {
    |after| == |before| + 1 && after[..|before|] == before
    && IsBid(after[|before|], bar.symbol, bar.close) && after[|before|].qty == q
  }

  /** Nothing held, nothing filled: the step leaves one more bid at its close. */
  lemma BidStep(cfg: RunConfig, st: RunState, bar: Bar, q: real)
    requires LimitOrders(cfg, bar.symbol, q) && st.session.cooldown == 0
    requires bar.symbol !in st.ledger.positions && forall o :: o in Queue(st.pending, bar.symbol) ==> Idle(o, bar)
    ensures var r := StepBar(cfg, Chase(cfg.venue.exchange, bar.symbol, q), st, bar);
            && r.Ok? && r.value.ledger == st.ledger && r.value.session.cooldown == 0
            && LeavesBid(Queue(st.pending, bar.symbol), Queue(r.value.pending, bar.symbol), bar, q)
            && |r.value.steps| == |st.steps| + 1 && r.value.steps[..|st.steps|] == st.steps
            && LastPermitted(r.value.steps[|st.steps|].outcomes, bar.symbol) == Some(q)
            && |r.value.seen| == |st.seen| + 1
  {
    hide Idle, Judge, Equity, MarkOf, FillPending, Filter, Plan, PlanItems;
    var strategy := Chase(cfg.venue.exchange, bar.symbol, q);
    var queue, start := Queue(st.pending, bar.symbol), OpenPass(st, bar);
    IdleQueueRemains(cfg, start, queue, bar);
    var pass := start.(remaining := start.remaining + queue);
    var shown := Shown(cfg, st, pass.ledger, bar);
    var intent := ChaseIntent(cfg, bar, 0.0, q);
    ChasePlan(cfg, bar, q, shown.positions);
    var scene := SceneAt(cfg, st, pass, bar);
    ChaseIsJudged(scene, intent, q);
    FilterOne(scene, intent);
    assert strategy(st.seen + [shown]) ==
      TargetPosition(bar.time, [TargetItem(cfg.venue.exchange, bar.symbol, Some(q))]);
    var outcome := Judge(scene, intent).value;
    var filtered := Filtered([intent], [outcome]);
    assert StepBar(cfg, strategy, st, bar) ==
           Ok(After(st, bar, pass, shown, SignalCount(strategy(st.seen + [shown]), [intent]), [intent], scene,
               filtered));
    LastOfOne(outcome, bar.symbol);
  }

  lemma LastOfOne(o: RiskOutcome, s: Symbol)
    requires o.symbol == s && Permits(o.ruling)
    ensures LastPermitted([o], s) == Some(o.targetQty)
  {
  }

  /** Two bids reached at once: the step is evaluated at twice the target. */
  lemma OvershootStep(cfg: RunConfig, st: RunState, bar: Bar, a: Order, first: real, b: Order, second: real, q: real)
    requires LimitOrders(cfg, bar.symbol, q) && bar.symbol !in st.ledger.positions
    requires Queue(st.pending, bar.symbol) == [a, b] && a.qty == b.qty == q
    requires IsBid(a, bar.symbol, first) && IsBid(b, bar.symbol, second) && bar.low <= first && bar.low <= second
    ensures var r := StepBar(cfg, Chase(cfg.venue.exchange, bar.symbol, q), st, bar);
            && r.Ok? && Qty(r.value.ledger, bar.symbol) == 2.0 * q
            && |r.value.seen| == |st.seen| + 1
            && CurrentQty(r.value.seen[|st.seen|].positions, bar.symbol) == 2.0 * q
            && |r.value.steps| == |st.steps| + 1 && r.value.steps[..|st.steps|] == st.steps
  {
    hide Judge, Equity, MarkOf, FillPending, Filter, Plan, PlanItems, OrdersFor, IsBid, Booked;
    var strategy := Chase(cfg.venue.exchange, bar.symbol, q);
    StackedBidsOvershoot(cfg, st, bar, a, first, b, second, q);
    var pass := FillPending(cfg, OpenPass(st, bar), [a, b], bar).value;
    var shown := Shown(cfg, st, pass.ledger, bar);
    assert CurrentQty(shown.positions, bar.symbol) == 2.0 * q;
    var intent := ChaseIntent(cfg, bar, 2.0 * q, q);
    ChasePlan(cfg, bar, q, shown.positions);
    var scene := SceneAt(cfg, st, pass, bar);
    ChaseIsJudged(scene, intent, q);
    FilterOne(scene, intent);
    assert strategy(st.seen + [shown]) ==
      TargetPosition(bar.time, [TargetItem(cfg.venue.exchange, bar.symbol, Some(q))]);
    var filtered := Filter(scene, [intent]).value;
    assert StepBar(cfg, strategy, st, bar) ==
           Ok(After(st, bar, pass, shown, SignalCount(strategy(st.seen + [shown]), [intent]), [intent], scene,
               filtered));
  }

  /** A bar whose low stays above the first close, then one that falls to both closes. */
  predicate GapsUpThenFalls(bars: seq<Bar>, s: Symbol) {
    && |bars| == 3 && (forall k :: 0 <= k < 3 ==> bars[k].symbol == s)
    && bars[1].low > bars[0].close && bars[2].low <= bars[0].close && bars[2].low <= bars[1].close
  }

  /**
   * With limit orders the position does not follow the target: from a fresh start the guard allows q and nothing else,
   * q is also the position limit, and when the third bar is evaluated 2q is held.
   */
  lemma {:induction false} LimitOrdersOvershoot(cfg: RunConfig, s: Symbol, q: real, cash: real, bars: seq<Bar>)
    requires LimitOrders(cfg, s, q) && GapsUpThenFalls(bars, s)
    ensures OwnSymbolStrategy(Chase(cfg.venue.exchange, s, q))
    ensures var r := Stepped(cfg, Chase(cfg.venue.exchange, s, q), FreshStart(cash, map[]), bars, 3);
            && r.Ok? && |r.value.seen| == |r.value.steps| == 3
            && Goal(r.value.steps[..2], map[], s) == q == cfg.policy.maxPositionQty.value
            && CurrentQty(r.value.seen[2].positions, s) == Qty(r.value.ledger, s) == 2.0 * q
  {
    assert cfg.policy.maxPositionQty == Some(q);
    hide StepBar, CloseGroup, Stepped, Before, LimitOrders, LastPermitted, IsBid, Chase, FreshStart, Goal;
    ChaseIsOwnSymbol(cfg.venue.exchange, s, q);
    var two, a, b := SecondBid(cfg, s, q, cash, bars);
    var third := RunsOn(cfg, Chase(cfg.venue.exchange, s, q), FreshStart(cash, map[]), bars, 2, two);
    OvershootStep(cfg, third, bars[2], a, bars[0].close, b, bars[1].close, q);
  }

  lemma FirstBid(cfg: RunConfig, s: Symbol, q: real, cash: real, bars: seq<Bar>) returns (st: RunState, a: Order)
    requires LimitOrders(cfg, s, q) && GapsUpThenFalls(bars, s)
    ensures Stepped(cfg, Chase(cfg.venue.exchange, s, q), FreshStart(cash, map[]), bars, 1) == Ok(st)
    ensures s !in st.ledger.positions && st.session.cooldown == 0 && |st.steps| == |st.seen| == 1
    ensures Queue(st.pending, s) == [a] && IsBid(a, s, bars[0].close) && a.qty == q
  {
    var strategy, st0 := Chase(cfg.venue.exchange, s, q), FreshStart(cash, map[]);
    hide StepBar, CloseGroup, Stepped, Before, LimitOrders, LastPermitted, IsBid, Chase;
    NoStep(cfg, strategy, st0, bars);
    var first := RunsOn(cfg, strategy, st0, bars, 0, st0);
    BidStep(cfg, first, bars[0], q);
    st := StepBar(cfg, strategy, first, bars[0]).value;
    a := Queue(st.pending, s)[0];
  }

  lemma SecondBid(cfg: RunConfig, s: Symbol, q: real, cash: real, bars: seq<Bar>)
    returns (st: RunState, a: Order, b: Order)
    requires LimitOrders(cfg, s, q) && GapsUpThenFalls(bars, s)
    ensures Stepped(cfg, Chase(cfg.venue.exchange, s, q), FreshStart(cash, map[]), bars, 2) == Ok(st)
    ensures s !in st.ledger.positions && |st.steps| == |st.seen| == 2 && Goal(st.steps, map[], s) == q
    ensures Queue(st.pending, s) == [a, b] && a.qty == b.qty == q
    ensures IsBid(a, s, bars[0].close) && IsBid(b, s, bars[1].close)
  {
    var strategy, st0 := Chase(cfg.venue.exchange, s, q), FreshStart(cash, map[]);
    hide StepBar, CloseGroup, Stepped, Before, LimitOrders, LastPermitted, IsBid, Chase, FreshStart;
    var one;
    one, a := FirstBid(cfg, s, q, cash, bars);
    var second := RunsOn(cfg, strategy, st0, bars, 1, one);
    UnreachedIsIdle(a, bars[1], bars[0].close);
    BidStep(cfg, second, bars[1], q);
    st := StepBar(cfg, strategy, second, bars[1]).value;
    b := Queue(st.pending, s)[1];
    assert Queue(st.pending, s)[..1] == [a];
  }

  lemma UnreachedIsIdle(o: Order, bar: Bar, price: real)
    requires IsBid(o, bar.symbol, price) && bar.low > price
    ensures Idle(o, bar)
  {
  }

  /** From the state after n bars, the state that the next bar is stepped from. */
  lemma RunsOn(
    cfg: RunConfig, strategy: Strategy, st0: RunState, bars: seq<Bar>, n: nat, st: RunState)
    returns (next: RunState)
    requires n < |bars| && Stepped(cfg, strategy, st0, bars, n) == Ok(st)
    ensures next.ledger == st.ledger && next.pending == st.pending && next.seen == st.seen && next.steps == st.steps
    ensures st.session.cooldown == 0 ==> next.session.cooldown == 0
    ensures Stepped(cfg, strategy, st0, bars, n + 1) == StepBar(cfg, strategy, next, bars[n])
  {
    hide StepBar, CloseGroup;
    next := Before(cfg, strategy, st0, bars, n).value;
    if next != st { CloseKeeps(st, bars[n - 1].time); }
  }

  // ----- One symbol, named twice -----

  /** Asks for q of s on every bar of s, twice in one decision. */
  function Doubled(exchange: string, s: Symbol, q: real): Strategy {
    seen => Twice(TargetOf(exchange, s, q, seen))
  }

  function Twice(d: Decision): Decision {
    if d.TargetPosition? then TargetPosition(d.time, d.items + d.items) else d
  }

  lemma DoubledPlan(cfg: RunConfig, bar: Bar, q: real, positions: map<Symbol, real>)
    requires Capped(cfg, bar.symbol, q)
    requires var current := CurrentQty(positions, bar.symbol); current >= 0.0 && current != q
    ensures var item, intent := TargetItem(cfg.venue.exchange, bar.symbol, Some(q)),
                                ChaseIntent(cfg, bar, CurrentQty(positions, bar.symbol), q);
            Plan(cfg.venue, TargetPosition(bar.time, [item, item]), positions) == Ok([intent, intent])
  {
    ChaseItem(cfg, bar, q, positions);
    ChasePlan(cfg, bar, q, positions);
    hide PlanItem;
    var item := TargetItem(cfg.venue.exchange, bar.symbol, Some(q));
    assert [item, item][..1] == [item];
    var intent := ChaseIntent(cfg, bar, CurrentQty(positions, bar.symbol), q);
    assert [intent] + [intent] == [intent, intent];
  }

  lemma FilterTwice(sc: Scene, i: Intent)
    requires Judge(sc, i).Ok?
    ensures var outcome := Judge(sc, i).value;
            Filter(sc, [i, i]) == Ok(Filtered(if Permits(outcome.ruling) then [i, i] else [], [outcome, outcome]))
  {
    hide Judge;
    FilterOne(sc, i);
    assert [i, i][..1] == [i];
    var outcome := Judge(sc, i).value;
    assert [i] + [i] == [i, i] && [outcome] + [outcome] == [outcome, outcome];
    assert forall none: seq<Intent> :: none == [] ==> none + none == [];
  }

  lemma LastOfTwo(o: RiskOutcome, s: Symbol)
    requires o.symbol == s && Permits(o.ruling)
    ensures LastPermitted([o, o], s) == Some(o.targetQty)
  {
  }

  predicate IsMarketBuy(o: Order, s: Symbol, q: real) {
    o.symbol == s && o.orderType.MarketOrder? && o.side.Buy? && o.qty == q && IsOpen(o.status)
  }

  predicate TwoBuys(queue: seq<Order>, s: Symbol, q: real) {
    |queue| == 2 && IsMarketBuy(queue[0], s, q) && IsMarketBuy(queue[1], s, q)
  }

  lemma CreatesTwoBuys(cfg: RunConfig, bar: Bar, q: real, nextOrder: nat)
    requires MarketOrders(cfg, bar.symbol, q)
    ensures var intent := ChaseIntent(cfg, bar, 0.0, q);
            TwoBuys(OrdersFor([intent, intent], bar, nextOrder), bar.symbol, q)
  {
  }

  /** A flat position and nothing pending: the step leaves two orders, each of which reaches the target. */
  lemma TwoBuysStep(cfg: RunConfig, st: RunState, bar: Bar, q: real)
    requires MarketOrders(cfg, bar.symbol, q) && st.session.cooldown == 0
    requires bar.symbol !in st.ledger.positions && Queue(st.pending, bar.symbol) == []
    ensures var r := StepBar(cfg, Doubled(cfg.venue.exchange, bar.symbol, q), st, bar);
            && r.Ok? && r.value.ledger == st.ledger && TwoBuys(Queue(r.value.pending, bar.symbol), bar.symbol, q)
            && |r.value.steps| == |st.steps| + 1 && r.value.steps[..|st.steps|] == st.steps
            && LastPermitted(r.value.steps[|st.steps|].outcomes, bar.symbol) == Some(q)
            && |r.value.seen| == |st.seen| + 1
  {
    hide Judge, Equity, MarkOf, FillPending, Filter, Plan, PlanItems, OrdersFor, TwoBuys;
    CreatesTwoBuys(cfg, bar, q, st.nextOrder);
    var strategy, pass := Doubled(cfg.venue.exchange, bar.symbol, q), OpenPass(st, bar);
    IdleQueueRemains(cfg, pass, [], bar);
    assert pass.remaining + [] == pass.remaining;
    var shown := Shown(cfg, st, pass.ledger, bar);
    var intent := ChaseIntent(cfg, bar, 0.0, q);
    DoubledPlan(cfg, bar, q, shown.positions);
    var scene := SceneAt(cfg, st, pass, bar);
    ChaseIsJudged(scene, intent, q);
    FilterTwice(scene, intent);
    var item := TargetItem(cfg.venue.exchange, bar.symbol, Some(q));
    assert strategy(st.seen + [shown]) == TargetPosition(bar.time, [item, item]);
    var outcome := Judge(scene, intent).value;
    var filtered := Filtered([intent, intent], [outcome, outcome]);
    assert pass.remaining + OrdersFor([intent, intent], bar, st.nextOrder) ==
           OrdersFor([intent, intent], bar, st.nextOrder);
    LastOfTwo(outcome, bar.symbol);
    assert StepBar(cfg, strategy, st, bar) ==
           Ok(After(st, bar, pass, shown, SignalCount(strategy(st.seen + [shown]), [intent, intent]),
               [intent, intent], scene, filtered));
  }

  lemma MarketBuyFills(cfg: RunConfig, pass: FillPass, bar: Bar, o: Order, q: real)
    requires EntryKnown(pass.ledger, bar.symbol) && IsMarketBuy(o, bar.symbol, q)
    ensures FillOne(cfg, pass, o, bar).Ok?
    ensures Qty(FillOne(cfg, pass, o, bar).value.ledger, bar.symbol) == Qty(pass.ledger, bar.symbol) + q
  {
    hide Booked, SlippedPrice, SlippageCost, FeeOf, Observed, FillOutcomeOf;
    var f := Process(cfg.costs, o, bar, pass.nextFill).value.value;
    FillSymbol(cfg.costs, o, bar, pass.nextFill);
    FillMovesPosition(pass.ledger, f);
  }

  lemma TwoBuysFill(cfg: RunConfig, start: FillPass, queue: seq<Order>, bar: Bar, q: real)
    requires EntryKnown(start.ledger, bar.symbol) && TwoBuys(queue, bar.symbol, q)
    ensures var r := FillPending(cfg, start, queue, bar);
            r.Ok? && Qty(r.value.ledger, bar.symbol) == Qty(start.ledger, bar.symbol) + 2.0 * q
  {
    assert queue[..2] == queue && queue[..2][..1] == queue[..1] && queue[..1][..0] == [];
    assert FillPending(cfg, start, [], bar) == Ok(start);
    MarketBuyFills(cfg, start, bar, queue[0], q);
    var once := FillOne(cfg, start, queue[0], bar).value;
    MarketBuyFills(cfg, once, bar, queue[1], q);
    hide FillOne;
    assert FillPending(cfg, start, queue[..1], bar) == Ok(once);
  }

  /** Both orders fill: the next bar of the symbol is evaluated at twice the target. */
  lemma DoubledStep(cfg: RunConfig, st: RunState, bar: Bar, q: real)
    requires MarketOrders(cfg, bar.symbol, q) && bar.symbol !in st.ledger.positions
    requires TwoBuys(Queue(st.pending, bar.symbol), bar.symbol, q)
    ensures var r := StepBar(cfg, Doubled(cfg.venue.exchange, bar.symbol, q), st, bar);
            && r.Ok? && Qty(r.value.ledger, bar.symbol) == 2.0 * q
            && |r.value.seen| == |st.seen| + 1
            && CurrentQty(r.value.seen[|st.seen|].positions, bar.symbol) == 2.0 * q
            && |r.value.steps| == |st.steps| + 1 && r.value.steps[..|st.steps|] == st.steps
  {
    hide Judge, Equity, MarkOf, FillPending, Filter, Plan, PlanItems, OrdersFor, TwoBuys;
    var strategy := Doubled(cfg.venue.exchange, bar.symbol, q);
    TwoBuysFill(cfg, OpenPass(st, bar), Queue(st.pending, bar.symbol), bar, q);
    var pass := FillPending(cfg, OpenPass(st, bar), Queue(st.pending, bar.symbol), bar).value;
    var shown := Shown(cfg, st, pass.ledger, bar);
    assert CurrentQty(shown.positions, bar.symbol) == 2.0 * q;
    var intent := ChaseIntent(cfg, bar, 2.0 * q, q);
    DoubledPlan(cfg, bar, q, shown.positions);
    var scene := SceneAt(cfg, st, pass, bar);
    ChaseIsJudged(scene, intent, q);
    FilterTwice(scene, intent);
    var item := TargetItem(cfg.venue.exchange, bar.symbol, Some(q));
    assert strategy(st.seen + [shown]) == TargetPosition(bar.time, [item, item]);
    var filtered := Filter(scene, [intent, intent]).value;
    assert StepBar(cfg, strategy, st, bar) ==
           Ok(After(st, bar, pass, shown, SignalCount(strategy(st.seen + [shown]), [intent, intent]),
               [intent, intent], scene, filtered));
  }

  /** Every target is about the symbol of the bar being evaluated. */
  ghost predicate NamesOwnSymbolOnly(strategy: Strategy) {
    forall seen: seq<Evaluation>, item ::
      |seen| > 0 && strategy(seen).TargetPosition? && item in strategy(seen).items ==>
      item.symbol == seen[|seen| - 1].bar.symbol
  }

  /**
   * Market orders alone do not make the position follow: from a fresh start, a decision that asks for q of its own
   * symbol twice is allowed twice, and at the next bar 2q is held where q is the position limit.
   */
  lemma {:induction false} DoubledItemsOvershoot(cfg: RunConfig, s: Symbol, q: real, cash: real, bars: seq<Bar>)
    requires MarketOrders(cfg, s, q) && |bars| == 2 && bars[0].symbol == bars[1].symbol == s
    ensures NamesOwnSymbolOnly(Doubled(cfg.venue.exchange, s, q))
    ensures var r := Stepped(cfg, Doubled(cfg.venue.exchange, s, q), FreshStart(cash, map[]), bars, 2);
            && r.Ok? && |r.value.seen| == |r.value.steps| == 2
            && Goal(r.value.steps[..1], map[], s) == q == cfg.policy.maxPositionQty.value
            && CurrentQty(r.value.seen[1].positions, s) == Qty(r.value.ledger, s) == 2.0 * q
  {
    assert cfg.policy.maxPositionQty == Some(q);
    var strategy, st0 := Doubled(cfg.venue.exchange, s, q), FreshStart(cash, map[]);
    hide StepBar, CloseGroup, Stepped, Before, MarketOrders, LastPermitted, TwoBuys, Doubled;
    NoStep(cfg, strategy, st0, bars);
    var first := RunsOn(cfg, strategy, st0, bars, 0, st0);
    TwoBuysStep(cfg, first, bars[0], q);
    var one := StepBar(cfg, strategy, first, bars[0]).value;
    var second := RunsOn(cfg, strategy, st0, bars, 1, one);
    DoubledStep(cfg, second, bars[1], q);
  }
}
