/** Trading costs over whole runs: cash is the frictionless replay minus fees minus slippage. */
module RunFriction {
  import opened Market
  import opened Sequences
  import opened Portfolio
  import opened Lifecycle
  import opened Fills
  import opened Risk
  import opened RunSpec
  import opened RunLaws
  import opened RunOrders

  // ----- Sums over a log of fills -----

  /** Cash flow of a fill had it traded at its reference price, free of charge. */
  const AtReference: Fill -> real := (f: Fill) => Notional(f.referencePrice, Signed(f.side, f.qty))
  const FeePaid: Fill -> real := (f: Fill) => f.fee
  const SlippagePaid: Fill -> real := (f: Fill) => f.slippageCost
  const Turned: Fill -> real := (f: Fill) => Notional(f.price, f.qty)
  const Outlay: Fill -> real := (f: Fill) => Spent(f)

  // ----- The ledger totals are the sums of the log -----

  ghost predicate Totaled(l: Ledger, base: Ledger, fills: seq<Fill>) {
    && l.cash == base.cash - Sum(fills, Outlay)
    && l.fees == base.fees + Sum(fills, FeePaid)
    && l.slippage == base.slippage + Sum(fills, SlippagePaid)
    && l.turnover == base.turnover + Sum(fills, Turned)
  }

  lemma {:induction false} PassTotals(cfg: RunConfig, start: FillPass, queue: seq<Order>, bar: Bar)
    requires EntryKnown(start.ledger, bar.symbol) && FillPending(cfg, start, queue, bar).Ok? && start.fills == []
    ensures var end := FillPending(cfg, start, queue, bar).value;
            Totaled(end.ledger, start.ledger, end.fills)
  {
    hide Spent, Notional, Process, Traded, Outcome;
    if queue != [] {
      PassTotals(cfg, start, queue[..|queue| - 1], bar);
      var earlier, end :=
        FillPending(cfg, start, queue[..|queue| - 1], bar).value, FillPending(cfg, start, queue, bar).value;
      if end.fills != earlier.fills {
        assert end.fills[..|end.fills| - 1] == earlier.fills;
      }
    }
  }

  lemma TotalsChain(a: Ledger, b: Ledger, c: Ledger, first: seq<Fill>, second: seq<Fill>)
    requires Totaled(b, a, first) && Totaled(c, b, second)
    ensures Totaled(c, a, first + second)
  {
    SumConcat(first, second, Outlay);
    SumConcat(first, second, FeePaid);
    SumConcat(first, second, SlippagePaid);
    SumConcat(first, second, Turned);
  }

  lemma StepTotals(cfg: RunConfig, strategy: Strategy, st: RunState, bar: Bar) returns (r: StepRecord)
    requires StepBar(cfg, strategy, st, bar).Ok?
    ensures var after := StepBar(cfg, strategy, st, bar).value;
            after.steps == st.steps + [r] && Totaled(after.ledger, st.ledger, r.fills)
  {
    hide StepBar, FillPending, Filter, Plan, SceneAt, MarkOf, OrdersFor, Shown, Sum;
    var pass, _, _ := StepParts(cfg, strategy, st, bar);
    PassTotals(cfg, OpenPass(st, bar), Queue(st.pending, bar.symbol), bar);
    r := StepBar(cfg, strategy, st, bar).value.steps[|st.steps|];
  }

  lemma {:induction false} RunTotals(cfg: RunConfig, strategy: Strategy, st0: RunState, bars: seq<Bar>, n: nat)
    requires st0.steps == [] && n <= |bars| && Stepped(cfg, strategy, st0, bars, n).Ok?
    ensures var st := Stepped(cfg, strategy, st0, bars, n).value;
            Totaled(st.ledger, st0.ledger, AllFills(st.steps))
  {
    hide Stepped, StepBar, Before, CloseGroup;
    if n == 0 {
      NoStep(cfg, strategy, st0, bars);
    } else {
      hide Totaled;
      var earlier, st := LastStep(cfg, strategy, st0, bars, n);
      RunTotals(cfg, strategy, st0, bars, n - 1);
      if st != earlier {
        CloseKeeps(earlier, bars[n - 2].time);
      }
      var r := StepTotals(cfg, strategy, st, bars[n - 1]);
      var after := StepBar(cfg, strategy, st, bars[n - 1]).value;
      assert after.steps[..|st.steps|] == st.steps;
      TotalsChain(st0.ledger, st.ledger, after.ledger, AllFills(st.steps), r.fills);
    }
  }

  // ----- Every fill of a run is fair -----

  predicate PricesNonNegative(bars: seq<Bar>) {
    forall k :: 0 <= k < |bars| ==> bars[k].open >= 0.0 && bars[k].close >= 0.0
  }

  predicate FairFill(f: Fill, c: CostModel) {
    && (f.side.Buy? ==> f.price >= f.referencePrice)
    && (f.side.Sell? ==> f.price <= f.referencePrice)
    && Spent(f) == AtReference(f) + f.slippageCost + f.fee
    && f.fee == FeeOf(c, f.price, f.qty, f.liquidity)
  }

  predicate AskedNonNegative(orders: seq<Order>) {
    forall o :: o in orders && o.requestedPrice.Some? ==> o.requestedPrice.value >= 0.0
  }

  predicate FairLog(st: RunState, c: CostModel) {
    && (forall s :: s in st.pending ==> AskedNonNegative(st.pending[s]))
    && (forall f :: f in AllFills(st.steps) ==> FairFill(f, c))
  }

  lemma ProcessIsFair(c: CostModel, o: Order, bar: Bar, fillId: nat)
    requires NonNegativeCosts(c) && bar.open >= 0.0 && (o.requestedPrice.Some? ==> o.requestedPrice.value >= 0.0)
    requires Process(c, o, bar, fillId).Ok? && Process(c, o, bar, fillId).value.Some?
    ensures FairFill(Process(c, o, bar, fillId).value.value, c)
    ensures o.orderType.MarketOrder? ==> Process(c, o, bar, fillId).value.value.liquidity.Taker?
  {
    hide SlippedPrice, SlippageCost, FeeOf, Spent, Notional;
    SlippageIsAdverse(c, o, bar, ResolveFillBasis(o, bar).value.value, fillId);
  }

  lemma {:induction false} PassIsFair(cfg: RunConfig, start: FillPass, queue: seq<Order>, bar: Bar)
    requires EntryKnown(start.ledger, bar.symbol) && FillPending(cfg, start, queue, bar).Ok? && start.fills == []
             && start.remaining == []
    requires NonNegativeCosts(cfg.costs) && bar.open >= 0.0 && AskedNonNegative(queue)
    ensures var end := FillPending(cfg, start, queue, bar).value;
            && AskedNonNegative(end.remaining)
            && forall f :: f in end.fills ==> FairFill(f, cfg.costs)
  {
    hide Process, Booked, FillOutcomeOf, Observed, FairFill;
    if queue != [] {
      var init, o := queue[..|queue| - 1], queue[|queue| - 1];
      assert o in queue && forall x :: x in init ==> x in queue;
      PassIsFair(cfg, start, init, bar);
      var earlier := FillPending(cfg, start, init, bar).value;
      if Process(cfg.costs, o, bar, earlier.nextFill).value.Some? {
        ProcessIsFair(cfg.costs, o, bar, earlier.nextFill);
      }
    }
  }

  lemma AllowedAskNothing(sc: Scene, v: Venue, d: Decision, positions: map<Symbol, real>, bar: Bar, nextOrder: nat)
    requires Plan(v, d, positions).Ok? && Filter(sc, Plan(v, d, positions).value).Ok? && bar.close >= 0.0
    ensures var allowed := Filter(sc, Plan(v, d, positions).value).value.allowed;
            AskedNonNegative(OrdersFor(allowed, bar, nextOrder))
  {
    hide Judge, Coherent, PlanItems, Filter;
    var intents := Plan(v, d, positions).value;
    FilterJudgesEach(sc, intents);
    if !d.Pass? {
      PlannedIntentsAreCoherent(v, d.time, Targets(d).value, positions);
    }
    var allowed := Filter(sc, intents).value.allowed;
    forall k | 0 <= k < |allowed| ensures OrderFor(allowed[k], bar, nextOrder + k).requestedPrice.GetOr(0.0) >= 0.0 {
      assert allowed[k] in intents;
    }
  }

  lemma StepIsFair(cfg: RunConfig, strategy: Strategy, st: RunState, bar: Bar)
    requires StepBar(cfg, strategy, st, bar).Ok? && FairLog(st, cfg.costs)
    requires NonNegativeCosts(cfg.costs) && bar.open >= 0.0 && bar.close >= 0.0
    ensures FairLog(StepBar(cfg, strategy, st, bar).value, cfg.costs)
  {
    hide StepBar, FillPending, Filter, Plan, SceneAt, MarkOf, OrdersFor, Shown, FairFill;
    var pass, _, _ := StepParts(cfg, strategy, st, bar);
    var shown := Shown(cfg, st, pass.ledger, bar);
    PassIsFair(cfg, OpenPass(st, bar), Queue(st.pending, bar.symbol), bar);
    AllowedAskNothing(SceneAt(cfg, st, pass, bar), cfg.venue, strategy(st.seen + [shown]), shown.positions, bar,
        st.nextOrder);
    var after := StepBar(cfg, strategy, st, bar).value;
    assert after.steps[..|st.steps|] == st.steps;
  }

  lemma {:induction false} RunIsFair(cfg: RunConfig, strategy: Strategy, st0: RunState, bars: seq<Bar>, n: nat)
    requires st0.steps == [] && st0.pending == map[]
    requires NonNegativeCosts(cfg.costs) && PricesNonNegative(bars)
    requires n <= |bars| && Stepped(cfg, strategy, st0, bars, n).Ok?
    ensures FairLog(Stepped(cfg, strategy, st0, bars, n).value, cfg.costs)
  {
    hide Stepped, StepBar, Before, CloseGroup, FairFill;
    if n == 0 {
      NoStep(cfg, strategy, st0, bars);
    } else {
      var earlier, st := LastStep(cfg, strategy, st0, bars, n);
      RunIsFair(cfg, strategy, st0, bars, n - 1);
      if st != earlier {
        CloseKeeps(earlier, bars[n - 2].time);
      }
      StepIsFair(cfg, strategy, st, bars[n - 1]);
    }
  }

  lemma {:induction false} FairOutlays(fills: seq<Fill>, c: CostModel)
    requires forall f :: f in fills ==> FairFill(f, c)
    ensures Sum(fills, Outlay) == Sum(fills, AtReference) + Sum(fills, SlippagePaid) + Sum(fills, FeePaid)
  {
    hide Spent, Notional, FeeOf;
    if fills != [] {
      var last := fills[|fills| - 1];
      assert last in fills && forall f :: f in fills[..|fills| - 1] ==> f in fills;
      FairOutlays(fills[..|fills| - 1], c);
    }
  }

  /**
   * For nonnegative prices and basis points, after any number of bars: every buy filled at or above its reference,
   * every sell at or below it, and cash is the starting cash replayed at reference prices, minus fees, minus slippage.
   */
  lemma CashDecomposesIntoFriction(
    cfg: RunConfig, strategy: Strategy, cash: real, seeds: map<Symbol, real>, bars: seq<Bar>, n: nat)
    requires NonNegativeCosts(cfg.costs) && PricesNonNegative(bars)
    requires n <= |bars| && Stepped(cfg, strategy, FreshStart(cash, seeds), bars, n).Ok?
    ensures var st := Stepped(cfg, strategy, FreshStart(cash, seeds), bars, n).value;
            && (forall f :: f in AllFills(st.steps) ==>
                  (f.side.Buy? ==> f.price >= f.referencePrice) && (f.side.Sell? ==> f.price <= f.referencePrice))
            && st.ledger.cash == cash - Sum(AllFills(st.steps), AtReference) - st.ledger.fees - st.ledger.slippage
  {
    hide Stepped, Spent, Notional, Sum, FeeOf;
    RunTotals(cfg, strategy, FreshStart(cash, seeds), bars, n);
    RunIsFair(cfg, strategy, FreshStart(cash, seeds), bars, n);
    FairOutlays(AllFills(Stepped(cfg, strategy, FreshStart(cash, seeds), bars, n).value.steps), cfg.costs);
  }

  // ----- Fees of market orders -----

  predicate AllTaker(st: RunState, c: CostModel) {
    && (forall s, o :: s in st.pending && o in st.pending[s] ==> o.orderType.MarketOrder?)
    && (forall f :: f in AllFills(st.steps) ==> f.fee == FeeOf(c, f.price, f.qty, Taker))
  }

  lemma {:induction false} PassIsTaker(cfg: RunConfig, start: FillPass, queue: seq<Order>, bar: Bar)
    requires EntryKnown(start.ledger, bar.symbol) && FillPending(cfg, start, queue, bar).Ok? && start.fills == []
             && start.remaining == []
    requires forall o :: o in queue ==> o.orderType.MarketOrder?
    ensures var end := FillPending(cfg, start, queue, bar).value;
            && (forall o :: o in end.remaining ==> o.orderType.MarketOrder?)
            && forall f :: f in end.fills ==> f.fee == FeeOf(cfg.costs, f.price, f.qty, Taker)
  {
    hide Booked, FillOutcomeOf, Observed, FeeOf, SlippedPrice, SlippageCost;
    if queue != [] {
      var init, o := queue[..|queue| - 1], queue[|queue| - 1];
      assert o in queue && forall x :: x in init ==> x in queue;
      PassIsTaker(cfg, start, init, bar);
    }
  }

  lemma AllowedAreMarket(sc: Scene, v: Venue, d: Decision, positions: map<Symbol, real>, bar: Bar, nextOrder: nat)
    requires Plan(v, d, positions).Ok? && Filter(sc, Plan(v, d, positions).value).Ok?
             && v.execution.orderType.MarketOrder?
    ensures forall o :: o in OrdersFor(Filter(sc, Plan(v, d, positions).value).value.allowed, bar, nextOrder) ==>
            o.orderType.MarketOrder?
  {
    hide Judge, Coherent, PlanItems, Filter;
    FilterJudgesEach(sc, Plan(v, d, positions).value);
    if !d.Pass? {
      PlannedIntentsAreCoherent(v, d.time, Targets(d).value, positions);
    }
    var allowed := Filter(sc, Plan(v, d, positions).value).value.allowed;
    forall k | 0 <= k < |allowed| ensures OrderFor(allowed[k], bar, nextOrder + k).orderType.MarketOrder? {
      assert allowed[k] in Plan(v, d, positions).value;
    }
  }

  lemma StepIsTaker(cfg: RunConfig, strategy: Strategy, st: RunState, bar: Bar)
    requires StepBar(cfg, strategy, st, bar).Ok? && AllTaker(st, cfg.costs)
             && cfg.venue.execution.orderType.MarketOrder?
    ensures AllTaker(StepBar(cfg, strategy, st, bar).value, cfg.costs)
  {
    hide StepBar, FillPending, Filter, Plan, SceneAt, MarkOf, OrdersFor, Shown, FeeOf;
    var pass, _, _ := StepParts(cfg, strategy, st, bar);
    var shown := Shown(cfg, st, pass.ledger, bar);
    PassIsTaker(cfg, OpenPass(st, bar), Queue(st.pending, bar.symbol), bar);
    AllowedAreMarket(SceneAt(cfg, st, pass, bar), cfg.venue, strategy(st.seen + [shown]), shown.positions, bar,
        st.nextOrder);
    var after := StepBar(cfg, strategy, st, bar).value;
    assert after.steps[..|st.steps|] == st.steps;
  }

  lemma {:induction false} RunIsTaker(cfg: RunConfig, strategy: Strategy, st0: RunState, bars: seq<Bar>, n: nat)
    requires st0.steps == [] && st0.pending == map[] && cfg.venue.execution.orderType.MarketOrder?
    requires n <= |bars| && Stepped(cfg, strategy, st0, bars, n).Ok?
    ensures AllTaker(Stepped(cfg, strategy, st0, bars, n).value, cfg.costs)
  {
    hide Stepped, StepBar, Before, CloseGroup, FeeOf;
    if n == 0 {
      NoStep(cfg, strategy, st0, bars);
    } else {
      var earlier, st := LastStep(cfg, strategy, st0, bars, n);
      RunIsTaker(cfg, strategy, st0, bars, n - 1);
      if st != earlier {
        CloseKeeps(earlier, bars[n - 2].time);
      }
      StepIsTaker(cfg, strategy, st, bars[n - 1]);
    }
  }

  lemma FeeOfNotional(c: CostModel, f: Fill)
    ensures FeeOf(c, f.price, f.qty, Taker) == Turned(f) * c.takerFeeBps / 10000.0
  {
  }

  lemma {:induction false} TakerFees(fills: seq<Fill>, c: CostModel)
    requires forall f :: f in fills ==> f.fee == FeeOf(c, f.price, f.qty, Taker)
    ensures Sum(fills, FeePaid) == Sum(fills, Turned) * c.takerFeeBps / 10000.0
  {
    hide FeeOf, Notional;
    if fills != [] {
      var last := fills[|fills| - 1];
      assert last in fills && forall f :: f in fills[..|fills| - 1] ==> f in fills;
      TakerFees(fills[..|fills| - 1], c);
      FeeOfNotional(c, last);
    }
  }

  /** With market orders only, the fees of a run are the taker rate on its turnover. */
  lemma TakerFeesAreTurnoverRate(
    cfg: RunConfig, strategy: Strategy, cash: real, seeds: map<Symbol, real>, bars: seq<Bar>, n: nat)
    requires cfg.venue.execution.orderType.MarketOrder?
    requires n <= |bars| && Stepped(cfg, strategy, FreshStart(cash, seeds), bars, n).Ok?
    ensures var l := Stepped(cfg, strategy, FreshStart(cash, seeds), bars, n).value.ledger;
            l.fees == l.turnover * cfg.costs.takerFeeBps / 10000.0
  {
    hide Stepped, Notional, Sum, FeeOf;
    RunTotals(cfg, strategy, FreshStart(cash, seeds), bars, n);
    RunIsTaker(cfg, strategy, FreshStart(cash, seeds), bars, n);
    TakerFees(AllFills(Stepped(cfg, strategy, FreshStart(cash, seeds), bars, n).value.steps), cfg.costs);
  }
}
