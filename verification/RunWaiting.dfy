/** Orders that wait: why following the target takes market orders filed under their own symbol. */
module RunWaiting {
  import opened Wrappers
  import opened Market
  import opened Portfolio
  import opened Fills
  import opened Risk
  import opened RunSpec
  import opened RunLaws
  import opened RunOrders
  import opened RunPrefix

  /** The bar does not move the order: it is about another symbol, or the order's limit is out of the bar's reach. */
  predicate Idle(o: Order, bar: Bar) {
    !IsOpen(o.status) || o.symbol != bar.symbol || ResolveFillBasis(o, bar) == Ok(None)
  }

  lemma {:induction false} IdleOrderRemains(cfg: RunConfig, start: FillPass, queue: seq<Order>, bar: Bar, o: Order)
    requires EntryKnown(start.ledger, bar.symbol) && FillPending(cfg, start, queue, bar).Ok?
    requires o in queue && Idle(o, bar)
    ensures o in FillPending(cfg, start, queue, bar).value.remaining
  {
    hide ResolveFillBasis, FillAt, Booked, Observed, FillOutcomeOf;
    var init, last := queue[..|queue| - 1], queue[|queue| - 1];
    var earlier := FillPending(cfg, start, init, bar).value;
    if o in init {
      IdleOrderRemains(cfg, start, init, bar, o);
    }
    hide FillPending;
    assert o in earlier.remaining || o == last;
  }

  lemma StepKeepsIdle(cfg: RunConfig, strategy: Strategy, st: RunState, bar: Bar, s: Symbol, o: Order)
    requires StepBar(cfg, strategy, st, bar).Ok?
    requires o in Queue(st.pending, s) && (bar.symbol == s ==> Idle(o, bar))
    ensures o in Queue(StepBar(cfg, strategy, st, bar).value.pending, s)
  {
    hide StepBar, FillPending, SceneAt, Idle, Shown, OrdersFor;
    var pass, _, _ := StepParts(cfg, strategy, st, bar);
    if bar.symbol == s {
      IdleOrderRemains(cfg, OpenPass(st, bar), Queue(st.pending, s), bar, o);
    }
  }

  /** An order that no bar of its queue moves is still pending, however long the run goes on. */
  lemma {:induction false} IdleOrderWaits(
    cfg: RunConfig, strategy: Strategy, st0: RunState, bars: seq<Bar>, m: nat, n: nat, s: Symbol, o: Order)
    requires m <= n <= |bars| && Stepped(cfg, strategy, st0, bars, m).Ok? && Stepped(cfg, strategy, st0, bars, n).Ok?
    requires o in Queue(Stepped(cfg, strategy, st0, bars, m).value.pending, s)
    requires forall k :: m <= k < n && bars[k].symbol == s ==> Idle(o, bars[k])
    ensures o in Queue(Stepped(cfg, strategy, st0, bars, n).value.pending, s)
    decreases n
  {
    hide Stepped, Before, StepBar, CloseGroup, Idle;
    if m < n {
      var earlier, st := LastStep(cfg, strategy, st0, bars, n);
      IdleOrderWaits(cfg, strategy, st0, bars, m, n - 1, s, o);
      if st != earlier { CloseKeeps(earlier, bars[n - 2].time); }
      StepKeepsIdle(cfg, strategy, st, bars[n - 1], s, o);
    }
  }

  lemma CreatedIsPending(cfg: RunConfig, strategy: Strategy, st0: RunState, bars: seq<Bar>, m: nat, o: Order)
    requires m < |bars| && Stepped(cfg, strategy, st0, bars, m + 1).Ok?
    requires var steps := Stepped(cfg, strategy, st0, bars, m + 1).value.steps;
             steps != [] && o in steps[|steps| - 1].created
    ensures o in Queue(Stepped(cfg, strategy, st0, bars, m + 1).value.pending, bars[m].symbol)
  {
    var _, st := LastStep(cfg, strategy, st0, bars, m + 1);
    hide Stepped, Before, StepBar, CloseGroup, FillPending, SceneAt, Shown, OrdersFor;
    var _, _, _ := StepParts(cfg, strategy, st, bars[m]);
  }

  /**
   * An order for a symbol other than the bar's it was decided on is filed under that bar's symbol, where no bar can
   * fill it: it is pending at every later point of the run.
   */
  lemma ForeignOrderNeverFills(
    cfg: RunConfig, strategy: Strategy, st0: RunState, bars: seq<Bar>, m: nat, n: nat, o: Order)
    requires m < n <= |bars| && Stepped(cfg, strategy, st0, bars, m + 1).Ok? && Stepped(cfg, strategy, st0, bars, n).Ok?
    requires var steps := Stepped(cfg, strategy, st0, bars, m + 1).value.steps;
             steps != [] && o in steps[|steps| - 1].created
    requires o.symbol != bars[m].symbol
    ensures o in Queue(Stepped(cfg, strategy, st0, bars, n).value.pending, bars[m].symbol)
  {
    hide Stepped;
    CreatedIsPending(cfg, strategy, st0, bars, m, o);
    IdleOrderWaits(cfg, strategy, st0, bars, m + 1, n, bars[m].symbol, o);
  }

  /** A resting bid. */
  predicate IsBid(o: Order, s: Symbol, price: real) {
    o.symbol == s && o.side.Buy? && o.orderType.Limit? && o.requestedPrice == Some(price) && IsOpen(o.status)
  }

  /** A bid below every later low stays pending. */
  lemma UnreachedBidWaits(
    cfg: RunConfig, strategy: Strategy, st0: RunState, bars: seq<Bar>, m: nat, n: nat, o: Order, price: real)
    requires m < n <= |bars| && Stepped(cfg, strategy, st0, bars, m + 1).Ok? && Stepped(cfg, strategy, st0, bars, n).Ok?
    requires var steps := Stepped(cfg, strategy, st0, bars, m + 1).value.steps;
             steps != [] && o in steps[|steps| - 1].created
    requires IsBid(o, bars[m].symbol, price)
    requires forall k :: m < k < n && bars[k].symbol == bars[m].symbol ==> bars[k].low > price
    ensures o in Queue(Stepped(cfg, strategy, st0, bars, n).value.pending, bars[m].symbol)
  {
    hide Stepped;
    CreatedIsPending(cfg, strategy, st0, bars, m, o);
    IdleOrderWaits(cfg, strategy, st0, bars, m + 1, n, bars[m].symbol, o);
  }

  /** Every order that a later bar of the symbol creates joins the waiting bid, as another order. */
  lemma OrdersStackBesideBid(
    cfg: RunConfig, strategy: Strategy, st0: RunState, bars: seq<Bar>, m: nat, n: nat, o: Order, price: real,
    later: Order)
    requires st0.steps == [] && st0.pending == map[] && st0.seen == []
    requires m < n < |bars| && Stepped(cfg, strategy, st0, bars, m + 1).Ok?
             && Stepped(cfg, strategy, st0, bars, n + 1).Ok?
    requires IsBid(o, bars[m].symbol, price) && bars[n].symbol == bars[m].symbol
    requires forall k :: m < k <= n && bars[k].symbol == bars[m].symbol ==> bars[k].low > price
    requires var steps := Stepped(cfg, strategy, st0, bars, n + 1).value.steps;
             |steps| == n + 1 && o in steps[m].created && later in steps[n].created
    ensures var queue := Queue(Stepped(cfg, strategy, st0, bars, n + 1).value.pending, bars[m].symbol);
            o in queue && later in queue && o.id != later.id
  {
    hide Stepped, Before, StepBar, CloseGroup, Numbered, Split, Sourced;
    EarlierLog(cfg, strategy, st0, bars, m + 1, n + 1);
    UnreachedBidWaits(cfg, strategy, st0, bars, m, n + 1, o, price);
    CreatedIsPending(cfg, strategy, st0, bars, n, later);
    RunConserves(cfg, strategy, st0, bars, n + 1);
    var st := Stepped(cfg, strategy, st0, bars, n + 1).value;
    NumberedIds(st, st0.nextOrder, st0.nextFill);
    if o.id == later.id {
      IdsIdentify(st.steps, st0.nextOrder, m, o, n, later);
    }
  }

  /** The log after m bars is how the log after n bars begins. */
  lemma EarlierLog(cfg: RunConfig, strategy: Strategy, st0: RunState, bars: seq<Bar>, m: nat, n: nat)
    requires st0.steps == [] && st0.seen == []
    requires 0 < m < n <= |bars| && Stepped(cfg, strategy, st0, bars, m).Ok? && Stepped(cfg, strategy, st0, bars, n).Ok?
    ensures var steps := Stepped(cfg, strategy, st0, bars, n).value.steps;
            |steps| == n && Stepped(cfg, strategy, st0, bars, m).value.steps == steps[..m]
  {
    hide StepBar, CloseGroup;
    LaterExtends(cfg, strategy, st0, bars, m, n);
    CloseKeeps(Stepped(cfg, strategy, st0, bars, m).value, bars[m - 1].time);
    StepsFollowBars(cfg, strategy, st0, bars, m);
    StepsFollowBars(cfg, strategy, st0, bars, n);
  }

  /** Two bids that each carry the position all the way to a target carry it twice as far when one bar reaches both. */
  lemma StackedBidsOvershoot(
    cfg: RunConfig, st: RunState, bar: Bar, a: Order, first: real, b: Order, second: real, goal: real)
    requires Queue(st.pending, bar.symbol) == [a, b]
    requires IsBid(a, bar.symbol, first) && IsBid(b, bar.symbol, second) && bar.low <= first && bar.low <= second
    requires goal > Qty(st.ledger, bar.symbol) && a.qty == b.qty == goal - Qty(st.ledger, bar.symbol)
    ensures var r := FillPending(cfg, OpenPass(st, bar), [a, b], bar);
            && r.Ok? && r.value.remaining == []
            && Qty(r.value.ledger, bar.symbol) == goal + (goal - Qty(st.ledger, bar.symbol)) > goal
  {
    hide Booked, SlippedPrice, SlippageCost, FeeOf, Observed, FillOutcomeOf;
    var start := OpenPass(st, bar);
    assert [a, b][..1] == [a] && [a][..0] == [];
    assert FillPending(cfg, start, [], bar) == Ok(start);
    BidFills(cfg, start, bar, a, first);
    var once := FillOne(cfg, start, a, bar).value;
    BidFills(cfg, once, bar, b, second);
    hide FillOne;
    assert FillPending(cfg, start, [a], bar) == Ok(once);
  }

  lemma BidFills(cfg: RunConfig, pass: FillPass, bar: Bar, o: Order, price: real)
    requires EntryKnown(pass.ledger, bar.symbol) && IsBid(o, bar.symbol, price) && bar.low <= price
    ensures FillOne(cfg, pass, o, bar).Ok? && FillOne(cfg, pass, o, bar).value.remaining == pass.remaining
    ensures Qty(FillOne(cfg, pass, o, bar).value.ledger, bar.symbol) == Qty(pass.ledger, bar.symbol) + o.qty
  {
    hide Booked, SlippedPrice, SlippageCost, FeeOf, Observed, FillOutcomeOf;
    var f := Process(cfg.costs, o, bar, pass.nextFill).value.value;
    FillSymbol(cfg.costs, o, bar, pass.nextFill);
    FillMovesPosition(pass.ledger, f);
  }

  lemma {:induction false} IdleQueueRemains(cfg: RunConfig, start: FillPass, queue: seq<Order>, bar: Bar)
    requires EntryKnown(start.ledger, bar.symbol) && forall o :: o in queue ==> Idle(o, bar)
    ensures FillPending(cfg, start, queue, bar) == Ok(start.(remaining := start.remaining + queue))
  {
    hide ResolveFillBasis, FillAt, Booked, Observed, FillOutcomeOf;
    if queue == [] {
      assert start.remaining + queue == start.remaining;
    } else {
      var init, last := queue[..|queue| - 1], queue[|queue| - 1];
      assert last in queue && forall o :: o in init ==> o in queue;
      IdleQueueRemains(cfg, start, init, bar);
      assert start.remaining + init + [last] == start.remaining + queue;
    }
  }
}
