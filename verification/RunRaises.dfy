/** When a run leaves with a TypeError: only for want of a price that a seeded symbol has not had yet. */
module RunRaises {
  import opened Wrappers
  import opened Market
  import opened Portfolio
  import opened Lifecycle
  import opened Fills
  import opened Risk
  import opened RunSpec
  import opened RunLaws
  import opened RunTargets
  import opened RunAccounting
  import opened RunPrefix

  // ----- The step that raises -----

  lemma {:induction false} FirstRaise(cfg: RunConfig, strategy: Strategy, st0: RunState, bars: seq<Bar>, m: nat)
    returns (n: nat, earlier: RunState, st: RunState)
    requires m <= |bars| && Stepped(cfg, strategy, st0, bars, m).Raised?
    ensures n < m && Stepped(cfg, strategy, st0, bars, n) == Ok(earlier)
    ensures st == (if n > 0 && GroupEnds(bars, n) then CloseGroup(earlier, bars[n - 1].time) else earlier)
    ensures StepBar(cfg, strategy, st, bars[n]) == Raised(Stepped(cfg, strategy, st0, bars, m).error)
    ensures Stepped(cfg, strategy, st0, bars, n + 1) == Raised(Stepped(cfg, strategy, st0, bars, m).error)
  {
    hide StepBar, CloseGroup;
    if Stepped(cfg, strategy, st0, bars, m - 1).Raised? {
      n, earlier, st := FirstRaise(cfg, strategy, st0, bars, m - 1);
    } else {
      n, earlier := m - 1, Stepped(cfg, strategy, st0, bars, m - 1).value;
      st := Before(cfg, strategy, st0, bars, m - 1).value;
    }
  }

  lemma {:induction false} FillingRaises(cfg: RunConfig, start: FillPass, queue: seq<Order>, bar: Bar)
    requires EntryKnown(start.ledger, bar.symbol)
    ensures FillPending(cfg, start, queue, bar).Raised? ==>
              FillPending(cfg, start, queue, bar).error == UnsupportedOrderType
  {
    hide Booked, FillAt, Observed, FillOutcomeOf;
    if queue != [] { FillingRaises(cfg, start, queue[..|queue| - 1], bar); }
  }

  lemma {:induction false} PlanningRaises(v: Venue, time: Instant, items: seq<TargetItem>, positions: map<Symbol, real>)
    ensures PlanItems(v, time, items, positions).Raised? ==> PlanItems(v, time, items, positions).error == PlanningError
  {
    if items != [] { PlanningRaises(v, time, items[..|items| - 1], positions); }
  }

  lemma {:induction false} FilteringRaises(sc: Scene, intents: seq<Intent>) returns (i: Intent)
    requires Filter(sc, intents).Raised?
    ensures i in intents && Judge(sc, i) == Raised(Filter(sc, intents).error)
  {
    hide Judge;
    i := intents[|intents| - 1];
    if Filter(sc, intents[..|intents| - 1]).Raised? {
      i := FilteringRaises(sc, intents[..|intents| - 1]);
    }
  }

  lemma StepRaises(cfg: RunConfig, strategy: Strategy, st: RunState, bar: Bar) returns (pass: FillPass, i: Intent)
    requires StepBar(cfg, strategy, st, bar) == Raised(TypeError)
    ensures FillPending(cfg, OpenPass(st, bar), Queue(st.pending, bar.symbol), bar) == Ok(pass)
    ensures var shown := Shown(cfg, st, pass.ledger, bar);
            var plan := Plan(cfg.venue, strategy(st.seen + [shown]), shown.positions);
            plan.Ok? && i in plan.value && Judge(SceneAt(cfg, st, pass, bar), i) == Raised(TypeError)
  {
    hide FillPending, Filter, SceneAt, Judge, After, PlanItems, Shown;
    var filled := FillPending(cfg, OpenPass(st, bar), Queue(st.pending, bar.symbol), bar);
    FillingRaises(cfg, OpenPass(st, bar), Queue(st.pending, bar.symbol), bar);
    pass := filled.value;
    var shown := Shown(cfg, st, pass.ledger, bar);
    var decision := strategy(st.seen + [shown]);
    if !decision.Pass? && Targets(decision).Ok? {
      PlanningRaises(cfg.venue, decision.time, Targets(decision).value, shown.positions);
    }
    i := FilteringRaises(SceneAt(cfg, st, pass, bar), Plan(cfg.venue, decision, shown.positions).value);
  }

  // ----- What it lacks -----

  /** A seeded symbol that no bar up to and including the n-th has priced. */
  predicate UnpricedSeed(seeds: map<Symbol, real>, bars: seq<Bar>, n: nat, s: Symbol)
    requires n < |bars|
  {
    s in seeds && FirstOpen(bars[..n + 1], s).None?
  }

  lemma UnpricedIsSeed(
    cfg: RunConfig, st: RunState, seeds: map<Symbol, real>, bars: seq<Bar>, n: nat, pass: FillPass, i: Intent)
    returns (s: Symbol)
    requires n < |bars| && SeedsTracked(st, seeds, bars[..n])
    requires FillPending(cfg, OpenPass(st, bars[n]), Queue(st.pending, bars[n].symbol), bars[n]) == Ok(pass)
    requires Unpriceable(SceneAt(cfg, st, pass, bars[n]), i)
    ensures UnpricedSeed(seeds, bars, n, s) && (seeds[s] != 0.0 || s == i.symbol) && s != bars[n].symbol
  {
    var bar, sc := bars[n], SceneAt(cfg, st, pass, bars[n]);
    SceneMarks(cfg, st, pass, bar);
    FillingIsLocal(cfg, OpenPass(st, bar), Queue(st.pending, bar.symbol), bar);
    hide FillPending, SceneAt, FirstOpen;
    s :| s in sc.ledger.positions && Moved(sc.ledger, i).positions[s].qty != 0.0 && s !in sc.marks
         && Moved(sc.ledger, i).positions[s].entry.None?;
    assert SeedTracked(st.ledger, st.marks, seeds, FirstOpen(bars[..n], s), s);
    assert Held(OpenPass(st, bar).ledger, s) == Held(st.ledger, s);
    LaterBar(bars, n, s);
  }

  lemma LaterBar(bars: seq<Bar>, n: nat, s: Symbol)
    requires n < |bars| && bars[n].symbol != s && FirstOpen(bars[..n], s).None?
    ensures FirstOpen(bars[..n + 1], s).None?
  {
    assert bars[..n + 1][..n] == bars[..n];
  }

  lemma OwnIntents(cfg: RunConfig, strategy: Strategy, st: RunState, ledger: Ledger, bar: Bar)
    requires OwnSymbolStrategy(strategy)
    requires Plan(cfg.venue, strategy(st.seen + [Shown(cfg, st, ledger, bar)]),
               Shown(cfg, st, ledger, bar).positions).Ok?
    ensures var shown := Shown(cfg, st, ledger, bar);
            forall i :: i in Plan(cfg.venue, strategy(st.seen + [shown]), shown.positions).value ==>
              i.symbol == bar.symbol
  {
    hide Plan;
    var shown := Shown(cfg, st, ledger, bar);
    var seen := st.seen + [shown];
    assert seen[|seen| - 1].bar == bar;
    OwnTargetPlansOnce(cfg.venue, strategy(seen), shown.positions, bar.symbol);
  }

  /**
   * A run raises a TypeError only at a bar up to which some seeded symbol has never had one, and only if the gross
   * exposure or the leverage is limited. If decisions are about the bar's own symbol, that seed is not zero.
   */
  lemma TypeErrorNeedsUnpricedSeed(
    cfg: RunConfig, strategy: Strategy, cash: real, seeds: map<Symbol, real>, session: Session, orderId: nat,
    fillId: nat, bars: seq<Bar>)
    returns (n: nat, s: Symbol)
    requires Run(cfg, strategy, Start(cash, seeds, session, orderId, fillId), bars) == Raised(TypeError)
    ensures n < |bars| && UnpricedSeed(seeds, bars, n, s)
    ensures var st0 := Start(cash, seeds, session, orderId, fillId);
            Stepped(cfg, strategy, st0, bars, n).Ok? && Stepped(cfg, strategy, st0, bars, n + 1) == Raised(TypeError)
    ensures cfg.policy.maxGrossExposureMultiple.Some? || cfg.policy.maxLeverage.Some?
    ensures OwnSymbolStrategy(strategy) ==> seeds[s] != 0.0
  {
    hide Stepped, StepBar, CloseGroup, FillPending, UnpricedSeed, Unpriceable, Judge, Plan, SeedsTracked, Capital,
      OwnSymbolStrategy, SceneAt;
    var st0 := Start(cash, seeds, session, orderId, fillId);
    var earlier, st;
    n, earlier, st := FirstRaise(cfg, strategy, st0, bars, |bars|);
    RunKeepsAccounts(cfg, strategy, st0, cash, seeds, bars, n);
    if st != earlier {
      ClosingKeepsAccounts(earlier, bars[n - 1].time, cash, seeds, bars[..n]);
    }
    var pass, i := StepRaises(cfg, strategy, st, bars[n]);
    JudgingRaisesUnpriced(SceneAt(cfg, st, pass, bars[n]), i);
    ScenePolicy(cfg, st, pass, bars[n]);
    s := UnpricedIsSeed(cfg, st, seeds, bars, n, pass, i);
    if OwnSymbolStrategy(strategy) {
      OwnIntents(cfg, strategy, st, pass.ledger, bars[n]);
    }
  }

  lemma ScenePolicy(cfg: RunConfig, st: RunState, pass: FillPass, bar: Bar)
    ensures SceneAt(cfg, st, pass, bar).policy == cfg.policy
  {
  }

  /** Without seeds no run raises a TypeError, whatever the limits. */
  lemma NoSeedsNoTypeError(
    cfg: RunConfig, strategy: Strategy, cash: real, session: Session, orderId: nat, fillId: nat, bars: seq<Bar>)
    ensures Run(cfg, strategy, Start(cash, map[], session, orderId, fillId), bars) != Raised(TypeError)
  {
    hide Run;
    if Run(cfg, strategy, Start(cash, map[], session, orderId, fillId), bars) == Raised(TypeError) {
      var _, _ := TypeErrorNeedsUnpricedSeed(cfg, strategy, cash, map[], session, orderId, fillId, bars);
    }
  }

  // ----- When a run can raise -----

  /** One more of what is held, on its own side. */
  function Further(qty: real): real {
    if qty < 0.0 then qty - 1.0 else qty + 1.0
  }

  /** A nonzero seed that the first bar does not price. */
  predicate SeedElsewhere(seeds: map<Symbol, real>, bars: seq<Bar>, s: Symbol)
    requires bars != []
  {
    s in seeds && seeds[s] != 0.0 && s != bars[0].symbol
  }

  /** Asking for more of the first bar's symbol raises at once, if a nonzero seed of another symbol is held. */
  lemma FirstBarRaises(cfg: RunConfig, cash: real, seeds: map<Symbol, real>, bar: Bar, s: Symbol)
    requires ExposureLimitsOnly(cfg.policy) && bar.symbol in cfg.venue.universe && SeedElsewhere(seeds, [bar], s)
    ensures var qty := if bar.symbol in seeds then seeds[bar.symbol] else 0.0;
            StepBar(cfg, Chase(cfg.venue.exchange, bar.symbol, Further(qty)), FreshStart(cash, seeds), bar) ==
            Raised(TypeError)
  {
    hide Judge, Equity, FillPending, Filter, Plan, PlanItems;
    var st := FreshStart(cash, seeds);
    var qty := if bar.symbol in seeds then seeds[bar.symbol] else 0.0;
    var strategy := Chase(cfg.venue.exchange, bar.symbol, Further(qty));
    var pass := OpenPass(st, bar);
    NothingPends(cfg, pass, bar);
    var shown := Shown(cfg, st, pass.ledger, bar);
    var item := TargetItem(cfg.venue.exchange, bar.symbol, Some(Further(qty)));
    assert strategy(st.seen + [shown]) == TargetPosition(bar.time, [item]);
    assert CurrentQty(shown.positions, bar.symbol) == qty;
    var i := PlanItem(cfg.venue, bar.time, item, shown.positions).value[0];
    assert PlanItem(cfg.venue, bar.time, item, shown.positions) == Ok([i]);
    PlanOne(cfg.venue, bar.time, item, shown.positions);
    var scene := SceneAt(cfg, st, pass, bar);
    assert Unpriced(scene.ledger, scene.marks, s);
    SeededSymbolMakesGrossRaise(scene, i, s);
    FilterOneRaises(scene, i);
  }

  lemma NothingPends(cfg: RunConfig, pass: FillPass, bar: Bar)
    requires EntryKnown(pass.ledger, bar.symbol)
    ensures FillPending(cfg, pass, [], bar) == Ok(pass)
  {
  }

  lemma ForeignFirstBar(cfg: RunConfig, strategy: Strategy, cash: real, seeds: map<Symbol, real>, bar: Bar)
    requires bar.symbol !in cfg.venue.universe
    ensures StepBar(cfg, strategy, FreshStart(cash, seeds), bar) == Raised(OutsideUniverse)
  {
    hide FillPending, Filter, Plan;
    NothingPends(cfg, OpenPass(FreshStart(cash, seeds), bar), bar);
  }

  lemma FirstRaiseEnds(cfg: RunConfig, strategy: Strategy, st0: RunState, bars: seq<Bar>, e: Error)
    requires bars != [] && StepBar(cfg, strategy, st0, bars[0]) == Raised(e)
    ensures Run(cfg, strategy, st0, bars) == Raised(e)
  {
    hide StepBar, CloseGroup;
    NoStep(cfg, strategy, st0, bars);
    assert Before(cfg, strategy, st0, bars, 0) == Ok(st0);
    assert Stepped(cfg, strategy, st0, bars, 1) == Raised(e);
    RaisedStays(cfg, strategy, st0, bars, 1, |bars|);
  }

  /** What a run that raises says about its first bar. */
  lemma RaisingNeedsSeedElsewhere(
    cfg: RunConfig, strategy: Strategy, cash: real, seeds: map<Symbol, real>, bars: seq<Bar>)
    returns (s: Symbol)
    requires OwnSymbolStrategy(strategy) && Run(cfg, strategy, FreshStart(cash, seeds), bars) == Raised(TypeError)
    ensures bars != [] && bars[0].symbol in cfg.venue.universe && SeedElsewhere(seeds, bars, s)
  {
    hide Run, StepBar, OwnSymbolStrategy;
    var n;
    n, s := TypeErrorNeedsUnpricedSeed(cfg, strategy, cash, seeds, FRESH, 1, 1, bars);
    FirstIsPriced(bars, n);
    if bars[0].symbol !in cfg.venue.universe {
      ForeignFirstBar(cfg, strategy, cash, seeds, bars[0]);
      FirstRaiseEnds(cfg, strategy, FreshStart(cash, seeds), bars, OutsideUniverse);
    }
  }

  lemma {:induction false} FirstIsPriced(bars: seq<Bar>, n: nat)
    requires n < |bars|
    ensures FirstOpen(bars[..n + 1], bars[0].symbol).Some?
  {
    assert bars[..n + 1][..n] == bars[..n];
    if n > 0 { FirstIsPriced(bars, n - 1); }
  }

  /**
   * With exposure or leverage limits only: some strategy that keeps to the bar's own symbol makes a run raise exactly
   * when the first bar's symbol is in the universe and some nonzero seed is of another symbol.
   */
  lemma SomeRunRaisesIff(cfg: RunConfig, cash: real, seeds: map<Symbol, real>, bars: seq<Bar>)
    requires ExposureLimitsOnly(cfg.policy)
    ensures (exists strategy: Strategy ::
               OwnSymbolStrategy(strategy) && Run(cfg, strategy, FreshStart(cash, seeds), bars) == Raised(TypeError))
            <==> bars != [] && bars[0].symbol in cfg.venue.universe && exists s :: SeedElsewhere(seeds, bars, s)
  {
    hide Run, StepBar, OwnSymbolStrategy, Chase, ExposureLimitsOnly;
    if exists strategy: Strategy ::
         OwnSymbolStrategy(strategy) && Run(cfg, strategy, FreshStart(cash, seeds), bars) == Raised(TypeError) {
      var strategy: Strategy :|
        OwnSymbolStrategy(strategy) && Run(cfg, strategy, FreshStart(cash, seeds), bars) == Raised(TypeError);
      var _ := RaisingNeedsSeedElsewhere(cfg, strategy, cash, seeds, bars);
    }
    if bars != [] && bars[0].symbol in cfg.venue.universe && exists s :: SeedElsewhere(seeds, bars, s) {
      var s :| SeedElsewhere(seeds, bars, s);
      var qty := if bars[0].symbol in seeds then seeds[bars[0].symbol] else 0.0;
      var strategy := Chase(cfg.venue.exchange, bars[0].symbol, Further(qty));
      ChaseIsOwnSymbol(cfg.venue.exchange, bars[0].symbol, Further(qty));
      FirstBarRaises(cfg, cash, seeds, bars[0], s);
      FirstRaiseEnds(cfg, strategy, FreshStart(cash, seeds), bars, TypeError);
    }
  }
}
