/** Money is conserved over every run: equity is the capital put in, plus profit, minus fees. */
module RunAccounting {
  import opened Wrappers
  import opened Market
  import opened Totals
  import opened Portfolio
  import opened RunSpec
  import opened RunLaws

  /** The open of the first bar of a symbol. */
  function FirstOpen(past: seq<Bar>, s: Symbol): Option<real> {
    if past == [] then None
    else if FirstOpen(past[..|past| - 1], s).Some? then FirstOpen(past[..|past| - 1], s)
    else if past[|past| - 1].symbol == s then Some(past[|past| - 1].open)
    else None
  }

  function SeedCosts(seeds: map<Symbol, real>, past: seq<Bar>): map<Symbol, real> {
    map s | s in seeds :: CostOf(Position(seeds[s], FirstOpen(past, s)))
  }

  /** Seeded quantities, valued at the first open price their symbol traded at. */
  ghost function SeededBasis(seeds: map<Symbol, real>, past: seq<Bar>): real {
    Total(SeedCosts(seeds, past))
  }

  /** A symbol without bars still holds its seed at an unknown price; a symbol with bars holds a known price. */
  predicate SeedTracked(l: Ledger, marks: map<Symbol, real>, seeds: map<Symbol, real>, first: Option<real>, s: Symbol) {
    if first.None? then
      && (s in l.positions <==> s in seeds)
      && (s in seeds ==> l.positions[s] == Position(seeds[s], None))
      && s !in marks
    else
      EntrySet(l, s)
  }

  ghost predicate SeedsTracked(st: RunState, seeds: map<Symbol, real>, past: seq<Bar>) {
    forall s :: SeedTracked(st.ledger, st.marks, seeds, FirstOpen(past, s), s)
  }

  ghost predicate Accounted(st: RunState, cash: real, seeds: map<Symbol, real>, past: seq<Bar>) {
    SeedsTracked(st, seeds, past) && Capital(st.ledger) == cash + SeededBasis(seeds, past)
  }

  lemma UnknownCostsNothing(p: Position)
    requires p.entry.None?
    ensures CostOf(p) == 0.0
  {
  }

  lemma SeedingAddsItsCost(l: Ledger, s: Symbol, open: real)
    ensures Capital(SeedEntry(l, s, open)) ==
            Capital(l) +
              if s in l.positions && l.positions[s].entry.None?
              then CostOf(Position(l.positions[s].qty, Some(open))) else 0.0
  {
    hide CostOf;
    if s in l.positions && l.positions[s].entry.None? {
      UnknownCostsNothing(l.positions[s]);
      RebookingShiftsBasis(l, SeedEntry(l, s, open), s, Some(Position(l.positions[s].qty, Some(open))));
    }
  }

  lemma FirstOpenAfter(past: seq<Bar>, bar: Bar, s: Symbol)
    ensures FirstOpen(past + [bar], s) ==
            if FirstOpen(past, s).Some? then FirstOpen(past, s) else if s == bar.symbol then Some(bar.open) else None
  {
    assert (past + [bar])[..|past|] == past;
  }

  lemma NewSymbolAddsSeed(seeds: map<Symbol, real>, past: seq<Bar>, bar: Bar)
    ensures SeededBasis(seeds, past + [bar]) ==
            SeededBasis(seeds, past) +
            if bar.symbol in seeds && FirstOpen(past, bar.symbol).None?
            then CostOf(Position(seeds[bar.symbol], Some(bar.open))) else 0.0
  {
    hide CostOf, FirstOpen;
    var before, after := SeedCosts(seeds, past), SeedCosts(seeds, past + [bar]);
    forall s | s in seeds
      ensures after[s] == CostOf(Position(seeds[s], FirstOpen(past + [bar], s)))
      ensures s != bar.symbol || FirstOpen(past, s).Some? ==> after[s] == before[s]
    {
      FirstOpenAfter(past, bar, s);
    }
    if bar.symbol in seeds && FirstOpen(past, bar.symbol).None? {
      FirstOpenAfter(past, bar, bar.symbol);
      UnknownCostsNothing(Position(seeds[bar.symbol], None));
      TotalWrite(before, bar.symbol, CostOf(Position(seeds[bar.symbol], Some(bar.open))));
      assert after == before[bar.symbol := CostOf(Position(seeds[bar.symbol], Some(bar.open)))];
    } else {
      assert after == before;
    }
  }

  lemma StepKeepsCapital(cfg: RunConfig, strategy: Strategy, st: RunState, bar: Bar)
    requires StepBar(cfg, strategy, st, bar).Ok?
    ensures var l := st.ledger;
            Capital(StepBar(cfg, strategy, st, bar).value.ledger) ==
            Capital(l) + if bar.symbol in l.positions && l.positions[bar.symbol].entry.None?
                         then CostOf(Position(l.positions[bar.symbol].qty, Some(bar.open))) else 0.0
  {
    hide Capital, FillPending, CostOf, StepBar, SceneAt, Shown;
    var pass, _, _ := StepParts(cfg, strategy, st, bar);
    SeedingAddsItsCost(st.ledger, bar.symbol, bar.open);
    FillingIsLocal(cfg, OpenPass(st, bar), Queue(st.pending, bar.symbol), bar);
  }

  lemma StepTracksSeeds(
    cfg: RunConfig, strategy: Strategy, st: RunState, bar: Bar, seeds: map<Symbol, real>, past: seq<Bar>)
    requires StepBar(cfg, strategy, st, bar).Ok? && SeedsTracked(st, seeds, past)
    ensures SeedsTracked(StepBar(cfg, strategy, st, bar).value, seeds, past + [bar])
  {
    hide Capital, FillPending, FirstOpen, StepBar, SceneAt, Shown;
    var pass, _, _ := StepParts(cfg, strategy, st, bar);
    FillingIsLocal(cfg, OpenPass(st, bar), Queue(st.pending, bar.symbol), bar);
    SceneMarks(cfg, st, pass, bar);
    var after := StepBar(cfg, strategy, st, bar).value;
    assert after.ledger == pass.ledger && after.marks == st.marks[bar.symbol := bar.close];
    assert EntrySet(pass.ledger, bar.symbol);
    forall s ensures SeedTracked(after.ledger, after.marks, seeds, FirstOpen(past + [bar], s), s) {
      FirstOpenAfter(past, bar, s);
      assert SeedTracked(st.ledger, st.marks, seeds, FirstOpen(past, s), s);
      assert s != bar.symbol ==> Held(pass.ledger, s) == Held(st.ledger, s);
    }
  }

  lemma StepKeepsAccounts(
    cfg: RunConfig, strategy: Strategy, st: RunState, bar: Bar, cash: real, seeds: map<Symbol, real>, past: seq<Bar>)
    requires StepBar(cfg, strategy, st, bar).Ok? && Accounted(st, cash, seeds, past)
    ensures Accounted(StepBar(cfg, strategy, st, bar).value, cash, seeds, past + [bar])
  {
    hide Capital, SeededBasis, CostOf, FirstOpen, StepBar;
    assert SeedTracked(st.ledger, st.marks, seeds, FirstOpen(past, bar.symbol), bar.symbol);
    StepKeepsCapital(cfg, strategy, st, bar);
    StepTracksSeeds(cfg, strategy, st, bar, seeds, past);
    NewSymbolAddsSeed(seeds, past, bar);
  }

  lemma ClosingKeepsAccounts(st: RunState, time: Instant, cash: real, seeds: map<Symbol, real>, past: seq<Bar>)
    requires Accounted(st, cash, seeds, past)
    ensures Accounted(CloseGroup(st, time), cash, seeds, past)
  {
    hide Capital, SeededBasis, FirstOpen;
  }

  /** The ledger identity, in every reachable state. */
  lemma {:induction false} RunKeepsAccounts(
    cfg: RunConfig, strategy: Strategy, st0: RunState, cash: real, seeds: map<Symbol, real>, bars: seq<Bar>, n: nat)
    requires st0.ledger == Opening(cash, seeds) && st0.marks == map[]
    requires n <= |bars| && Stepped(cfg, strategy, st0, bars, n).Ok?
    ensures Accounted(Stepped(cfg, strategy, st0, bars, n).value, cash, seeds, bars[..n])
  {
    hide *;
    if n == 0 {
      NoStep(cfg, strategy, st0, bars);
      StartIsAccounted(st0, cash, seeds);
    } else {
      var earlier, st := LastStep(cfg, strategy, st0, bars, n);
      RunKeepsAccounts(cfg, strategy, st0, cash, seeds, bars, n - 1);
      if st != earlier {
        ClosingKeepsAccounts(earlier, bars[n - 2].time, cash, seeds, bars[..n - 1]);
      }
      StepKeepsAccounts(cfg, strategy, st, bars[n - 1], cash, seeds, bars[..n - 1]);
    }
  }

  lemma StartIsAccounted(st0: RunState, cash: real, seeds: map<Symbol, real>)
    requires st0.ledger == Opening(cash, seeds) && st0.marks == map[]
    ensures Accounted(st0, cash, seeds, [])
  {
    var costs, none := CostBySymbol(st0.ledger), SeedCosts(seeds, []);
    assert costs == none;
  }

  /**
   * In every reachable state, for any set of marks of symbols that have traded (even a partial one): equity is the
   * starting cash, plus the seeded basis, plus realized and unrealized profit, minus fees.
   */
  lemma EquityAccountsForEverything(
    cfg: RunConfig, strategy: Strategy, st0: RunState, cash: real, seeds: map<Symbol, real>, bars: seq<Bar>, n: nat,
    marks: map<Symbol, real>)
    requires st0.ledger == Opening(cash, seeds) && st0.marks == map[]
    requires n <= |bars| && Stepped(cfg, strategy, st0, bars, n).Ok?
    requires forall s :: s in marks ==> FirstOpen(bars[..n], s).Some?
    ensures var l := Stepped(cfg, strategy, st0, bars, n).value.ledger;
            Equity(l, marks) == cash + SeededBasis(seeds, bars[..n]) + l.realized + Unrealized(l, marks) - l.fees
  {
    hide Equity, Unrealized, Capital, SeededBasis, Stepped;
    RunKeepsAccounts(cfg, strategy, st0, cash, seeds, bars, n);
    var st := Stepped(cfg, strategy, st0, bars, n).value;
    forall s | s in st.ledger.positions && st.ledger.positions[s].entry.None? ensures s !in marks {
      assert SeedTracked(st.ledger, st.marks, seeds, FirstOpen(bars[..n], s), s);
    }
    EquityDecomposes(st.ledger, marks);
  }
}
