/** What the strategy is shown at each bar, and the prices a run marks with, in terms of the bars themselves. */
module RunHistory {
  import opened Wrappers
  import opened Market
  import opened Portfolio
  import opened Lifecycle
  import opened Signals
  import opened Risk
  import opened RunSpec
  import opened RunLaws
  import opened RunPrefix

  /** The bars of one symbol, in order. */
  function BarsOf(bars: seq<Bar>, s: Symbol): seq<Bar> {
    if bars == [] then [] else
      BarsOf(bars[..|bars| - 1], s) + if bars[|bars| - 1].symbol == s then [bars[|bars| - 1]] else []
  }

  lemma OneMoreBar(bars: seq<Bar>, bar: Bar, s: Symbol)
    ensures BarsOf(bars + [bar], s) == BarsOf(bars, s) + if bar.symbol == s then [bar] else []
  {
    assert (bars + [bar])[..|bars|] == bars;
  }

  /** The end of the list, in order: all of it, or as many as the cap allows. */
  predicate AreLatest(recent: seq<Bar>, all: seq<Bar>, cap: Option<nat>) {
    && |recent| == (if cap.Some? && cap.value < |all| then cap.value else |all|)
    && forall j :: 0 <= j < |recent| ==> recent[j] == all[|all| - |recent| + j]
  }

  lemma RememberedAreLatest(recent: seq<Bar>, all: seq<Bar>, cap: Option<nat>, bar: Bar)
    requires AreLatest(recent, all, cap)
    ensures AreLatest(Remembered(cap, recent, bar), all + [bar], cap)
  {
    var now, longer := Remembered(cap, recent, bar), all + [bar];
    forall j | 0 <= j < |now| ensures now[j] == longer[|longer| - |now| + j] {
      var dropped := |recent| + 1 - |now|;
      if dropped + j < |recent| {
        assert recent[dropped + j] == all[|all| - |recent| + dropped + j];
      }
    }
  }

  /** Cash and the nonzero positions are those of the ledger. */
  ghost predicate ShowsLedger(e: Evaluation, l: Ledger) {
    && e.cash == l.cash
    && forall s :: (s in e.positions <==> Qty(l, s) != 0.0) && (s in e.positions ==> e.positions[s] == Qty(l, s))
  }

  /** The runner's memory of a symbol, and the price it marks it with, are those of the symbol's own bars. */
  predicate RemembersOwn(st: RunState, s: Symbol, own: seq<Bar>, cap: Option<nat>) {
    && AreLatest(Queue(st.recent, s), own, cap)
    && (s in st.marks <==> own != [])
    && (s in st.marks ==> st.marks[s] == own[|own| - 1].close)
  }

  ghost predicate Remembers(st: RunState, bars: seq<Bar>, cap: Option<nat>) {
    forall s :: RemembersOwn(st, s, BarsOf(bars, s), cap)
  }

  lemma StepShows(cfg: RunConfig, strategy: Strategy, st: RunState, bar: Bar)
    requires StepBar(cfg, strategy, st, bar).Ok?
    ensures var after, recent := StepBar(cfg, strategy, st, bar).value,
                                 Remembered(cfg.historyCap, Queue(st.recent, bar.symbol), bar);
            && |after.seen| == |st.seen| + 1 && after.seen[..|st.seen|] == st.seen
            && after.seen[|st.seen|].bar == bar && after.seen[|st.seen|].recent == recent
            && ShowsLedger(after.seen[|st.seen|], after.ledger)
            && after.recent == st.recent[bar.symbol := recent] && after.marks == st.marks[bar.symbol := bar.close]
  {
    hide StepBar, FillPending, Plan, Filter, Remembered, Equity, MarkOf, OrdersFor;
    var pass, _, _ := StepParts(cfg, strategy, st, bar);
  }

  lemma MemoryAdvances(st: RunState, after: RunState, bar: Bar, s: Symbol, own: seq<Bar>, cap: Option<nat>)
    requires RemembersOwn(st, s, own, cap) && after.marks == st.marks[bar.symbol := bar.close]
    requires after.recent == st.recent[bar.symbol := Remembered(cap, Queue(st.recent, bar.symbol), bar)]
    ensures RemembersOwn(after, s, if bar.symbol == s then own + [bar] else own, cap)
  {
    hide Remembered, AreLatest;
    if s == bar.symbol { RememberedAreLatest(Queue(st.recent, s), own, cap, bar); }
  }

  lemma StepRemembers(cfg: RunConfig, strategy: Strategy, st: RunState, bars: seq<Bar>, bar: Bar)
    requires StepBar(cfg, strategy, st, bar).Ok? && Remembers(st, bars, cfg.historyCap)
    ensures Remembers(StepBar(cfg, strategy, st, bar).value, bars + [bar], cfg.historyCap)
  {
    StepShows(cfg, strategy, st, bar);
    var after := StepBar(cfg, strategy, st, bar).value;
    hide StepBar, Remembered, BarsOf, RemembersOwn, ShowsLedger;
    forall s ensures RemembersOwn(after, s, BarsOf(bars + [bar], s), cfg.historyCap) {
      OneMoreBar(bars, bar, s);
      MemoryAdvances(st, after, bar, s, BarsOf(bars, s), cfg.historyCap);
      assert BarsOf(bars, s) + [] == BarsOf(bars, s);
    }
  }

  lemma {:induction false} RunRemembers(cfg: RunConfig, strategy: Strategy, st0: RunState, bars: seq<Bar>, n: nat)
    requires st0.recent == map[] && st0.marks == map[] && n <= |bars| && Stepped(cfg, strategy, st0, bars, n).Ok?
    ensures Remembers(Stepped(cfg, strategy, st0, bars, n).value, bars[..n], cfg.historyCap)
  {
    hide Stepped, StepBar, Before, CloseGroup, Remembers;
    if n == 0 {
      NoStep(cfg, strategy, st0, bars);
      NothingRemembered(st0, cfg.historyCap);
    } else {
      var earlier, st := LastStep(cfg, strategy, st0, bars, n);
      RunRemembers(cfg, strategy, st0, bars, n - 1);
      if st != earlier {
        CloseKeeps(earlier, bars[n - 2].time);
        SameMemory(earlier, st, bars[..n - 1], cfg.historyCap);
      }
      StepRemembers(cfg, strategy, st, bars[..n - 1], bars[n - 1]);
    }
  }

  lemma NothingRemembered(st: RunState, cap: Option<nat>)
    requires st.recent == map[] && st.marks == map[]
    ensures Remembers(st, [], cap)
  {
  }

  lemma SameMemory(a: RunState, b: RunState, bars: seq<Bar>, cap: Option<nat>)
    requires Remembers(a, bars, cap) && b.recent == a.recent && b.marks == a.marks
    ensures Remembers(b, bars, cap)
  {
    hide AreLatest, BarsOf;
  }

  /**
   * At bar k the strategy is shown the latest bars of that bar's symbol among the first k + 1, in order, as many as the
   * cap allows, the bar itself last; and the cash and nonzero positions of the ledger after the bar.
   */
  lemma HistoryIsShown(cfg: RunConfig, strategy: Strategy, st0: RunState, bars: seq<Bar>, n: nat, k: nat)
    requires st0.recent == map[] && st0.marks == map[] && st0.seen == [] && st0.steps == []
    requires k < n <= |bars| && Stepped(cfg, strategy, st0, bars, n).Ok?
    ensures Stepped(cfg, strategy, st0, bars, k + 1).Ok?
    ensures var seen, s := Stepped(cfg, strategy, st0, bars, n).value.seen, bars[k].symbol;
            && |seen| == n && seen[k].bar == bars[k]
            && AreLatest(seen[k].recent, BarsOf(bars[..k + 1], s), cfg.historyCap)
            && (cfg.historyCap != Some(0) ==> seen[k].recent != [] && seen[k].recent[|seen[k].recent| - 1] == bars[k])
            && ShowsLedger(seen[k], Stepped(cfg, strategy, st0, bars, k + 1).value.ledger)
  {
    hide Stepped, StepBar, Before, CloseGroup, Remembered, BarsOf, ShowsLedger;
    EarlierSeen(cfg, strategy, st0, bars, n, k);
    var earlier, st := LastStep(cfg, strategy, st0, bars, k + 1);
    RunRemembers(cfg, strategy, st0, bars, k);
    if st != earlier { CloseKeeps(earlier, bars[k - 1].time); }
    StepsFollowBars(cfg, strategy, st0, bars, n);
    StepsFollowBars(cfg, strategy, st0, bars, k);
    StepShows(cfg, strategy, st, bars[k]);
    var s := bars[k].symbol;
    RememberedAreLatest(Queue(st.recent, s), BarsOf(bars[..k], s), cfg.historyCap, bars[k]);
    OneMoreBar(bars[..k], bars[k], s);
  }

  lemma StepReports(cfg: RunConfig, strategy: Strategy, st: RunState, bar: Bar)
    requires StepBar(cfg, strategy, st, bar).Ok?
    ensures var after := StepBar(cfg, strategy, st, bar).value;
            && |after.seen| == |st.seen| + 1 && |after.steps| == |st.steps| + 1
            && var decision, r := strategy(after.seen), after.steps[|st.steps|];
               var positions := after.seen[|st.seen|].positions;
               Plan(cfg.venue, decision, positions) == Ok(r.intents) && r.signals == SignalCount(decision, r.intents)
               && |r.outcomes| == |r.intents| && |r.created| <= |r.intents|
  {
    hide StepBar, FillPending, Plan, Filter, Remembered, Equity, MarkOf, SignalCount;
    var pass, intents, filtered := StepParts(cfg, strategy, st, bar);
    FilterJudgesEach(SceneAt(cfg, st, pass, bar), intents);
    FewerPermitted(intents, filtered.outcomes);
  }

  lemma {:induction false} FewerPermitted(intents: seq<Intent>, outcomes: seq<RiskOutcome>)
    requires |intents| == |outcomes|
    ensures |Permitted(intents, outcomes)| <= |intents|
  {
    if intents != [] {
      var m := |intents| - 1;
      FewerPermitted(intents[..m], outcomes[..m]);
    }
  }

  /** The signals that a decision is reported as: itself, or those of its targets that differ from what is held. */
  function Reported(d: Decision, positions: map<Symbol, real>): nat {
    match d
    case Pass => 0
    case TargetPosition(time, items) => |Project(time, items, positions)|
    case Signal(_, _, _) => 1
  }

  lemma CountIsReported(v: Venue, d: Decision, positions: map<Symbol, real>)
    requires Plan(v, d, positions).Ok?
    ensures SignalCount(d, Plan(v, d, positions).value) == Reported(d, positions)
  {
    hide PlanItems, Project;
    if d.TargetPosition? { SignalsPlanTheSame(v, d.time, d.items, positions); }
  }

  /**
   * The log of bar k holds the plan of what the strategy decides on everything shown up to then, for the positions
   * shown, and counts the signals of that decision.
   */
  lemma DecisionsAreLogged(cfg: RunConfig, strategy: Strategy, st0: RunState, bars: seq<Bar>, n: nat, k: nat)
    requires st0.seen == [] && st0.steps == [] && k < n <= |bars| && Stepped(cfg, strategy, st0, bars, n).Ok?
    ensures var st := Stepped(cfg, strategy, st0, bars, n).value;
            && |st.seen| == |st.steps| == n
            && var decision, positions, r := strategy(st.seen[..k + 1]), st.seen[k].positions, st.steps[k];
               && Plan(cfg.venue, decision, positions) == Ok(r.intents)
               && r.signals == Reported(decision, positions)
               && |r.outcomes| == |r.intents|
  {
    hide Stepped, StepBar, Before, CloseGroup, Plan, SignalCount, Reported;
    EarlierSeen(cfg, strategy, st0, bars, n, k);
    var earlier, st := LastStep(cfg, strategy, st0, bars, k + 1);
    if st != earlier { CloseKeeps(earlier, bars[k - 1].time); }
    StepsFollowBars(cfg, strategy, st0, bars, n);
    StepsFollowBars(cfg, strategy, st0, bars, k);
    StepsFollowBars(cfg, strategy, st0, bars, k + 1);
    StepReports(cfg, strategy, st, bars[k]);
    var now := Stepped(cfg, strategy, st0, bars, k + 1).value;
    assert Stepped(cfg, strategy, st0, bars, n).value.seen[..k + 1] == now.seen;
    CountIsReported(cfg.venue, strategy(now.seen), now.seen[k].positions);
  }

  lemma EarlierSeen(cfg: RunConfig, strategy: Strategy, st0: RunState, bars: seq<Bar>, n: nat, k: nat)
    requires k < n <= |bars| && Stepped(cfg, strategy, st0, bars, n).Ok?
    ensures Stepped(cfg, strategy, st0, bars, k + 1).Ok?
    ensures var now := Stepped(cfg, strategy, st0, bars, k + 1).value;
            var later := Stepped(cfg, strategy, st0, bars, n).value;
            now.seen <= later.seen && now.steps <= later.steps
  {
    hide StepBar, CloseGroup;
    if k + 1 < n {
      LaterExtends(cfg, strategy, st0, bars, k + 1, n);
      CloseKeeps(Stepped(cfg, strategy, st0, bars, k + 1).value, bars[k].time);
    }
  }

  /** A run marks every symbol with the close of its latest bar, and has no mark for one that has had no bar. */
  lemma MarksAreLatestCloses(cfg: RunConfig, strategy: Strategy, st0: RunState, bars: seq<Bar>, n: nat, s: Symbol)
    requires st0.recent == map[] && st0.marks == map[] && n <= |bars| && Stepped(cfg, strategy, st0, bars, n).Ok?
    ensures var marks, own := Stepped(cfg, strategy, st0, bars, n).value.marks, BarsOf(bars[..n], s);
            if own == [] then s !in marks else s in marks && marks[s] == own[|own| - 1].close
  {
    hide Stepped, BarsOf, AreLatest;
    RunRemembers(cfg, strategy, st0, bars, n);
  }
}
