/** One run of the backtest as a pure fold over its bars. */
module RunSpec {
  import opened Wrappers
  import opened Market
  import opened Portfolio
  import opened Lifecycle
  import opened Fills
  import opened Risk
  import opened Performance

  /** What a strategy is shown when a bar is evaluated. */
  datatype Evaluation = Evaluation(bar: Bar, recent: seq<Bar>, positions: map<Symbol, real>, cash: real)

  /** A deterministic strategy, possibly with memory: its decision may depend on everything it was ever shown. */
  type Strategy = seq<Evaluation> -> Decision

  datatype RunConfig = RunConfig(venue: Venue, policy: Policy, costs: CostModel, zoneOffset: int,
      historyCap: Option<nat>)

  /** Everything that happened on one bar; `group` counts the bar times completed before it. */
  datatype StepRecord = StepRecord(
    group: nat,
    bar: Bar,
    filled: seq<Order>,
    fills: seq<Fill>,
    applied: seq<FillOutcome>,
    signals: nat,
    intents: seq<Intent>,
    outcomes: seq<RiskOutcome>,
    created: seq<Order>,
    mark: Mark)

  datatype RunState = RunState(
    ledger: Ledger,
    session: Session,
    pending: map<Symbol, seq<Order>>,
    recent: map<Symbol, seq<Bar>>,
    seen: seq<Evaluation>,
    marks: map<Symbol, real>,
    nextOrder: nat,
    nextFill: nat,
    steps: seq<StepRecord>,
    points: seq<Point>,
    peak: real,
    maxDrawdown: real)

  /** A run starts from cash, seeded quantities, and whatever guard session and id counters the runner holds. */
  function Start(cash: real, seeds: map<Symbol, real>, session: Session, nextOrder: nat, nextFill: nat): RunState {
    RunState(Opening(cash, seeds), session, map[], map[], [], map[], nextOrder, nextFill, [], [], cash, 0.0)
  }

  function FreshStart(cash: real, seeds: map<Symbol, real>): RunState {
    Start(cash, seeds, FRESH, 1, 1)
  }

  function Queue<T>(m: map<Symbol, seq<T>>, s: Symbol): seq<T> {
    if s in m then m[s] else []
  }

  function Remembered(cap: Option<nat>, recent: seq<Bar>, bar: Bar): seq<Bar> {
    var all := recent + [bar];
    if cap.Some? && |all| > cap.value then all[|all| - cap.value..] else all
  }

  // ----- One bar -----

  datatype FillPass = FillPass(
    ledger: Ledger,
    session: Session,
    filled: seq<Order>,
    fills: seq<Fill>,
    applied: seq<FillOutcome>,
    remaining: seq<Order>,
    nextFill: nat)

  function FillOne(cfg: RunConfig, pass: FillPass, o: Order, bar: Bar): (r: Result<FillPass, Error>)
    requires EntryKnown(pass.ledger, bar.symbol)
    ensures r.Ok? ==> EntryKnown(r.value.ledger, bar.symbol)
  {
    var update :- Process(cfg.costs, o, bar, pass.nextFill);
    if update.None? then Ok(pass.(remaining := pass.remaining + [o])) else
      var f := update.value;
      var outcome := FillOutcomeOf(pass.ledger, f);
      FillMovesPosition(pass.ledger, f);
      Ok(FillPass(Booked(pass.ledger, f), Observed(pass.session, cfg.policy, outcome), pass.filled + [o],
          pass.fills + [f],
                  pass.applied + [outcome], pass.remaining, pass.nextFill + 1))
  }

  function FillPending(cfg: RunConfig, start: FillPass, queue: seq<Order>, bar: Bar): (r: Result<FillPass, Error>)
    requires EntryKnown(start.ledger, bar.symbol)
    ensures r.Ok? ==> EntryKnown(r.value.ledger, bar.symbol)
  {
    if queue == [] then Ok(start) else
      var earlier :- FillPending(cfg, start, queue[..|queue| - 1], bar);
      FillOne(cfg, earlier, queue[|queue| - 1], bar)
  }

  function OpenPass(st: RunState, bar: Bar): FillPass {
    FillPass(SeedEntry(st.ledger, bar.symbol, bar.open), st.session, [], [], [], [], st.nextFill)
  }

  function OrdersFor(allowed: seq<Intent>, bar: Bar, nextOrder: nat): seq<Order> {
    seq(|allowed|, k requires 0 <= k < |allowed| => OrderFor(allowed[k], bar, nextOrder + k))
  }

  function SignalCount(d: Decision, intents: seq<Intent>): nat {
    match d
    case Pass => 0
    case TargetPosition(_, _) => |intents|
    case Signal(_, _, _) => 1
  }

  /** What the strategy is shown on a bar, after the bar's fills. */
  function Shown(cfg: RunConfig, st: RunState, ledger: Ledger, bar: Bar): Evaluation {
    Evaluation(bar, Remembered(cfg.historyCap, Queue(st.recent, bar.symbol), bar), OpenPositions(ledger), ledger.cash)
  }

  /** The scene of the guard on a bar: marks and session are refreshed at the bar's close first. */
  ghost function SceneAt(cfg: RunConfig, st: RunState, pass: FillPass, bar: Bar): Scene {
    var marks := st.marks[bar.symbol := bar.close];
    Scene(cfg.policy, cfg.costs, Refreshed(pass.session, cfg.zoneOffset, bar.time, Equity(pass.ledger, marks)),
        pass.ledger, marks, bar)
  }

  ghost function StepBar(cfg: RunConfig, strategy: Strategy, st: RunState, bar: Bar): Result<RunState, Error> {
    var pass :- FillPending(cfg, OpenPass(st, bar), Queue(st.pending, bar.symbol), bar);
    if bar.symbol !in cfg.venue.universe then Raised(OutsideUniverse) else
    var shown := Shown(cfg, st, pass.ledger, bar);
    var decision := strategy(st.seen + [shown]);
    var intents :- Plan(cfg.venue, decision, shown.positions);
    var scene := SceneAt(cfg, st, pass, bar);
    var filtered :- Filter(scene, intents);
    Ok(After(st, bar, pass, shown, SignalCount(decision, intents), intents, scene, filtered))
  }

  ghost function After(
    st: RunState, bar: Bar, pass: FillPass, shown: Evaluation, signals: nat, intents: seq<Intent>, scene: Scene,
    filtered: Filtered): RunState {
    var created := OrdersFor(filtered.allowed, bar, st.nextOrder);
    st.(ledger := pass.ledger,
        session := scene.session,
        pending := st.pending[bar.symbol := pass.remaining + created],
        recent := st.recent[bar.symbol := shown.recent],
        seen := st.seen + [shown],
        marks := scene.marks,
        nextOrder := st.nextOrder + |created|,
        nextFill := pass.nextFill,
        steps := st.steps +
          [StepRecord(|st.points|, bar, pass.filled, pass.fills, pass.applied, signals, intents, filtered.outcomes,
                                        created, MarkOf(pass.ledger, scene.marks))])
  }

  /** All bars of one time have been stepped: a performance point is taken and the cooldown counts down. */
  ghost function CloseGroup(st: RunState, time: Instant): RunState {
    var mark := MarkOf(st.ledger, st.marks);
    var point := PointAt(time, mark, st.peak);
    st.(points := st.points + [point],
        peak := Max(st.peak, mark.equity),
        maxDrawdown := Max(st.maxDrawdown, point.drawdown),
        session := BarCompleted(st.session))
  }

  // ----- The fold -----

  predicate GroupEnds(bars: seq<Bar>, n: nat)
    requires 0 < n < |bars|
  {
    bars[n - 1].time != bars[n].time
  }

  /** The state right before bar n is stepped, once the group it does not belong to has been closed. */
  ghost function Before(
    cfg: RunConfig, strategy: Strategy, st0: RunState, bars: seq<Bar>, n: nat): Result<RunState, Error>
    requires n < |bars|
    decreases n, 1
  {
    var st :- Stepped(cfg, strategy, st0, bars, n);
    if n > 0 && GroupEnds(bars, n) then Ok(CloseGroup(st, bars[n - 1].time)) else Ok(st)
  }

  /** The state after stepping the first n bars, with the last group still open. */
  ghost function Stepped(
    cfg: RunConfig, strategy: Strategy, st0: RunState, bars: seq<Bar>, n: nat): Result<RunState, Error>
    requires n <= |bars|
    decreases n, 0
  {
    if n == 0 then Ok(st0) else
      var st :- Before(cfg, strategy, st0, bars, n - 1);
      StepBar(cfg, strategy, st, bars[n - 1])
  }

  /** The first n bars, with every group closed. */
  ghost function Closed(
    cfg: RunConfig, strategy: Strategy, st0: RunState, bars: seq<Bar>, n: nat): Result<RunState, Error>
    requires n <= |bars|
  {
    var st :- Stepped(cfg, strategy, st0, bars, n);
    if n == 0 then Ok(st) else Ok(CloseGroup(st, bars[n - 1].time))
  }

  ghost function Run(cfg: RunConfig, strategy: Strategy, st0: RunState, bars: seq<Bar>): Result<RunState, Error> {
    Closed(cfg, strategy, st0, bars, |bars|)
  }

  /** Pieces of a step that went well. */
  lemma StepParts(cfg: RunConfig, strategy: Strategy, st: RunState, bar: Bar)
    returns (pass: FillPass, intents: seq<Intent>, filtered: Filtered)
    requires StepBar(cfg, strategy, st, bar).Ok?
    ensures FillPending(cfg, OpenPass(st, bar), Queue(st.pending, bar.symbol), bar) == Ok(pass)
    ensures bar.symbol in cfg.venue.universe
    ensures var shown := Shown(cfg, st, pass.ledger, bar);
            var decision := strategy(st.seen + [shown]);
            && Plan(cfg.venue, decision, shown.positions) == Ok(intents)
            && Filter(SceneAt(cfg, st, pass, bar), intents) == Ok(filtered)
            && StepBar(cfg, strategy, st, bar) ==
               Ok(After(st, bar, pass, shown, SignalCount(decision, intents), intents, SceneAt(cfg, st, pass, bar),
                   filtered))
  {
    hide FillPending, Plan, Filter, SceneAt, After, Shown;
    pass := FillPending(cfg, OpenPass(st, bar), Queue(st.pending, bar.symbol), bar).value;
    var shown := Shown(cfg, st, pass.ledger, bar);
    intents := Plan(cfg.venue, strategy(st.seen + [shown]), shown.positions).value;
    filtered := Filter(SceneAt(cfg, st, pass, bar), intents).value;
  }
}
