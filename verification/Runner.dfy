/** The runner itself: one loop over bar times, one over the bars of each, mutating the run as it goes. */
module Runner {
  import opened Wrappers
  import opened Market
  import opened Sequences
  import opened Portfolio
  import opened Lifecycle
  import opened Fills
  import opened Risk
  import opened Performance
  import opened Streaming
  import opened Traces
  import opened RunSpec
  import opened RunLaws
  import opened RunOrders
  import opened RunPrefix
  import opened RunPoints

  // ----- What the sinks and the debug trace receive, as functions of the log -----

  datatype SinkCall =
    | FillsSunk(fills: seq<Fill>)
    | StatusesSunk(orders: seq<Order>)
    | OrdersSunk(orders: seq<Order>)

  function WithStatus(orders: seq<Order>, status: OrderStatus): seq<Order> {
    seq(|orders|, k requires 0 <= k < |orders| => orders[k].(status := status))
  }

  function CallsOf(r: StepRecord): seq<SinkCall> {
    (if r.fills != [] then [FillsSunk(r.fills)] else [])
    + (if r.filled != [] then [StatusesSunk(WithStatus(r.filled, Filled))] else [])
    + (if r.created != [] then [OrdersSunk(r.created)] else [])
  }

  function SinkCalls(steps: seq<StepRecord>): seq<SinkCall> {
    if steps == [] then [] else SinkCalls(steps[..|steps| - 1]) + CallsOf(steps[|steps| - 1])
  }

  predicate IsActivity(r: StepRecord) {
    r.signals > 0 || r.created != [] || r.fills != [] || exists o :: o in r.outcomes && o.ruling.Block?
  }

  function TraceItem(c: TraceConfig, r: StepRecord, index: nat): Item {
    if ShouldCapture(c, index,
        IsActivity(r)) then Captured(Record(index, r.bar.time, r.bar.symbol, r.bar.close, IsActivity(r))) else Skipped
  }

  function TraceItems(c: TraceConfig, steps: seq<StepRecord>): seq<Item> {
    seq(|steps|, k requires 0 <= k < |steps| => TraceItem(c, steps[k], k + 1))
  }

  function Trace(c: TraceConfig, steps: seq<StepRecord>): seq<Record> {
    if c.compress then Compressed(TraceItems(c, steps)) else Uncompressed(TraceItems(c, steps))
  }

  // ----- The mutable state of one call -----

  function Terms(queue: seq<SimulatedOrder>): seq<Order> {
    seq(|queue|, k requires 0 <= k < |queue| => queue[k].terms)
  }

  function PendingTerms(pending: map<Symbol, seq<SimulatedOrder>>): map<Symbol, seq<Order>> {
    map s | s in pending :: Terms(pending[s])
  }

  ghost function Waiting(pending: map<Symbol, seq<SimulatedOrder>>): set<SimulatedOrder> {
    set s, o | s in pending && o in pending[s] :: o
  }

  ghost function Members(queue: seq<SimulatedOrder>): set<SimulatedOrder> {
    set o | o in queue
  }

  ghost predicate NoRepeats(queue: seq<SimulatedOrder>) {
    forall a, b :: 0 <= a < b < |queue| ==> queue[a] != queue[b]
  }

  /** Every order object waits in at most one queue, at most once. */
  ghost predicate OneQueueEach(pending: map<Symbol, seq<SimulatedOrder>>) {
    && (forall s :: s in pending ==> NoRepeats(pending[s]))
    && (forall s, t, o :: s in pending && t in pending && s != t && o in pending[s] ==> o !in pending[t])
  }

  lemma EmptyPass(cfg: RunConfig, start: FillPass, terms: seq<Order>, bar: Bar)
    requires EntryKnown(start.ledger, bar.symbol)
    ensures FillPending(cfg, start, terms[..0], bar) == Ok(start)
    ensures Terms([]) == []
  {
  }

  lemma NotSeenYet(queue: seq<SimulatedOrder>, k: nat)
    requires NoRepeats(queue) && k < |queue|
    ensures queue[k] !in queue[..k] && queue[..k + 1] == queue[..k] + [queue[k]]
    ensures forall j :: 0 <= j < |queue| && j != k ==> queue[j] != queue[k]
  {
    forall j | 0 <= j < |queue| && j != k ensures queue[j] != queue[k] {
      assert j < k ==> queue[j] != queue[k];
    }
  }

  /** Replacing one queue by some of its orders and some new ones keeps every order in at most one queue. */
  lemma Requeue(
    pending: map<Symbol, seq<SimulatedOrder>>, s: Symbol, kept: seq<SimulatedOrder>, created: seq<SimulatedOrder>)
    requires OneQueueEach(pending) && NoRepeats(kept) && NoRepeats(created)
    requires forall o :: o in kept ==> o in Queue(pending, s)
    requires forall o :: o in created ==> o !in Waiting(pending)
    ensures OneQueueEach(pending[s := kept + created])
    ensures forall o :: o in kept ==> o in Waiting(pending)
    ensures Waiting(pending[s := kept + created]) ==
            (Waiting(pending) - Members(Queue(pending, s))) + Members(kept) + Members(created)
  {
    var after := pending[s := kept + created];
    forall o | o in kept ensures o in Waiting(pending) {}
    forall o ensures o in Waiting(after) <==>
      (o in Waiting(pending) && o !in Queue(pending, s)) || o in kept || o in created {
      if o in Waiting(after) {
        var t :| t in after && o in after[t];
        assert t != s ==> o in pending[t];
      }
      if o in Waiting(pending) && o !in Queue(pending, s) {
        var t :| t in pending && o in pending[t];
        assert t != s && o in after[t];
      }
      if o in kept || o in created {
        assert o in after[s];
      }
    }
    forall a, b | 0 <= a < b < |kept + created| ensures (kept + created)[a] != (kept + created)[b] {
      assert a < |kept| <= b ==> kept[a] in Waiting(pending) && created[b - |kept|] !in Waiting(pending);
    }
    forall t, u, o | t in after && u in after && t != u && o in after[t] ensures o !in after[u] {
      assert t != s ==> o in Waiting(pending);
      assert u != s && o in pending[u] ==> o in Waiting(pending);
    }
  }

  lemma RequeueTerms(
    pending: map<Symbol, seq<SimulatedOrder>>, s: Symbol, kept: seq<SimulatedOrder>, created: seq<SimulatedOrder>)
    ensures PendingTerms(pending[s := kept + created]) == PendingTerms(pending)[s := Terms(kept) + Terms(created)]
  {
    TermsAppend(kept, created);
  }

  lemma LogAppends(steps: seq<StepRecord>, r: StepRecord)
    ensures SinkCalls(steps + [r]) == SinkCalls(steps) + CallsOf(r)
    ensures AllCreated(steps + [r]) == AllCreated(steps) + r.created
  {
    assert (steps + [r])[..|steps|] == steps;
  }

  lemma TermsAppend(a: seq<SimulatedOrder>, b: seq<SimulatedOrder>)
    ensures Terms(a + b) == Terms(a) + Terms(b)
  {
  }

  class RunLocals {
    const portfolio: PortfolioState
    var pending: map<Symbol, seq<SimulatedOrder>>
    var recent: map<Symbol, seq<Bar>>
    /** The strategy's memory: everything it was shown. */
    var seen: seq<Evaluation>
    var marks: map<Symbol, real>
    var steps: seq<StepRecord>
    var groups: nat
    var allOrders: seq<SimulatedOrder>
    var sinkCalls: seq<SinkCall>
    var peak: real
    var maxDrawdown: real
    ghost var points: seq<Point>

    constructor (cash: real, seeds: map<Symbol, real>)
      ensures fresh(portfolio) && portfolio.View() == Opening(cash, seeds)
      ensures pending == map[] && recent == map[] && seen == [] && marks == map[] && steps == [] && groups == 0
      ensures allOrders == [] && sinkCalls == [] && peak == cash && maxDrawdown == 0.0 && points == []
      ensures Valid()
    {
      portfolio := new PortfolioState(cash, seeds);
      pending, recent, seen, marks, steps, groups := map[], map[], [], map[], [], 0;
      allOrders, sinkCalls, peak, maxDrawdown, points := [], [], cash, 0.0, [];
    }

    ghost function Live(): set<SimulatedOrder>
      reads this
    {
      set o | o in allOrders
    }

    /** An order's status says where it is: submitted while it waits, filled once it has left its queue. */
    ghost predicate Valid()
      reads this, Live()
    {
      && groups == |points|
      && OneQueueEach(pending) && Waiting(pending) <= Live()
      && (forall o :: o in allOrders ==>
           o.terms.status.Submitted? && o.status == if o in Waiting(pending) then Submitted else Filled)
      && Terms(allOrders) == AllCreated(steps)
      && sinkCalls == SinkCalls(steps)
    }

    ghost function Model(guard: BacktestRiskGuardrailEngine, fillModel: DeterministicBarsFillModel): RunState
      reads this, portfolio, guard, fillModel
    {
      RunState(portfolio.View(), guard.session, PendingTerms(pending), recent, seen, marks,
               fillModel.nextOrder, fillModel.nextFill, steps, points, peak, maxDrawdown)
    }
  }

  datatype RunOptions = RunOptions(
    captureTraces: bool,
    trace: TraceConfig,
    collectTraces: bool,
    traceChunk: Option<int>,
    collectPoints: bool,
    pointChunk: Option<int>)

  /** Lists that were not asked for stay empty; the chunks are the calls made to a sink. */
  datatype RunResult = RunResult(
    steps: seq<StepRecord>,
    finalPositions: map<Symbol, real>,
    finalCash: real,
    orders: seq<SimulatedOrder>,
    openOrders: seq<SimulatedOrder>,
    sinkCalls: seq<SinkCall>,
    points: seq<Point>,
    pointChunks: seq<seq<Point>>,
    traces: seq<Record>,
    traceCount: nat,
    traceChunks: seq<seq<Record>>,
    summary: Summary)

  predicate Pends(st: RunState, t: Order) {
    exists s :: s in st.pending && t in st.pending[s]
  }

  /** The orders created, their final status, and the order of the calls to the order and fill sinks. */
  ghost predicate ReportsOrders(
    orders: seq<SimulatedOrder>, open: seq<SimulatedOrder>, calls: seq<SinkCall>, st: RunState)
    reads orders
  {
    && Terms(orders) == AllCreated(st.steps)
    && (forall o :: o in orders ==> o.status == if o in open then Expired else Filled)
    && (forall o :: o in open ==> o in orders)
    && (forall t :: t in Terms(open) <==> Pends(st, t))
    && calls == SinkCalls(st.steps) + (if open == [] then [] else [StatusesSunk(WithStatus(Terms(open), Expired))])
  }

  /** A list streamed to a sink arrives whole, in chunks that are neither empty nor too large. */
  predicate ReportsChunks<T(==)>(chunks: seq<seq<T>>, all: seq<T>, chunkSize: Option<int>) {
    if chunkSize.None? then chunks == []
    else Concat(chunks) == all && forall c :: c in chunks ==> 0 < |c| <= EffectiveSize(chunkSize.value)
  }

  /** The trace goes to the list or else to the sink, and is counted either way. */
  predicate ReportsTraces(
    traces: seq<Record>, count: nat, chunks: seq<seq<Record>>, all: seq<Record>, options: RunOptions) {
    && count == |all| && traces == (if options.collectTraces then all else [])
    && ReportsChunks(chunks, if options.collectTraces then [] else all, options.traceChunk)
  }

  /** What a finished call returns, in terms of the final state of the pure run. */
  ghost predicate Reports(r: RunResult, st: RunState, horizon: Horizon, options: RunOptions)
    reads r.orders
  {
    && r.steps == st.steps && r.finalCash == st.ledger.cash && r.finalPositions == OpenPositions(st.ledger)
    && ReportsOrders(r.orders, r.openOrders, r.sinkCalls, st)
    && r.points == (if options.collectPoints then st.points else [])
    && ReportsChunks(r.pointChunks, st.points, options.pointChunk)
    && ReportsTraces(r.traces, r.traceCount, r.traceChunks,
         if options.captureTraces then Trace(options.trace, st.steps) else [], options)
    && r.summary == Summarize(horizon, st.points)
  }

  /** The next bar steps the state before it; a raise is the raise of the whole prefix. */
  lemma SteppingOn(cfg: RunConfig, strategy: Strategy, st0: RunState, bars: seq<Bar>, i: nat, st: RunState)
    requires i < |bars| && Before(cfg, strategy, st0, bars, i) == Ok(st)
    ensures Stepped(cfg, strategy, st0, bars, i + 1) == StepBar(cfg, strategy, st, bars[i])
    ensures i + 1 < |bars| && bars[i + 1].time == bars[i].time ==>
              Before(cfg, strategy, st0, bars, i + 1) == StepBar(cfg, strategy, st, bars[i])
  {
    hide StepBar, CloseGroup;
  }

  lemma ClosedGroups(cfg: RunConfig, strategy: Strategy, st0: RunState, bars: seq<Bar>, i: nat)
    requires i <= |bars|
    ensures i < |bars| && (i > 0 ==> GroupEnds(bars, i)) ==>
            Before(cfg, strategy, st0, bars, i) == Closed(cfg, strategy, st0, bars, i)
    ensures i > 0 && Stepped(cfg, strategy, st0, bars, i).Ok? ==>
              Closed(cfg, strategy, st0, bars, i) ==
                Ok(CloseGroup(Stepped(cfg, strategy, st0, bars, i).value, bars[i - 1].time))
    ensures i == 0 ==> Closed(cfg, strategy, st0, bars, i) == Ok(st0)
  {
    hide StepBar, CloseGroup;
  }

  /** The orders left open are those pending in the final state. */
  lemma QueueWaits(pending: map<Symbol, seq<SimulatedOrder>>, s: Symbol)
    requires OneQueueEach(pending)
    ensures NoRepeats(Queue(pending, s)) && forall o :: o in Queue(pending, s) ==> o in Waiting(pending)
    ensures Queue(PendingTerms(pending), s) == Terms(Queue(pending, s))
  {
  }

  lemma OpenTermsPend(open: seq<SimulatedOrder>, pending: map<Symbol, seq<SimulatedOrder>>, st: RunState)
    requires Members(open) == Waiting(pending) && st.pending == PendingTerms(pending)
    ensures forall t :: t in Terms(open) <==> Pends(st, t)
  {
    forall t ensures t in Terms(open) <==> Pends(st, t) {
      if t in Terms(open) {
        var k :| 0 <= k < |open| && Terms(open)[k] == t;
        assert open[k] in Members(open);
        var s :| s in pending && open[k] in pending[s];
        var j :| 0 <= j < |pending[s]| && pending[s][j] == open[k];
        assert st.pending[s][j] == t;
      }
      if Pends(st, t) {
        var s :| s in st.pending && t in st.pending[s];
        var j :| 0 <= j < |st.pending[s]| && st.pending[s][j] == t;
        assert s in pending && pending[s][j] in pending[s];
        assert pending[s][j] in Waiting(pending);
        var k :| 0 <= k < |open| && open[k] == pending[s][j];
        assert Terms(open)[k] == t;
      }
    }
  }

  lemma NothingTraced(c: TraceConfig)
    ensures Compressed([]) == Uncompressed([]) == []
    ensures TraceItems(c, []) == []
  {
  }

  lemma RaisedRun(cfg: RunConfig, strategy: Strategy, st0: RunState, bars: seq<Bar>)
    requires Stepped(cfg, strategy, st0, bars, |bars|).Raised?
    ensures Run(cfg, strategy, st0, bars) == Raised(Stepped(cfg, strategy, st0, bars, |bars|).error)
  {
    hide Stepped, CloseGroup;
  }

  lemma TraceItemsAppend(c: TraceConfig, steps: seq<StepRecord>, r: StepRecord)
    ensures TraceItems(c, steps + [r]) == TraceItems(c, steps) + [TraceItem(c, r, |steps| + 1)]
  {
  }

  predicate Apart(a: object?, b: object?) {
    a == null || a != b
  }

  ghost predicate SinkHolds(sink: ChunkedSink?<Point>, chunkSize: Option<int>, all: seq<Point>)
    reads sink
  {
    && (sink != null <==> chunkSize.Some?)
    && (sink != null ==> sink.chunkSize == chunkSize.value && sink.Valid() && sink.Contents() == all)
  }

  class BacktestRunner {
    const cfg: RunConfig
    const strategy: Strategy
    const lifecycle: BacktestLifecycle
    const fillModel: DeterministicBarsFillModel
    const guard: BacktestRiskGuardrailEngine

    constructor (cfg: RunConfig, strategy: Strategy)
      ensures Valid() && this.cfg == cfg && this.strategy == strategy
      ensures fresh(fillModel) && fresh(guard) && guard.session == FRESH
              && fillModel.nextOrder == fillModel.nextFill == 1
    {
      this.cfg, this.strategy := cfg, strategy;
      lifecycle := new BacktestLifecycle(cfg.venue);
      fillModel := new DeterministicBarsFillModel(cfg.costs);
      guard := new BacktestRiskGuardrailEngine(cfg.policy, cfg.costs, cfg.zoneOffset);
    }

    predicate Valid() {
      && lifecycle.venue == cfg.venue && fillModel.costs == cfg.costs
      && guard.policy == cfg.policy && guard.costs == cfg.costs && guard.zoneOffset == cfg.zoneOffset
    }

    /** One pending order against one bar: booked and observed if it fills. */
    method FillNext(
      portfolio: PortfolioState, o: SimulatedOrder, bar: Bar)
      returns (r: Result<Option<Fill>, Error>, outcome: FillOutcome)
      requires Valid() && EntryKnown(portfolio.View(), bar.symbol) && o.status == o.terms.status
      modifies portfolio, guard, fillModel`nextFill, o`status
      ensures r == Process(cfg.costs, o.terms, bar, old(fillModel.nextFill))
      ensures r.Ok? && r.value.None? ==>
                && portfolio.View() == old(portfolio.View()) && guard.session == old(guard.session)
                && fillModel.nextFill == old(fillModel.nextFill) && o.status == old(o.status)
      ensures r.Ok? && r.value.Some? ==>
                && r.value.value.symbol == bar.symbol && EntryKnown(portfolio.View(), bar.symbol)
                && outcome == FillOutcomeOf(old(portfolio.View()), r.value.value)
                && portfolio.View() == Booked(old(portfolio.View()), r.value.value)
                && guard.session == Observed(old(guard.session), cfg.policy, outcome)
                && fillModel.nextFill == old(fillModel.nextFill) + 1 && o.status == Filled
    {
      hide Booked, Process, FillOutcomeOf, Observed;
      ghost var fillId := fillModel.nextFill;
      outcome := NO_CLOSE;
      assert o.View() == o.terms;
      r := fillModel.ProcessOpenOrder(o, bar);
      if r.Ok? && r.value.Some? {
        FillSymbol(cfg.costs, o.terms, bar, fillId);
        FillMovesPosition(portfolio.View(), r.value.value);
        outcome := portfolio.ApplyFill(r.value.value);
        guard.ObserveFillApplication(outcome);
      }
    }

    /** Fills the queue of the bar's symbol, order by order. */
    method FillQueue(portfolio: PortfolioState, queue: seq<SimulatedOrder>, bar: Bar)
      returns (r: Result<FillPass, Error>, remaining: seq<SimulatedOrder>)
      requires Valid() && NoRepeats(queue)
      requires EntryKnown(portfolio.View(), bar.symbol)
      requires forall o :: o in queue ==> o.status == o.terms.status == Submitted
      modifies portfolio, guard, fillModel`nextFill, queue
      ensures var start := FillPass(old(portfolio.View()), old(guard.session), [], [], [], [], old(fillModel.nextFill));
              r == FillPending(cfg, start, Terms(queue), bar)
      ensures r.Ok? ==>
                && portfolio.View() == r.value.ledger && guard.session == r.value.session
                   && fillModel.nextFill == r.value.nextFill
                && Terms(remaining) == r.value.remaining && NoRepeats(remaining)
                && (forall o :: o in remaining ==> o in queue)
                && (forall o :: o in queue ==> o.status == if o in remaining then Submitted else Filled)
    {
      hide Booked, Process, FillOutcomeOf, Observed, FillPending, EntryKnown;
      ghost var start := FillPass(portfolio.View(), guard.session, [], [], [], [], fillModel.nextFill);
      ghost var terms := Terms(queue);
      var filled: seq<Order>, fills: seq<Fill>, applied: seq<FillOutcome> := [], [], [];
      remaining := [];
      var k := 0;
      EmptyPass(cfg, start, terms, bar);
      while k < |queue|
        invariant 0 <= k <= |queue|
        invariant FillPending(cfg, start, terms[..k], bar) ==
                  Ok(FillPass(portfolio.View(), guard.session, filled, fills, applied, Terms(remaining),
                      fillModel.nextFill))
        invariant EntryKnown(portfolio.View(), bar.symbol)
        invariant NoRepeats(remaining) && forall o :: o in remaining ==> o in queue[..k]
        invariant forall j :: 0 <= j < k ==> queue[j].status == if queue[j] in remaining then Submitted else Filled
        invariant forall j :: k <= j < |queue| ==> queue[j].status.Submitted?
      {
        FillPrefix(cfg, start, terms, bar, k);
        var o := queue[k];
        assert o.terms == terms[k];
        NotSeenYet(queue, k);
        var update, outcome := FillNext(portfolio, o, bar);
        if update.Raised? {
          return Raised(update.error), remaining;
        }
        if update.value.Some? {
          filled, fills, applied := filled + [o.terms], fills + [update.value.value], applied + [outcome];
        } else {
          assert Terms(remaining + [o]) == Terms(remaining) + [o.terms];
          remaining := remaining + [o];
        }
        k := k + 1;
      }
      assert terms[..k] == terms;
      r := Ok(FillPass(portfolio.View(), guard.session, filled, fills, applied, Terms(remaining), fillModel.nextFill));
    }

    method CreateOrders(allowed: seq<Intent>, bar: Bar) returns (created: seq<SimulatedOrder>)
      modifies fillModel`nextOrder
      ensures Terms(created) == OrdersFor(allowed, bar, old(fillModel.nextOrder)) && NoRepeats(created)
      ensures fillModel.nextOrder == old(fillModel.nextOrder) + |allowed|
      ensures forall o :: o in created ==> fresh(o) && o.status == o.terms.status == Submitted
    {
      created := [];
      var k := 0;
      while k < |allowed|
        invariant 0 <= k <= |allowed| && |created| == k
        invariant fillModel.nextOrder == old(fillModel.nextOrder) + k
        invariant forall j :: 0 <= j < k ==> created[j].terms == OrderFor(allowed[j], bar, old(fillModel.nextOrder) + j)
        invariant NoRepeats(created)
        invariant forall o :: o in created ==> fresh(o) && o.status == o.terms.status == Submitted
      {
        var o := fillModel.CreateOrder(allowed[k], bar);
        created := created + [o];
        k := k + 1;
      }
    }

    /** A seeded position takes its first open price, then the queue of the bar's symbol is filled. */
    method FillPhase(run: RunLocals, bar: Bar) returns (r: Result<FillPass, Error>, remaining: seq<SimulatedOrder>)
      requires Valid() && run.Valid()
      modifies run.portfolio, guard, fillModel`nextFill, run.Live()
      ensures var st := old(run.Model(guard, fillModel));
              r == FillPending(cfg, OpenPass(st, bar), Queue(st.pending, bar.symbol), bar)
      ensures r.Ok? ==>
                && run.portfolio.View() == r.value.ledger && guard.session == r.value.session
                   && fillModel.nextFill == r.value.nextFill
                && Terms(remaining) == r.value.remaining && NoRepeats(remaining)
                && (forall o :: o in remaining ==> o in Queue(run.pending, bar.symbol))
                && (forall o :: o in run.allOrders ==>
                      o.status == if o in Waiting(run.pending)
                        && (o in Queue(run.pending, bar.symbol) ==> o in remaining) then Submitted else Filled)
    {
      hide FillPending, AllCreated, SinkCalls, Waiting, NoRepeats, OneQueueEach, Terms, PendingTerms;
      ghost var st := run.Model(guard, fillModel);
      QueueWaits(run.pending, bar.symbol);
      var portfolio := run.portfolio;
      if bar.symbol in portfolio.positions && portfolio.positions[bar.symbol].entry.None? {
        portfolio.positions :=
          portfolio.positions[bar.symbol := portfolio.positions[bar.symbol].(entry := Some(bar.open))];
      }
      assert portfolio.View() == SeedEntry(st.ledger, bar.symbol, bar.open);
      var queue := if bar.symbol in run.pending then run.pending[bar.symbol] else [];
      assert forall o :: o in queue ==> o in run.Live();
      assert OpenPass(st, bar) == FillPass(portfolio.View(), guard.session, [], [], [], [], fillModel.nextFill);
      r, remaining := FillQueue(portfolio, queue, bar);
    }

    /** Evaluates the strategy on the bar, plans, filters, and turns what is allowed into orders. */
    method DecidePhase(run: RunLocals, bar: Bar) returns (r: Result<StepRecord, Error>, created: seq<SimulatedOrder>)
      requires Valid()
      modifies run`recent, run`seen, run`marks, guard, fillModel`nextOrder
      ensures var ledger := run.portfolio.View();
              var recent := Remembered(cfg.historyCap, old(Queue(run.recent, bar.symbol)), bar);
              var shown := Evaluation(bar, recent, OpenPositions(ledger), ledger.cash);
              var decision := strategy(old(run.seen) + [shown]);
              var marks := old(run.marks)[bar.symbol := bar.close];
              var session := Refreshed(old(guard.session), cfg.zoneOffset, bar.time, Equity(ledger, marks));
              var plan := Plan(cfg.venue, decision, shown.positions);
              var filtered :=
                if plan.Ok? then Filter(Scene(cfg.policy, cfg.costs, session, ledger, marks, bar), plan.value)
                  else Raised(PlanningError);
              if bar.symbol !in cfg.venue.universe then r == Raised(OutsideUniverse)
              else if plan.Raised? then r == Raised(plan.error)
              else if filtered.Raised? then r == Raised(filtered.error)
              else
                && r == Ok(StepRecord(run.groups, bar, [], [], [], SignalCount(decision, plan.value), plan.value,
                     filtered.value.outcomes,
                                      OrdersFor(filtered.value.allowed, bar, old(fillModel.nextOrder)),
                                        MarkOf(ledger, marks)))
                && run.recent == old(run.recent)[bar.symbol := recent] && run.seen == old(run.seen) + [shown]
                   && run.marks == marks
                && guard.session == session && fillModel.nextOrder == old(fillModel.nextOrder) + |r.value.created|
                && Terms(created) == r.value.created && NoRepeats(created)
                && forall o :: o in created ==> fresh(o) && o.status == o.terms.status == Submitted
    {
      hide Plan, Filter, Refreshed, Equity, MarkOf, OrdersFor;
      created := [];
      var recent := Remembered(cfg.historyCap, if bar.symbol in run.recent then run.recent[bar.symbol] else [], bar);
      if bar.symbol !in cfg.venue.universe {
        return Raised(OutsideUniverse), created;
      }
      var positions := OpenPositions(run.portfolio.View());
      var shown := Evaluation(bar, recent, positions, run.portfolio.cash);
      run.recent := run.recent[bar.symbol := recent];
      run.seen := run.seen + [shown];
      var decision := strategy(run.seen);
      var plan := lifecycle.PlanFromDecision(decision, positions);
      if plan.Raised? {
        return Raised(plan.error), created;
      }
      var filtered, marks := guard.FilterExecutionIntents(plan.value, bar, run.portfolio, run.marks);
      run.marks := marks;
      if filtered.Raised? {
        return Raised(filtered.error), created;
      }
      OrdersForIds(filtered.value.allowed, bar, fillModel.nextOrder);
      created := CreateOrders(filtered.value.allowed, bar);
      var mark := run.portfolio.MarkToMarket(run.marks);
      r := Ok(StepRecord(run.groups, bar, [], [], [], SignalCount(decision, plan.value), plan.value,
          filtered.value.outcomes, Terms(created), mark));
    }

    /** One bar, exactly as the pure step does it. */
    method ProcessBar(run: RunLocals, bar: Bar) returns (r: Result<StepRecord, Error>)
      requires Valid() && run.Valid()
      modifies run, run.portfolio, guard, fillModel, run.Live()
      ensures var spec := StepBar(cfg, strategy, old(run.Model(guard, fillModel)), bar);
              if spec.Raised? then r == Raised(spec.error)
              else
                && r.Ok? && run.Valid() && run.Model(guard, fillModel) == spec.value
                && run.steps == old(run.steps) + [r.value] && run.points == old(run.points)
      ensures fresh(run.Live() - old(run.Live()))
    {
      hide FillPending, Plan, Filter, Refreshed, Equity, MarkOf, OrdersFor, AllCreated, SinkCalls, Remembered,
        OpenPositions, Terms, PendingTerms, Waiting, NoRepeats, OneQueueEach;
      ghost var st := run.Model(guard, fillModel);
      var pass, remaining := FillPhase(run, bar);
      if pass.Raised? {
        return Raised(pass.error);
      }
      var step, created := DecidePhase(run, bar);
      if step.Raised? {
        return Raised(step.error);
      }
      var record := step.value.(filled := pass.value.filled, fills := pass.value.fills, applied := pass.value.applied);
      Commit(run, record, remaining, created);
      r := Ok(record);
    }

    /** Calls the sinks and files the new orders behind those still waiting. */
    method Commit(run: RunLocals, record: StepRecord, remaining: seq<SimulatedOrder>, created: seq<SimulatedOrder>)
      requires NoRepeats(remaining) && NoRepeats(created) && Terms(created) == record.created
      requires run.groups == |run.points| && OneQueueEach(run.pending) && Waiting(run.pending) <= run.Live()
      requires Terms(run.allOrders) == AllCreated(run.steps) && run.sinkCalls == SinkCalls(run.steps)
      requires forall o :: o in remaining ==> o in Queue(run.pending, record.bar.symbol)
      requires forall o :: o in created ==> o !in run.allOrders && o.status == o.terms.status == Submitted
      requires forall o :: o in run.allOrders ==>
                 && o.terms.status.Submitted?
                 && o.status ==
                    if o in Waiting(run.pending)
                      && (o in Queue(run.pending, record.bar.symbol) ==> o in remaining) then Submitted else Filled
      modifies run
      ensures run.Valid()
      ensures run.steps == old(run.steps) + [record] && run.allOrders == old(run.allOrders) + created
      ensures PendingTerms(run.pending) ==
              old(PendingTerms(run.pending))[record.bar.symbol := Terms(remaining) + record.created]
      ensures unchanged(run`recent, run`seen, run`marks, run`groups, run`peak, run`maxDrawdown, run`points)
    {
      hide AllCreated, SinkCalls, OneQueueEach, NoRepeats, Waiting, Terms, PendingTerms;
      ghost var before := run.pending;
      LogAppends(run.steps, record);
      run.allOrders := run.allOrders + created;
      CallSinks(run, record);
      run.pending := run.pending[record.bar.symbol := remaining + created];
      run.steps := run.steps + [record];
      Requeue(before, record.bar.symbol, remaining, created);
      TermsAppend(old(run.allOrders), created);
      RequeueTerms(before, record.bar.symbol, remaining, created);
      assert run.Live() == old(run.Live()) + Members(created);
    }

    /** The calls to the fill and order sinks for one bar; a sink is not called with nothing. */
    method CallSinks(run: RunLocals, record: StepRecord)
      modifies run`sinkCalls
      ensures run.sinkCalls == old(run.sinkCalls) + CallsOf(record)
    {
      if record.fills != [] {
        run.sinkCalls := run.sinkCalls + [FillsSunk(record.fills)];
      }
      if record.filled != [] {
        run.sinkCalls := run.sinkCalls + [StatusesSunk(WithStatus(record.filled, Filled))];
      }
      if record.created != [] {
        run.sinkCalls := run.sinkCalls + [OrdersSunk(record.created)];
      }
    }

    /** Takes the performance point of a completed bar time. */
    method CompleteGroup(run: RunLocals, time: Instant) returns (point: Point)
      requires run.Valid()
      modifies run`peak, run`maxDrawdown, run`groups, run`points, guard
      ensures run.Valid() && run.Model(guard, fillModel) == CloseGroup(old(run.Model(guard, fillModel)), time)
      ensures run.points == old(run.points) + [point]
    {
      hide MarkOf, DrawdownFrom, AllCreated, SinkCalls, OneQueueEach;
      var mark := run.portfolio.MarkToMarket(run.marks);
      point := PointAt(time, mark, run.peak);
      run.peak := Max(run.peak, mark.equity);
      run.maxDrawdown := Max(run.maxDrawdown, point.drawdown);
      run.groups := run.groups + 1;
      run.points := run.points + [point];
      guard.CompleteBar();
    }

    method StepAndTrace(
      run: RunLocals, bar: Bar, emitter: TraceEmitter, options: RunOptions)
      returns (error: Option<Error>)
      requires Valid() && run.Valid() && emitter.Valid()
      requires emitter.fed == if options.captureTraces then TraceItems(options.trace, run.steps) else []
      modifies run, run.portfolio, guard, fillModel, run.Live(), emitter, emitter.span, emitter.sink
      ensures var spec := StepBar(cfg, strategy, old(run.Model(guard, fillModel)), bar);
              if spec.Raised? then error == Some(spec.error)
              else
                && error == None && run.Valid() && run.Model(guard, fillModel) == spec.value
                && run.points == old(run.points)
      ensures emitter.Valid()
      ensures error == None ==>
                emitter.fed == if options.captureTraces then TraceItems(options.trace, run.steps) else []
      ensures fresh(run.Live() - old(run.Live()))
              && (emitter.span == null || emitter.span == old(emitter.span) || fresh(emitter.span))
    {
      hide StepBar, AllCreated, SinkCalls, OneQueueEach, Waiting, TraceItem, TraceItems, Compressed, Uncompressed,
        SpanOf, AllQuiet, Concat;
      ghost var steps := run.steps;
      var step := ProcessBar(run, bar);
      if step.Raised? {
        return Some(step.error);
      }
      if options.captureTraces {
        TraceItemsAppend(options.trace, steps, step.value);
        emitter.Feed(TraceItem(options.trace, step.value, |run.steps|));
      }
      error := None;
    }

    /** All bars of one time; the trace sees each step as it happens. */
    method ProcessGroup(
      run: RunLocals, bars: seq<Bar>, from: nat, emitter: TraceEmitter, options: RunOptions, ghost st0: RunState)
      returns (r: Result<nat, Error>)
      requires Valid() && run.Valid() && emitter.Valid()
      requires st0.steps == [] && st0.seen == []
      requires from < |bars| && Before(cfg, strategy, st0, bars, from) == Ok(run.Model(guard, fillModel))
      requires emitter.fed == if options.captureTraces then TraceItems(options.trace, run.steps) else []
      modifies run, run.portfolio, guard, fillModel, run.Live(), emitter, emitter.span, emitter.sink
      ensures r.Raised? ==> Run(cfg, strategy, st0, bars) == Raised(r.error)
      ensures r.Ok? ==>
                && run.Valid() && emitter.Valid() && from < r.value <= |bars|
                && Stepped(cfg, strategy, st0, bars, r.value) == Ok(run.Model(guard, fillModel))
                && bars[r.value - 1].time == bars[from].time && run.points == old(run.points)
                && (r.value < |bars| ==> GroupEnds(bars, r.value))
                && emitter.fed == if options.captureTraces then TraceItems(options.trace, run.steps) else []
      ensures fresh(run.Live() - old(run.Live()))
              && (emitter.span == null || emitter.span == old(emitter.span) || fresh(emitter.span))
    {
      hide StepBar, CloseGroup, Stepped, Before, AllCreated, SinkCalls, OneQueueEach, Waiting, TraceItem, TraceItems,
        Compressed, Uncompressed, SpanOf, AllQuiet, Concat, RunLocals.Valid, RunLocals.Model, TraceEmitter.Valid;
      var time := bars[from].time;
      var i := from;
      while i < |bars| && bars[i].time == time
        invariant from <= i <= |bars| && run.Valid() && emitter.Valid()
        invariant i < |bars| && bars[i].time == time ==>
                  Before(cfg, strategy, st0, bars, i) == Ok(run.Model(guard, fillModel))
        invariant i > from ==>
                  Stepped(cfg, strategy, st0, bars, i) == Ok(run.Model(guard, fillModel)) && bars[i - 1].time == time
        invariant emitter.fed == if options.captureTraces then TraceItems(options.trace, run.steps) else []
        invariant fresh(run.Live() - old(run.Live())) && run.points == old(run.points)
        invariant emitter.span == null || emitter.span == old(emitter.span) || fresh(emitter.span)
      {
        ghost var st := run.Model(guard, fillModel);
        SteppingOn(cfg, strategy, st0, bars, i, st);
        var error := StepAndTrace(run, bars[i], emitter, options);
        if error.Some? {
          RaisedStays(cfg, strategy, st0, bars, i + 1, |bars|);
          RaisedRun(cfg, strategy, st0, bars);
          return Raised(error.value);
        }
        i := i + 1;
      }
      r := Ok(i);
    }

    method ExpireQueue(queue: seq<SimulatedOrder>)
      requires forall o :: o in queue ==> o.status.Submitted? || o.status.Expired?
      modifies queue
      ensures forall o :: o in queue ==> o.status.Expired?
    {
      var k := 0;
      while k < |queue|
        invariant 0 <= k <= |queue|
        invariant forall o :: o in queue ==> o.status.Submitted? || o.status.Expired?
        invariant forall j :: 0 <= j < k ==> queue[j].status.Expired?
      {
        DeterministicBarsFillModel.ExpireOpenOrder(queue[k]);
        k := k + 1;
      }
    }

    /** At the end of the run every order that still waits expires. */
    method ExpireOpenOrders(run: RunLocals) returns (open: seq<SimulatedOrder>)
      requires run.Valid()
      modifies run.Live(), run`sinkCalls
      ensures Members(open) == Waiting(run.pending)
      ensures forall o :: o in open ==> o in run.allOrders
      ensures forall o :: o in run.allOrders ==> o.status == if o in open then Expired else Filled
      ensures run.sinkCalls ==
              old(run.sinkCalls) + if open == [] then [] else [StatusesSunk(WithStatus(Terms(open), Expired))]
    {
      hide AllCreated, SinkCalls, Terms, WithStatus;
      open := [];
      ghost var waiting := Waiting(run.pending);
      var rest := run.pending.Keys;
      while rest != {}
        invariant rest <= run.pending.Keys && waiting <= run.Live() && run.sinkCalls == old(run.sinkCalls)
        invariant forall s, o :: s in run.pending && o in run.pending[s] ==>
                  (s in rest ==> o !in open) && (s !in rest ==> o in open)
        invariant forall o :: o in open ==> o in waiting
        invariant forall o :: o in run.allOrders ==>
                    o.status == if o in open then Expired else if o in waiting then Submitted else Filled
      {
        var s :| s in rest;
        var queue := run.pending[s];
        assert forall o :: o in queue ==> o in waiting && o in run.Live();
        ExpireQueue(queue);
        open := open + queue;
        rest := rest - {s};
      }
      if open != [] {
        run.sinkCalls := run.sinkCalls + [StatusesSunk(WithStatus(Terms(open), Expired))];
      }
    }

    /** After the last bar: expire what is open, flush what is buffered, and summarize. */
    method Finish(
      run: RunLocals, pointSink: ChunkedSink?<Point>, emitter: TraceEmitter, points: seq<Point>,
      latest: Option<Point>, horizon: Horizon, options: RunOptions)
      returns (r: RunResult)
      requires Valid() && run.Valid() && emitter.Valid() && emitter.compress == options.trace.compress
               && emitter.collect == options.collectTraces
      requires emitter.fed == if options.captureTraces then TraceItems(options.trace, run.steps) else []
      requires points == if options.collectPoints then run.points else []
      requires latest == LatestPoint(run.points)
      requires SinkHolds(pointSink, options.pointChunk, run.points)
      requires emitter.sink != null <==> options.traceChunk.Some?
      requires emitter.sink != null ==> emitter.sink.chunkSize == options.traceChunk.value
      requires SummarizeLatest(horizon, latest, run.maxDrawdown) == Summarize(horizon, run.points)
      modifies run.Live(), run`sinkCalls, pointSink, emitter, emitter.sink
      ensures Reports(r, old(run.Model(guard, fillModel)), horizon, options)
    {
      hide AllCreated, SinkCalls, OneQueueEach, TraceItems, Compressed, Uncompressed, SpanOf, AllQuiet, Waiting,
        Terms, Members, Summarize,
        SummarizeLatest, WithStatus, OpenPositions, Pends, ReportsChunks, ReportsTraces, SinkHolds, Trace,
        TraceEmitter.Valid;
      ghost var st := run.Model(guard, fillModel);
      var traces, traceCount, traceChunks := FlushTraces(emitter, options, run.steps);
      var pointChunks := FlushPoints(pointSink, options.pointChunk, run.points);
      var open := ExpireOpenOrders(run);
      OpenTermsPend(open, run.pending, st);
      var summary :=
        if options.collectPoints then Summarize(horizon, points) else SummarizeLatest(horizon, latest, run.maxDrawdown);
      r := RunResult(run.steps, OpenPositions(run.portfolio.View()), run.portfolio.cash, run.allOrders, open,
          run.sinkCalls,
                     points, pointChunks, traces, traceCount, traceChunks, summary);
    }

    method OpenPointSink(chunkSize: Option<int>) returns (sink: ChunkedSink?<Point>)
      ensures SinkHolds(sink, chunkSize, []) && (sink != null ==> fresh(sink))
    {
      sink := null;
      if chunkSize.Some? {
        sink := new ChunkedSink<Point>(chunkSize.value);
      }
    }

    method PushPoint(sink: ChunkedSink?<Point>, point: Point, ghost chunkSize: Option<int>, ghost all: seq<Point>)
      requires SinkHolds(sink, chunkSize, all)
      modifies sink
      ensures SinkHolds(sink, chunkSize, all + [point])
    {
      if sink != null {
        sink.Push(point);
      }
    }

    method FlushPoints(
      sink: ChunkedSink?<Point>, chunkSize: Option<int>, ghost all: seq<Point>)
      returns (chunks: seq<seq<Point>>)
      requires SinkHolds(sink, chunkSize, all)
      modifies sink
      ensures ReportsChunks(chunks, all, chunkSize)
    {
      chunks := [];
      if sink != null {
        sink.Flush();
        chunks := sink.delivered;
      }
    }

    method FlushTraces(emitter: TraceEmitter, options: RunOptions, ghost steps: seq<StepRecord>)
      returns (traces: seq<Record>, count: nat, chunks: seq<seq<Record>>)
      requires emitter.Valid() && emitter.compress == options.trace.compress && emitter.collect == options.collectTraces
      requires emitter.fed == if options.captureTraces then TraceItems(options.trace, steps) else []
      requires emitter.sink != null <==> options.traceChunk.Some?
      requires emitter.sink != null ==> emitter.sink.chunkSize == options.traceChunk.value
      modifies emitter, emitter.sink
      ensures ReportsTraces(traces, count, chunks, if options.captureTraces then Trace(options.trace, steps)
                else [], options)
    {
      hide TraceItems, Compressed, Uncompressed;
      emitter.FlushQuietSpan();
      NothingTraced(options.trace);
      traces, count, chunks := emitter.collected, emitter.count, [];
      if emitter.sink != null {
        emitter.sink.Flush();
        chunks := emitter.sink.delivered;
      }
    }

    /** One bar time: its bars, its performance point, and the sink of points. */
    method RunGroup(
      run: RunLocals, bars: seq<Bar>, from: nat, emitter: TraceEmitter, pointSink: ChunkedSink?<Point>,
      options: RunOptions, ghost st0: RunState)
      returns (r: Result<nat, Error>, point: Option<Point>)
      requires Valid() && run.Valid() && emitter.Valid() && st0.steps == [] && st0.seen == []
      requires from < |bars| && (from > 0 ==> GroupEnds(bars, from))
      requires Closed(cfg, strategy, st0, bars, from) == Ok(run.Model(guard, fillModel))
      requires emitter.fed == if options.captureTraces then TraceItems(options.trace, run.steps) else []
      requires SinkHolds(pointSink, options.pointChunk, run.points) && Apart(pointSink, emitter.sink)
      modifies run, run.portfolio, guard, fillModel, run.Live(), emitter, emitter.span, emitter.sink, pointSink
      ensures r.Raised? ==> Run(cfg, strategy, st0, bars) == Raised(r.error)
      ensures r.Ok? ==>
                && run.Valid() && emitter.Valid() && from < r.value <= |bars|
                   && (r.value < |bars| ==> GroupEnds(bars, r.value))
                && Closed(cfg, strategy, st0, bars, r.value) == Ok(run.Model(guard, fillModel))
                && emitter.fed == (if options.captureTraces then TraceItems(options.trace, run.steps) else [])
                && point.Some? && run.points == old(run.points) + [point.value]
                && SinkHolds(pointSink, options.pointChunk, run.points)
      ensures fresh(run.Live() - old(run.Live()))
              && (emitter.span == null || emitter.span == old(emitter.span) || fresh(emitter.span))
    {
      hide StepBar, CloseGroup, Stepped, Before, AllCreated, SinkCalls, OneQueueEach, TraceItem, TraceItems,
        Compressed, Uncompressed,
        SpanOf, AllQuiet, Concat, Waiting, Closed, SinkHolds, TraceEmitter.Valid, TraceEmitter.SinkInStep,
        RunLocals.Valid, RunLocals.Model;
      ClosedGroups(cfg, strategy, st0, bars, from);
      r := ProcessGroup(run, bars, from, emitter, options, st0);
      point := None;
      if r.Ok? {
        var taken := ReportGroup(run, bars[from].time, pointSink, options);
        ClosedGroups(cfg, strategy, st0, bars, r.value);
        point := Some(taken);
      }
    }

    method ReportGroup(
      run: RunLocals, time: Instant, pointSink: ChunkedSink?<Point>, options: RunOptions)
      returns (point: Point)
      requires run.Valid() && SinkHolds(pointSink, options.pointChunk, run.points)
      modifies run`peak, run`maxDrawdown, run`groups, run`points, guard, pointSink
      ensures run.Valid() && run.Model(guard, fillModel) == CloseGroup(old(run.Model(guard, fillModel)), time)
      ensures run.points == old(run.points) + [point] && SinkHolds(pointSink, options.pointChunk, run.points)
    {
      hide CloseGroup, AllCreated, SinkCalls, OneQueueEach, Waiting, Terms;
      ghost var points := run.points;
      point := CompleteGroup(run, time);
      PushPoint(pointSink, point, options.pointChunk, points);
    }

    /** The outer loop: bar time by bar time, collecting the points asked for and the latest one. */
    method RunGroups(
      run: RunLocals, bars: seq<Bar>, emitter: TraceEmitter, pointSink: ChunkedSink?<Point>, options: RunOptions,
      ghost st0: RunState)
      returns (r: Result<(seq<Point>, Option<Point>), Error>)
      requires Valid() && run.Valid() && emitter.Valid() && st0.steps == [] && st0.seen == [] && run.points == []
               && run.Live() == {}
      requires st0 == run.Model(guard, fillModel)
      requires emitter.fed == (if options.captureTraces then TraceItems(options.trace, run.steps) else [])
               && emitter.span == null
      requires SinkHolds(pointSink, options.pointChunk, run.points) && Apart(pointSink, emitter.sink)
      modifies run, run.portfolio, guard, fillModel, run.Live(), emitter, emitter.sink, pointSink
      ensures r.Raised? ==> Run(cfg, strategy, st0, bars) == Raised(r.error)
      ensures r.Ok? ==>
                && run.Valid() && emitter.Valid() && fresh(run.Live())
                && Run(cfg, strategy, st0, bars) == Ok(run.Model(guard, fillModel))
                && emitter.fed == (if options.captureTraces then TraceItems(options.trace, run.steps) else [])
                && r.value.0 == (if options.collectPoints then run.points else [])
                   && r.value.1 == LatestPoint(run.points)
                && SinkHolds(pointSink, options.pointChunk, run.points)
    {
      hide StepBar, CloseGroup, Stepped, Before, AllCreated, SinkCalls, OneQueueEach, TraceItem, TraceItems,
        Compressed, Uncompressed,
        SpanOf, AllQuiet, Concat, Waiting, Closed, Members, SinkHolds, RunLocals.Valid, TraceEmitter.Valid;
      var points: seq<Point>, latest: Option<Point> := [], None;
      ClosedGroups(cfg, strategy, st0, bars, 0);
      var i := 0;
      while i < |bars|
        invariant 0 <= i <= |bars| && run.Valid() && emitter.Valid() && fresh(run.Live())
        invariant 0 < i < |bars| ==> GroupEnds(bars, i)
        invariant Closed(cfg, strategy, st0, bars, i) == Ok(run.Model(guard, fillModel))
        invariant emitter.fed == if options.captureTraces then TraceItems(options.trace, run.steps) else []
        invariant emitter.span != null ==> fresh(emitter.span)
        invariant points == if options.collectPoints then run.points else []
        invariant SinkHolds(pointSink, options.pointChunk, run.points) && latest == LatestPoint(run.points)
      {
        var next, point := RunGroup(run, bars, i, emitter, pointSink, options, st0);
        if next.Raised? {
          return Raised(next.error);
        }
        latest := point;
        if options.collectPoints {
          points := points + [point.value];
        }
        i := next.value;
      }
      r := Ok((points, latest));
    }

    /** The state a run begins with, and its sinks. */
    method Open(initialCash: real, seeds: map<Symbol, real>, options: RunOptions)
      returns (run: RunLocals, pointSink: ChunkedSink?<Point>, emitter: TraceEmitter)
      requires Valid()
      ensures fresh(run) && fresh(run.portfolio) && run.Valid() && run.points == [] && run.steps == []
              && run.Live() == {}
      ensures run.Model(guard, fillModel) ==
              Start(initialCash, seeds, guard.session, fillModel.nextOrder, fillModel.nextFill)
      ensures fresh(emitter) && emitter.Valid() && emitter.fed == [] && emitter.span == null
      ensures emitter.compress == options.trace.compress && emitter.collect == options.collectTraces
      ensures emitter.sink != null <==> options.traceChunk.Some?
      ensures emitter.sink != null ==> fresh(emitter.sink) && emitter.sink.chunkSize == options.traceChunk.value
      ensures SinkHolds(pointSink, options.pointChunk, []) && Apart(pointSink, emitter.sink)
      ensures pointSink != null ==> fresh(pointSink)
    {
      hide AllCreated, SinkCalls, OneQueueEach, Compressed, Uncompressed, SpanOf, AllQuiet, Waiting;
      run := new RunLocals(initialCash, seeds);
      pointSink := OpenPointSink(options.pointChunk);
      var traceSink: ChunkedSink?<Record> := null;
      if options.traceChunk.Some? {
        traceSink := new ChunkedSink<Record>(options.traceChunk.value);
      }
      emitter := new TraceEmitter(options.trace.compress, options.collectTraces, traceSink);
      assert run.Live() == {};
    }

    method RunBars(
      bars: seq<Bar>, seeds: map<Symbol, real>, horizon: Horizon, options: RunOptions)
      returns (r: Result<RunResult, Error>)
      requires Valid()
      modifies guard, fillModel
      ensures var st0 :=
              Start(horizon.initialCash, seeds, old(guard.session), old(fillModel.nextOrder), old(fillModel.nextFill));
              var run := Run(cfg, strategy, st0, bars);
              if run.Raised? then r == Raised(run.error)
              else r.Ok? && Reports(r.value, run.value, horizon, options)
                   && guard.session == run.value.session && fillModel.nextOrder == run.value.nextOrder
                      && fillModel.nextFill == run.value.nextFill
    {
      hide StepBar, CloseGroup, Stepped, Before, AllCreated, SinkCalls, OneQueueEach, TraceItem, TraceItems,
        Compressed, Uncompressed,
        SpanOf, AllQuiet, Concat, Waiting, Closed, Members, Summarize, SummarizeLatest, Reports, SinkHolds,
          RunLocals.Valid, TraceEmitter.Valid;
      ghost var st0 := Start(horizon.initialCash, seeds, guard.session, fillModel.nextOrder, fillModel.nextFill);
      var run, pointSink, emitter := Open(horizon.initialCash, seeds, options);
      NothingTraced(options.trace);
      ClosedGroups(cfg, strategy, st0, bars, 0);
      var looped := RunGroups(run, bars, emitter, pointSink, options, st0);
      if looped.Raised? {
        return Raised(looped.error);
      }
      StreamedSummaryIsTheSummary(cfg, strategy, st0, bars, horizon);
      var result := Finish(run, pointSink, emitter, looped.value.0, looped.value.1, horizon, options);
      r := Ok(result);
    }
  }
}
