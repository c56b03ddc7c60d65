/** Every created order has its own id and ends in exactly one way: filled once, by a later bar, or still pending. */
module RunOrders {
  import opened Market
  import opened Portfolio
  import opened Lifecycle
  import opened Fills
  import opened Risk
  import opened RunSpec
  import opened RunLaws

  function AllCreated(steps: seq<StepRecord>): seq<Order> {
    if steps == [] then [] else AllCreated(steps[..|steps| - 1]) + steps[|steps| - 1].created
  }

  function AllFills(steps: seq<StepRecord>): seq<Fill> {
    if steps == [] then [] else AllFills(steps[..|steps| - 1]) + steps[|steps| - 1].fills
  }

  /** Orders created, and orders filled, on bars of one symbol. */
  function CreatedOn(steps: seq<StepRecord>, s: Symbol): seq<Order> {
    if steps == [] then []
    else
      CreatedOn(steps[..|steps| - 1], s) +
      if steps[|steps| - 1].bar.symbol == s then steps[|steps| - 1].created else []
  }

  function FilledOn(steps: seq<StepRecord>, s: Symbol): seq<Order> {
    if steps == [] then []
    else
      FilledOn(steps[..|steps| - 1], s) +
      if steps[|steps| - 1].bar.symbol == s then steps[|steps| - 1].filled else []
  }

  /** Ids count up from `first` without gaps. */
  predicate OrderIdsFrom(orders: seq<Order>, first: nat) {
    forall k :: 0 <= k < |orders| ==> orders[k].id == first + k
  }

  predicate FillIdsFrom(fills: seq<Fill>, first: nat) {
    forall k :: 0 <= k < |fills| ==> fills[k].id == first + k
  }

  /** The fills are, one by one, those of the orders taken out of the queue of the bar's symbol. */
  predicate FillsCarry(filled: seq<Order>, fills: seq<Fill>, applied: seq<FillOutcome>, bar: Bar) {
    && |fills| == |filled| == |applied|
    && forall k :: 0 <= k < |fills| ==>
         && fills[k].orderId == filled[k].id
         && fills[k].symbol == filled[k].symbol == bar.symbol
         && fills[k].side == filled[k].side
         && fills[k].qty == filled[k].qty
         && fills[k].time == bar.time
  }

  predicate FillsMatch(r: StepRecord) {
    FillsCarry(r.filled, r.fills, r.applied, r.bar)
  }

  /** The order was created on an earlier bar of the same symbol. */
  predicate CreatedBefore(steps: seq<StepRecord>, j: nat, o: Order)
    requires j < |steps|
  {
    exists i :: 0 <= i < j && steps[i].bar.symbol == steps[j].bar.symbol && o in steps[i].created
  }

  predicate Numbered(st: RunState, firstOrder: nat, firstFill: nat) {
    && OrderIdsFrom(AllCreated(st.steps), firstOrder) && st.nextOrder == firstOrder + |AllCreated(st.steps)|
    && FillIdsFrom(AllFills(st.steps), firstFill) && st.nextFill == firstFill + |AllFills(st.steps)|
  }

  predicate SplitFor(st: RunState, s: Symbol) {
    multiset(CreatedOn(st.steps, s)) == multiset(FilledOn(st.steps, s)) + multiset(Queue(st.pending, s))
  }

  ghost predicate Split(st: RunState) {
    forall s :: SplitFor(st, s)
  }

  predicate Sourced(steps: seq<StepRecord>) {
    forall j :: 0 <= j < |steps| ==> FillsMatch(steps[j]) && forall o :: o in steps[j].filled ==>
      CreatedBefore(steps, j, o)
  }

  ghost predicate Conserved(st: RunState, firstOrder: nat, firstFill: nat) {
    Numbered(st, firstOrder, firstFill) && Split(st) && Sourced(st.steps)
  }

  // ----- One pass over a queue -----

  predicate PassMatches(pass: FillPass, bar: Bar) {
    FillsCarry(pass.filled, pass.fills, pass.applied, bar)
  }

  lemma OneOrderMatches(cfg: RunConfig, pass: FillPass, o: Order, bar: Bar, first: nat)
    requires EntryKnown(pass.ledger, bar.symbol) && FillOne(cfg, pass, o, bar).Ok?
    requires PassMatches(pass, bar) && FillIdsFrom(pass.fills, first) && pass.nextFill == first + |pass.fills|
    ensures var end := FillOne(cfg, pass, o, bar).value;
            && PassMatches(end, bar) && FillIdsFrom(end.fills, first) && end.nextFill == first + |end.fills|
            && multiset(end.filled) + multiset(end.remaining) ==
               multiset(pass.filled) + multiset(pass.remaining) + multiset{o}
  {
    hide Process, Booked, FillOutcomeOf, Observed, EntryKnown;
    if Process(cfg.costs, o, bar, pass.nextFill).value.Some? {
      FillSymbol(cfg.costs, o, bar, pass.nextFill);
    }
  }

  /** A pass splits the queue into filled and remaining orders and numbers its fills consecutively. */
  lemma {:induction false} PassSplitsQueue(cfg: RunConfig, start: FillPass, queue: seq<Order>, bar: Bar)
    requires EntryKnown(start.ledger, bar.symbol) && FillPending(cfg, start, queue, bar).Ok?
    requires start.filled == [] && start.fills == [] && start.applied == [] && start.remaining == []
    ensures var end := FillPending(cfg, start, queue, bar).value;
            && multiset(queue) == multiset(end.filled) + multiset(end.remaining)
            && PassMatches(end, bar)
            && FillIdsFrom(end.fills, start.nextFill) && end.nextFill == start.nextFill + |end.fills|
  {
    hide FillOne, EntryKnown;
    if queue != [] {
      hide PassMatches, FillIdsFrom;
      var init, o := queue[..|queue| - 1], queue[|queue| - 1];
      assert queue == init + [o];
      PassSplitsQueue(cfg, start, init, bar);
      OneOrderMatches(cfg, FillPending(cfg, start, init, bar).value, o, bar, start.nextFill);
    }
  }

  lemma OrdersForIds(allowed: seq<Intent>, bar: Bar, nextOrder: nat)
    ensures OrderIdsFrom(OrdersFor(allowed, bar, nextOrder), nextOrder)
            && |OrdersFor(allowed, bar, nextOrder)| == |allowed|
  {
  }

  /** The record a step appends, and what becomes of the queue of its symbol. */
  lemma StepSplitsQueue(
    cfg: RunConfig, strategy: Strategy, st: RunState, bar: Bar)
    returns (r: StepRecord, rest: seq<Order>)
    requires StepBar(cfg, strategy, st, bar).Ok?
    ensures var after := StepBar(cfg, strategy, st, bar).value;
            && after.steps == st.steps + [r] && r.bar == bar
            && FillsMatch(r)
            && OrderIdsFrom(r.created, st.nextOrder) && after.nextOrder == st.nextOrder + |r.created|
            && FillIdsFrom(r.fills, st.nextFill) && after.nextFill == st.nextFill + |r.fills|
            && multiset(Queue(st.pending, bar.symbol)) == multiset(r.filled) + multiset(rest)
            && Queue(after.pending, bar.symbol) == rest + r.created
            && (forall s :: s != bar.symbol ==> Queue(after.pending, s) == Queue(st.pending, s))
  {
    hide StepBar, FillPending, Filter, Plan, SceneAt, MarkOf, OrdersFor, Shown;
    var pass, intents, filtered := StepParts(cfg, strategy, st, bar);
    PassSplitsQueue(cfg, OpenPass(st, bar), Queue(st.pending, bar.symbol), bar);
    OrdersForIds(filtered.allowed, bar, st.nextOrder);
    var after := StepBar(cfg, strategy, st, bar).value;
    r, rest := after.steps[|st.steps|], pass.remaining;
  }

  // ----- The log -----

  /** An order of a queue was created on an earlier bar of that queue's symbol. */
  lemma {:induction false} CreatedOnSource(steps: seq<StepRecord>, s: Symbol, o: Order)
    requires o in CreatedOn(steps, s)
    ensures exists i :: 0 <= i < |steps| && steps[i].bar.symbol == s && o in steps[i].created
  {
    var init, last := steps[..|steps| - 1], steps[|steps| - 1];
    if last.bar.symbol == s && o in last.created {
    } else {
      CreatedOnSource(init, s, o);
      var i :| 0 <= i < |init| && init[i].bar.symbol == s && o in init[i].created;
      assert steps[i] == init[i];
    }
  }

  lemma FilledWasCreated(st: RunState, s: Symbol, filled: seq<Order>, rest: seq<Order>, o: Order) returns (i: nat)
    requires SplitFor(st, s) && multiset(Queue(st.pending, s)) == multiset(filled) + multiset(rest) && o in filled
    ensures i < |st.steps| && st.steps[i].bar.symbol == s && o in st.steps[i].created
  {
    assert o in multiset(filled);
    assert o in multiset(CreatedOn(st.steps, s));
    CreatedOnSource(st.steps, s, o);
    i :| 0 <= i < |st.steps| && st.steps[i].bar.symbol == s && o in st.steps[i].created;
  }

  lemma StepNumbers(st: RunState, after: RunState, r: StepRecord, firstOrder: nat, firstFill: nat)
    requires Numbered(st, firstOrder, firstFill) && after.steps == st.steps + [r]
    requires OrderIdsFrom(r.created, st.nextOrder) && after.nextOrder == st.nextOrder + |r.created|
    requires FillIdsFrom(r.fills, st.nextFill) && after.nextFill == st.nextFill + |r.fills|
    ensures Numbered(after, firstOrder, firstFill)
  {
    assert after.steps[..|st.steps|] == st.steps;
  }

  lemma StepSplits(st: RunState, after: RunState, r: StepRecord, rest: seq<Order>, s: Symbol)
    requires SplitFor(st, s) && after.steps == st.steps + [r]
    requires r.bar.symbol == s ==>
             multiset(Queue(st.pending, s)) == multiset(r.filled) + multiset(rest)
               && Queue(after.pending, s) == rest + r.created
    requires r.bar.symbol != s ==> Queue(after.pending, s) == Queue(st.pending, s)
    ensures SplitFor(after, s)
  {
    assert after.steps[..|st.steps|] == st.steps;
    if r.bar.symbol != s {
      assert CreatedOn(st.steps, s) + [] == CreatedOn(st.steps, s)
        && FilledOn(st.steps, s) + [] == FilledOn(st.steps, s);
    }
  }

  lemma StepSources(st: RunState, after: RunState, r: StepRecord, rest: seq<Order>)
    requires Sourced(st.steps) && SplitFor(st, r.bar.symbol) && after.steps == st.steps + [r] && FillsMatch(r)
    requires multiset(Queue(st.pending, r.bar.symbol)) == multiset(r.filled) + multiset(rest)
    ensures Sourced(after.steps)
  {
    hide SplitFor, FillsMatch;
    forall j, o | 0 <= j < |after.steps| && o in after.steps[j].filled ensures CreatedBefore(after.steps, j, o) {
      if j < |st.steps| {
        assert CreatedBefore(st.steps, j, o);
        var i :| 0 <= i < j && st.steps[i].bar.symbol == st.steps[j].bar.symbol && o in st.steps[i].created;
        assert after.steps[i] == st.steps[i] && after.steps[j] == st.steps[j];
      } else {
        var i := FilledWasCreated(st, r.bar.symbol, r.filled, rest, o);
        assert after.steps[i] == st.steps[i];
      }
    }
    forall j | 0 <= j < |after.steps| ensures FillsMatch(after.steps[j]) {
      if j < |st.steps| {
        assert FillsMatch(st.steps[j]);
      }
    }
  }

  lemma StepConserves(cfg: RunConfig, strategy: Strategy, st: RunState, bar: Bar, firstOrder: nat, firstFill: nat)
    requires StepBar(cfg, strategy, st, bar).Ok? && Conserved(st, firstOrder, firstFill)
    ensures Conserved(StepBar(cfg, strategy, st, bar).value, firstOrder, firstFill)
  {
    hide StepBar, Numbered, SplitFor, Sourced, FillsMatch;
    var after := StepBar(cfg, strategy, st, bar).value;
    var r, rest := StepSplitsQueue(cfg, strategy, st, bar);
    StepNumbers(st, after, r, firstOrder, firstFill);
    forall s ensures SplitFor(after, s) {
      StepSplits(st, after, r, rest, s);
    }
    StepSources(st, after, r, rest);
  }

  lemma {:induction false} RunConserves(cfg: RunConfig, strategy: Strategy, st0: RunState, bars: seq<Bar>, n: nat)
    requires st0.steps == [] && st0.pending == map[]
    requires n <= |bars| && Stepped(cfg, strategy, st0, bars, n).Ok?
    ensures Conserved(Stepped(cfg, strategy, st0, bars, n).value, st0.nextOrder, st0.nextFill)
  {
    hide Stepped, StepBar, Before, CloseGroup;
    if n == 0 {
      NoStep(cfg, strategy, st0, bars);
    } else {
      hide Conserved;
      var earlier, st := LastStep(cfg, strategy, st0, bars, n);
      RunConserves(cfg, strategy, st0, bars, n - 1);
      if st != earlier {
        ClosingConserves(earlier, bars[n - 2].time, st0.nextOrder, st0.nextFill);
      }
      StepConserves(cfg, strategy, st, bars[n - 1], st0.nextOrder, st0.nextFill);
    }
  }

  lemma ClosingConserves(st: RunState, time: Instant, firstOrder: nat, firstFill: nat)
    requires Conserved(st, firstOrder, firstFill)
    ensures Conserved(CloseGroup(st, time), firstOrder, firstFill)
  {
    hide CloseGroup;
    CloseKeeps(st, time);
    forall s ensures SplitFor(CloseGroup(st, time), s) {
      assert SplitFor(st, s);
    }
  }

  // ----- Fates -----

  lemma {:induction false} CreatedOnIds(steps: seq<StepRecord>, s: Symbol, first: nat)
    requires OrderIdsFrom(AllCreated(steps), first)
    ensures forall a :: 0 <= a < |CreatedOn(steps, s)| ==>
            first <= CreatedOn(steps, s)[a].id < first + |AllCreated(steps)|
    ensures forall a, b :: 0 <= a < b < |CreatedOn(steps, s)| ==> CreatedOn(steps, s)[a].id < CreatedOn(steps, s)[b].id
  {
    if steps != [] {
      var init, last := steps[..|steps| - 1], steps[|steps| - 1];
      var all := AllCreated(steps);
      assert all[..|AllCreated(init)|] == AllCreated(init) && all[|AllCreated(init)|..] == last.created;
      forall k | 0 <= k < |last.created| ensures last.created[k].id == first + |AllCreated(init)| + k {
        assert all[|AllCreated(init)| + k] == last.created[k];
      }
      CreatedOnIds(init, s, first);
    }
  }

  lemma IncreasingIdsCountOnce(orders: seq<Order>, o: Order)
    requires forall a, b :: 0 <= a < b < |orders| ==> orders[a].id < orders[b].id
    ensures multiset(orders)[o] <= 1
  {
    if orders != [] {
      var init, last := orders[..|orders| - 1], orders[|orders| - 1];
      assert orders == init + [last];
      IncreasingIdsCountOnce(init, o);
      if o == last {
        forall a | 0 <= a < |init| ensures init[a] != o {
          assert orders[a].id < orders[|init|].id;
        }
      }
    }
  }

  lemma {:induction false} CreatedOnContains(steps: seq<StepRecord>, i: nat, o: Order)
    requires i < |steps| && o in steps[i].created
    ensures o in CreatedOn(steps, steps[i].bar.symbol)
  {
    if i < |steps| - 1 {
      CreatedOnContains(steps[..|steps| - 1], i, o);
    }
  }

  /** The ids of a record's orders follow on from those of all earlier records. */
  lemma {:induction false} CreatedRange(steps: seq<StepRecord>, i: nat, first: nat)
    requires i < |steps| && OrderIdsFrom(AllCreated(steps), first)
    ensures OrderIdsFrom(steps[i].created, first + |AllCreated(steps[..i])|)
    ensures |AllCreated(steps[..i])| + |steps[i].created| == |AllCreated(steps[..i + 1])| <= |AllCreated(steps)|
  {
    var init, last := steps[..|steps| - 1], steps[|steps| - 1];
    var all := AllCreated(steps);
    assert steps[..i + 1][..i] == steps[..i];
    if i == |steps| - 1 {
      assert steps[..i + 1] == steps && steps[..i] == init;
      forall k | 0 <= k < |last.created| ensures last.created[k].id == first + |AllCreated(init)| + k {
        assert all[|AllCreated(init)| + k] == last.created[k];
      }
    } else {
      assert all[..|AllCreated(init)|] == AllCreated(init);
      assert init[..i] == steps[..i] && init[..i + 1] == steps[..i + 1];
      CreatedRange(init, i, first);
    }
  }

  /** An id identifies one order and the one record that created it. */
  lemma IdsIdentify(steps: seq<StepRecord>, first: nat, i: nat, o: Order, j: nat, p: Order)
    requires i < |steps| && j < |steps| && OrderIdsFrom(AllCreated(steps), first)
    requires o in steps[i].created && p in steps[j].created && o.id == p.id
    ensures i == j && o == p
  {
    CreatedRange(steps, i, first);
    CreatedRange(steps, j, first);
    if i < j {
      RangesGrow(steps, i + 1, j);
    } else if j < i {
      RangesGrow(steps, j + 1, i);
    }
  }

  lemma {:induction false} RangesGrow(steps: seq<StepRecord>, i: nat, j: nat)
    requires i <= j <= |steps|
    ensures |AllCreated(steps[..i])| <= |AllCreated(steps[..j])|
    decreases j - i
  {
    if i < j {
      assert steps[..j][..j - 1] == steps[..j - 1];
      RangesGrow(steps, i, j - 1);
    }
  }

  /** The number of fills that refer to one order id. */
  function CountFor(fills: seq<Fill>, orderId: nat): nat {
    if fills == [] then 0
    else CountFor(fills[..|fills| - 1], orderId) + if fills[|fills| - 1].orderId == orderId then 1 else 0
  }

  function FillCount(steps: seq<StepRecord>, orderId: nat): nat {
    if steps == [] then 0
    else FillCount(steps[..|steps| - 1], orderId) + CountFor(steps[|steps| - 1].fills, orderId)
  }

  lemma {:induction false} CountForMatches(fills: seq<Fill>, filled: seq<Order>, o: Order)
    requires |fills| == |filled| && forall k :: 0 <= k < |fills| ==> fills[k].orderId == filled[k].id
    requires forall p :: p in filled && p.id == o.id ==> p == o
    ensures CountFor(fills, o.id) == multiset(filled)[o]
  {
    if fills != [] {
      assert filled == filled[..|filled| - 1] + [filled[|filled| - 1]];
      assert forall p :: p in filled[..|filled| - 1] ==> p in filled;
      CountForMatches(fills[..|fills| - 1], filled[..|filled| - 1], o);
    }
  }

  lemma {:induction false} FillCountMatches(steps: seq<StepRecord>, s: Symbol, o: Order)
    requires forall j :: 0 <= j < |steps| ==> FillsMatch(steps[j])
    requires forall j, p :: 0 <= j < |steps| && p in steps[j].filled && p.id == o.id ==>
             p == o && steps[j].bar.symbol == s
    ensures FillCount(steps, o.id) == multiset(FilledOn(steps, s))[o]
  {
    if steps != [] {
      var last := steps[|steps| - 1];
      FillCountMatches(steps[..|steps| - 1], s, o);
      assert FillsMatch(last);
      CountForMatches(last.fills, last.filled, o);
      if last.bar.symbol != s {
        assert o !in last.filled;
      }
    }
  }

  /**
   * In every reachable state, each order ever created (on some bar of a symbol s) is accounted for exactly once: one
   * fill in the whole log refers to it, or it is still pending in the queue of s and will expire.
   */
  lemma EachOrderHasOneFate(cfg: RunConfig, strategy: Strategy, st0: RunState, bars: seq<Bar>, n: nat, i: nat, o: Order)
    requires st0.steps == [] && st0.pending == map[]
    requires n <= |bars| && Stepped(cfg, strategy, st0, bars, n).Ok?
    requires i < |Stepped(cfg, strategy, st0, bars, n).value.steps|
             && o in Stepped(cfg, strategy, st0, bars, n).value.steps[i].created
    ensures var st := Stepped(cfg, strategy, st0, bars, n).value;
            FillCount(st.steps, o.id) + multiset(Queue(st.pending, st.steps[i].bar.symbol))[o] == 1
  {
    hide Stepped, Numbered, FillsMatch;
    RunConserves(cfg, strategy, st0, bars, n);
    var st, first := Stepped(cfg, strategy, st0, bars, n).value, st0.nextOrder;
    var s := st.steps[i].bar.symbol;
    assert OrderIdsFrom(AllCreated(st.steps), first) by { NumberedIds(st, first, st0.nextFill); }
    forall j, p | 0 <= j < |st.steps| && p in st.steps[j].filled && p.id == o.id
      ensures p == o && st.steps[j].bar.symbol == s
    {
      assert CreatedBefore(st.steps, j, p);
      var m :| 0 <= m < j && st.steps[m].bar.symbol == st.steps[j].bar.symbol && p in st.steps[m].created;
      IdsIdentify(st.steps, first, i, o, m, p);
    }
    FillCountMatches(st.steps, s, o);
    CreatedOnContains(st.steps, i, o);
    CreatedOnIds(st.steps, s, first);
    IncreasingIdsCountOnce(CreatedOn(st.steps, s), o);
    assert o in multiset(CreatedOn(st.steps, s));
    assert SplitFor(st, s);
  }

  lemma NumberedIds(st: RunState, firstOrder: nat, firstFill: nat)
    requires Numbered(st, firstOrder, firstFill)
    ensures OrderIdsFrom(AllCreated(st.steps), firstOrder)
  {
  }

  /** Every fill carries out, in side and size, an order that a strictly earlier bar of the same symbol created. */
  lemma FillsComeFromEarlierOrders(
    cfg: RunConfig, strategy: Strategy, st0: RunState, bars: seq<Bar>, n: nat, j: nat, k: nat)
    returns (i: nat, o: Order)
    requires st0.steps == [] && st0.pending == map[] && st0.seen == []
    requires n <= |bars| && Stepped(cfg, strategy, st0, bars, n).Ok?
    requires j < n && j < |Stepped(cfg, strategy, st0, bars, n).value.steps|
    requires k < |Stepped(cfg, strategy, st0, bars, n).value.steps[j].fills|
    ensures var st := Stepped(cfg, strategy, st0, bars, n).value;
            var f := st.steps[j].fills[k];
            && i < j < |st.steps| && o in st.steps[i].created
            && bars[i].symbol == bars[j].symbol == f.symbol
            && f.orderId == o.id && f.side == o.side && f.qty == o.qty && f.time == bars[j].time
  {
    hide Stepped, Numbered, SplitFor;
    RunConserves(cfg, strategy, st0, bars, n);
    StepsFollowBars(cfg, strategy, st0, bars, n);
    var st := Stepped(cfg, strategy, st0, bars, n).value;
    assert FillsMatch(st.steps[j]);
    o := st.steps[j].filled[k];
    assert CreatedBefore(st.steps, j, o);
    i :| 0 <= i < j && st.steps[i].bar.symbol == st.steps[j].bar.symbol && o in st.steps[i].created;
  }
}
