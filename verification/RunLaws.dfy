/** Facts about single steps that the theorems about whole runs share. */
module RunLaws {
  import opened Wrappers
  import opened Market
  import opened Portfolio
  import opened Lifecycle
  import opened Fills
  import opened Risk
  import opened Performance
  import opened RunSpec

  /** Every state of a run comes from the one before it by at most closing a group, and then stepping one bar. */
  lemma LastStep(
    cfg: RunConfig, strategy: Strategy, st0: RunState, bars: seq<Bar>, n: nat)
    returns (earlier: RunState, st: RunState)
    requires 0 < n <= |bars| && Stepped(cfg, strategy, st0, bars, n).Ok?
    ensures Stepped(cfg, strategy, st0, bars, n - 1) == Ok(earlier)
    ensures Before(cfg, strategy, st0, bars, n - 1) == Ok(st)
    ensures st == (if n > 1 && GroupEnds(bars, n - 1) then CloseGroup(earlier, bars[n - 2].time) else earlier)
    ensures StepBar(cfg, strategy, st, bars[n - 1]) == Stepped(cfg, strategy, st0, bars, n)
    ensures bars[..n] == bars[..n - 1] + [bars[n - 1]]
  {
    hide StepBar, CloseGroup;
    earlier := Stepped(cfg, strategy, st0, bars, n - 1).value;
    st := Before(cfg, strategy, st0, bars, n - 1).value;
  }

  lemma NoStep(cfg: RunConfig, strategy: Strategy, st0: RunState, bars: seq<Bar>)
    ensures Stepped(cfg, strategy, st0, bars, 0) == Ok(st0)
    ensures bars[..0] == []
  {
    hide Before;
  }

  /** A step writes one record and one evaluation. */
  lemma StepAppends(
    cfg: RunConfig, strategy: Strategy, st: RunState, bar: Bar)
    returns (record: StepRecord, shown: Evaluation)
    requires StepBar(cfg, strategy, st, bar).Ok?
    ensures var after := StepBar(cfg, strategy, st, bar).value;
            && after.steps == st.steps + [record]
            && record.bar == bar && record.group == |st.points|
            && after.seen == st.seen + [shown] && shown.bar == bar
            && after.points == st.points && after.peak == st.peak && after.maxDrawdown == st.maxDrawdown
  {
    hide StepBar, FillPending, SceneAt, Plan, Filter;
    var pass, _, _ := StepParts(cfg, strategy, st, bar);
    var after := StepBar(cfg, strategy, st, bar).value;
    record, shown := after.steps[|st.steps|], Shown(cfg, st, pass.ledger, bar);
  }

  lemma CloseKeeps(st: RunState, time: Instant)
    ensures var after := CloseGroup(st, time);
            && after.ledger == st.ledger && after.pending == st.pending && after.seen == st.seen
               && after.steps == st.steps && after.recent == st.recent
            && after.marks == st.marks && after.nextOrder == st.nextOrder && after.nextFill == st.nextFill
            && after.session == BarCompleted(st.session) && |after.points| == |st.points| + 1
  {
    hide MarkOf, PointAt;
  }

  /** The log of a run has one record per bar, in order. */
  lemma {:induction false} StepsFollowBars(cfg: RunConfig, strategy: Strategy, st0: RunState, bars: seq<Bar>, n: nat)
    requires st0.steps == [] && st0.seen == [] && n <= |bars| && Stepped(cfg, strategy, st0, bars, n).Ok?
    ensures var st := Stepped(cfg, strategy, st0, bars, n).value;
            && |st.steps| == |st.seen| == n
            && (forall k :: 0 <= k < n ==> st.steps[k].bar == st.seen[k].bar == bars[k])
  {
    hide *;
    if n == 0 {
      NoStep(cfg, strategy, st0, bars);
    } else {
      var earlier, st := LastStep(cfg, strategy, st0, bars, n);
      StepsFollowBars(cfg, strategy, st0, bars, n - 1);
      if st != earlier {
        CloseKeeps(earlier, bars[n - 2].time);
      }
      var _, _ := StepAppends(cfg, strategy, st, bars[n - 1]);
    }
  }

  /** What filling a queue does to the ledger and the session, order by order. */
  lemma {:induction false} FillingIsLocal(cfg: RunConfig, start: FillPass, queue: seq<Order>, bar: Bar)
    requires EntryKnown(start.ledger, bar.symbol) && FillPending(cfg, start, queue, bar).Ok?
    ensures var end := FillPending(cfg, start, queue, bar).value;
            && Capital(end.ledger) == Capital(start.ledger)
            && (forall s :: s != bar.symbol ==>
                  Held(end.ledger, s) == Held(start.ledger, s)
                    && (s in end.ledger.positions <==> s in start.ledger.positions))
            && (EntrySet(start.ledger, bar.symbol) ==> EntrySet(end.ledger, bar.symbol))
  {
    if queue != [] {
      FillingIsLocal(cfg, start, queue[..|queue| - 1], bar);
      var earlier := FillPending(cfg, start, queue[..|queue| - 1], bar).value;
      FillOneLaws(cfg, earlier, queue[|queue| - 1], bar);
    }
  }

  /** Filling stops at the first order that raises. */
  lemma {:induction false} FillPrefix(cfg: RunConfig, start: FillPass, queue: seq<Order>, bar: Bar, k: nat)
    requires EntryKnown(start.ledger, bar.symbol) && k < |queue| && FillPending(cfg, start, queue[..k], bar).Ok?
    ensures var earlier := FillPending(cfg, start, queue[..k], bar).value;
            && FillPending(cfg, start, queue[..k + 1], bar) == FillOne(cfg, earlier, queue[k], bar)
            && (FillOne(cfg, earlier, queue[k], bar).Raised? ==>
                  FillPending(cfg, start, queue, bar) == FillOne(cfg, earlier, queue[k], bar))
    decreases |queue|
  {
    hide FillOne;
    assert queue[..k + 1][..k] == queue[..k];
    if k + 1 == |queue| {
      assert queue[..k + 1] == queue;
    } else {
      var init := queue[..|queue| - 1];
      assert init[..k] == queue[..k] && init[..k + 1] == queue[..k + 1];
      FillPrefix(cfg, start, init, bar, k);
    }
  }

  lemma FillOneLaws(cfg: RunConfig, pass: FillPass, o: Order, bar: Bar)
    requires EntryKnown(pass.ledger, bar.symbol) && FillOne(cfg, pass, o, bar).Ok?
    ensures var end := FillOne(cfg, pass, o, bar).value;
            && Capital(end.ledger) == Capital(pass.ledger)
            && (forall s :: s != bar.symbol ==>
                  Held(end.ledger, s) == Held(pass.ledger, s)
                    && (s in end.ledger.positions <==> s in pass.ledger.positions))
            && (EntrySet(pass.ledger, bar.symbol) ==> EntrySet(end.ledger, bar.symbol))
  {
    hide Capital, Booked, FillAt, ResolveFillBasis;
    var update := Process(cfg.costs, o, bar, pass.nextFill).value;
    if update.Some? {
      assert update.value.symbol == bar.symbol by { FillSymbol(cfg.costs, o, bar, pass.nextFill); }
      FillKeepsCapital(pass.ledger, update.value);
      FillMovesPosition(pass.ledger, update.value);
    }
  }

  lemma FillSymbol(c: CostModel, o: Order, bar: Bar, fillId: nat)
    requires Process(c, o, bar, fillId).Ok? && Process(c, o, bar, fillId).value.Some?
    ensures var f := Process(c, o, bar, fillId).value.value;
            f.symbol == bar.symbol == o.symbol && f.orderId == o.id && f.side == o.side && f.qty == o.qty
              && f.time == bar.time && f.id == fillId
  {
  }

  lemma SceneMarks(cfg: RunConfig, st: RunState, pass: FillPass, bar: Bar)
    ensures SceneAt(cfg, st, pass, bar).marks == st.marks[bar.symbol := bar.close]
    ensures SceneAt(cfg, st, pass, bar).ledger == pass.ledger
  {
  }

  /** A position that is held has an entry price. */
  predicate EntrySet(l: Ledger, s: Symbol) {
    s in l.positions ==> l.positions[s].entry.Some?
  }
}
