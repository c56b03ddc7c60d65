/** The performance points of a run, and the summaries taken from them. */
module RunPoints {
  import opened Wrappers
  import opened Market
  import opened Portfolio
  import opened Performance
  import opened RunSpec
  import opened RunLaws

  predicate PointsKept(st: RunState) {
    && st.maxDrawdown == RunningDrawdown(st.points)
    && (forall p :: p in st.points ==> p.drawdown >= 0.0 && p.mark.equity <= st.peak)
  }

  lemma CloseKeepsPoints(st: RunState, time: Instant)
    requires PointsKept(st)
    ensures PointsKept(CloseGroup(st, time))
  {
    hide MarkOf, DrawdownFrom;
    var mark, after := MarkOf(st.ledger, st.marks), CloseGroup(st, time);
    DrawdownIsNonNegative(Max(st.peak, mark.equity), mark.equity);
    assert after.points[..|st.points|] == st.points;
  }

  lemma {:induction false} RunKeepsPoints(cfg: RunConfig, strategy: Strategy, st0: RunState, bars: seq<Bar>, n: nat)
    requires PointsKept(st0) && n <= |bars| && Stepped(cfg, strategy, st0, bars, n).Ok?
    ensures PointsKept(Stepped(cfg, strategy, st0, bars, n).value)
  {
    hide Stepped, Before, StepBar, CloseGroup;
    if n == 0 {
      NoStep(cfg, strategy, st0, bars);
    } else {
      var earlier, st := LastStep(cfg, strategy, st0, bars, n);
      RunKeepsPoints(cfg, strategy, st0, bars, n - 1);
      if st != earlier {
        CloseKeepsPoints(earlier, bars[n - 2].time);
      }
      var _, _ := StepAppends(cfg, strategy, st, bars[n - 1]);
    }
  }

  /** A run that keeps only its latest point and a running maximum reports the summary of one that keeps every point. */
  lemma StreamedSummaryIsTheSummary(cfg: RunConfig, strategy: Strategy, st0: RunState, bars: seq<Bar>, h: Horizon)
    requires PointsKept(st0) && Run(cfg, strategy, st0, bars).Ok?
    ensures var st := Run(cfg, strategy, st0, bars).value;
            SummarizeLatest(h, LatestPoint(st.points), st.maxDrawdown) == Summarize(h, st.points)
  {
    hide Stepped, CloseGroup, SummarizeLatest, Summarize;
    RunKeepsPoints(cfg, strategy, st0, bars, |bars|);
    var st := Run(cfg, strategy, st0, bars).value;
    if bars != [] {
      CloseKeepsPoints(Stepped(cfg, strategy, st0, bars, |bars|).value, bars[|bars| - 1].time);
    }
    StreamingSummaryAgreesIff(h, st.points);
    if st.points != [] {
      assert st.points[0] in st.points;
    }
  }

  /** 365 days and a quarter, in microseconds. */
  const JULIAN_YEAR: real := 31_557_600_000_000.0

  /**
   * The summary of a run describes its final ledger, marked with its final prices: the return grows the initial cash to
   * the final equity, the turnover is a multiple of the initial cash, and there is an annualized return only from a day
   * on and between positive amounts.
   */
  lemma SummaryDescribesTheLedger(cfg: RunConfig, strategy: Strategy, st0: RunState, bars: seq<Bar>, h: Horizon)
    requires PointsKept(st0) && bars != [] && Run(cfg, strategy, st0, bars).Ok?
    ensures var st := Run(cfg, strategy, st0, bars).value;
            var l, s := st.ledger, Summarize(h, st.points);
            && s.finalEquity == Equity(l, st.marks) && s.unrealized == Unrealized(l, st.marks)
            && s.realized == l.realized && s.fees == l.fees && s.slippage == l.slippage
            && s.maxDrawdown == st.maxDrawdown
            && (if h.initialCash > 0.0 then h.initialCash * (1.0 + s.totalReturn) == s.finalEquity
                                            && h.initialCash * s.turnover == l.turnover
                else s.totalReturn == s.turnover == 0.0)
            && s.annualizedReturn ==
               (if h.initialCash <= 0.0 || s.finalEquity <= 0.0 || h.end - h.start < MICROS_PER_DAY then None
                else h.power(s.finalEquity / h.initialCash, (h.end - h.start) as real / JULIAN_YEAR))
  {
    hide *;
    StreamedSummaryIsTheSummary(cfg, strategy, st0, bars, h);
    var st := Run(cfg, strategy, st0, bars).value;
    LatestPointIsTheLedger(cfg, strategy, st0, bars);
    SummaryOfMark(h, st.points[|st.points| - 1], st.maxDrawdown);
    FieldsOfMark(st.ledger, st.marks);
  }

  lemma FieldsOfMark(l: Ledger, marks: map<Symbol, real>)
    ensures var m := MarkOf(l, marks);
            m.equity == Equity(l, marks) && m.unrealized == Unrealized(l, marks) && m.realized == l.realized
            && m.fees == l.fees && m.slippage == l.slippage && m.turnover == l.turnover
  {
  }

  lemma LatestPointIsTheLedger(cfg: RunConfig, strategy: Strategy, st0: RunState, bars: seq<Bar>)
    requires bars != [] && Run(cfg, strategy, st0, bars).Ok?
    ensures var st := Run(cfg, strategy, st0, bars).value;
            st.points != [] && st.points[|st.points| - 1].mark == MarkOf(st.ledger, st.marks)
            && LatestPoint(st.points) == Some(st.points[|st.points| - 1])
  {
    hide Stepped, MarkOf;
  }

  lemma SummaryOfMark(h: Horizon, p: Point, maxDrawdown: real)
    ensures var s, m := SummarizeLatest(h, Some(p), maxDrawdown), p.mark;
            && s.finalEquity == m.equity && s.unrealized == m.unrealized && s.realized == m.realized
            && s.fees == m.fees && s.slippage == m.slippage && s.maxDrawdown == maxDrawdown
            && (if h.initialCash > 0.0 then h.initialCash * (1.0 + s.totalReturn) == m.equity
                                            && h.initialCash * s.turnover == m.turnover
                else s.totalReturn == s.turnover == 0.0)
            && s.annualizedReturn ==
               (if h.initialCash <= 0.0 || m.equity <= 0.0 || h.end - h.start < MICROS_PER_DAY then None
                else h.power(m.equity / h.initialCash, (h.end - h.start) as real / JULIAN_YEAR))
  {
    if h.initialCash > 0.0 {
      var c := h.initialCash;
      var q, r := (p.mark.equity - c) / c, p.mark.turnover / c;
      assert c * q == p.mark.equity - c && c * r == p.mark.turnover;
    }
    assert (h.end - h.start) as real / JULIAN_YEAR == (h.end - h.start) as real / 1_000_000.0 / 31_557_600.0;
  }

  /** A run without bars has nothing to report but the cash it began with. */
  lemma NothingToSummarize(cfg: RunConfig, strategy: Strategy, st0: RunState, h: Horizon)
    requires st0.points == []
    ensures Run(cfg, strategy, st0, []) == Ok(st0)
    ensures Summarize(h, st0.points) == Summary(0.0, Some(0.0), 0.0, 0.0, 0.0, 0.0, h.initialCash, 0.0, 0.0)
  {
  }

  // ----- The drawdown of a run -----

  function EquitiesSeen(points: seq<Point>): seq<real> {
    if points == [] then [] else EquitiesSeen(points[..|points| - 1]) + [points[|points| - 1].mark.equity]
  }

  /** Peak and drawdown are those of the equities recorded so far. */
  predicate FollowsPeak(initial: real, st: RunState) {
    st.peak == PeakOf(initial, EquitiesSeen(st.points))
      && st.maxDrawdown == DeepestDrawdown(initial, EquitiesSeen(st.points))
  }

  lemma CloseFollowsPeak(initial: real, st: RunState, time: Instant)
    requires FollowsPeak(initial, st)
    ensures FollowsPeak(initial, CloseGroup(st, time))
  {
    hide MarkOf, DrawdownFrom;
    var mark, after := MarkOf(st.ledger, st.marks), CloseGroup(st, time);
    assert after.points[..|st.points|] == st.points;
    var seen := EquitiesSeen(after.points);
    assert seen[..|seen| - 1] == EquitiesSeen(st.points);
  }

  lemma {:induction false} StepsFollowPeak(cfg: RunConfig, strategy: Strategy, st0: RunState, bars: seq<Bar>, n: nat)
    requires FollowsPeak(st0.peak, st0) && n <= |bars| && Stepped(cfg, strategy, st0, bars, n).Ok?
    ensures FollowsPeak(st0.peak, Stepped(cfg, strategy, st0, bars, n).value)
  {
    hide Stepped, Before, StepBar, CloseGroup;
    if n == 0 {
      NoStep(cfg, strategy, st0, bars);
    } else {
      var earlier, st := LastStep(cfg, strategy, st0, bars, n);
      StepsFollowPeak(cfg, strategy, st0, bars, n - 1);
      if st != earlier {
        CloseFollowsPeak(st0.peak, earlier, bars[n - 2].time);
      }
      var _, _ := StepAppends(cfg, strategy, st, bars[n - 1]);
    }
  }

  /** The reported maximum drawdown is the deepest fall from the running peak over all the points of the run. */
  lemma RunDrawdownIsDeepest(cfg: RunConfig, strategy: Strategy, st0: RunState, bars: seq<Bar>)
    requires FollowsPeak(st0.peak, st0) && Run(cfg, strategy, st0, bars).Ok?
    ensures var st := Run(cfg, strategy, st0, bars).value;
            && st.maxDrawdown == DeepestDrawdown(st0.peak, EquitiesSeen(st.points))
            && IsDeepest(st0.peak, EquitiesSeen(st.points), st.maxDrawdown)
  {
    hide Stepped, CloseGroup, PeakOf, DeepestDrawdown, IsDeepest;
    DeepestIsDeepest(st0.peak, EquitiesSeen(Run(cfg, strategy, st0, bars).value.points));
    StepsFollowPeak(cfg, strategy, st0, bars, |bars|);
    if bars != [] {
      CloseFollowsPeak(st0.peak, Stepped(cfg, strategy, st0, bars, |bars|).value, bars[|bars| - 1].time);
    }
  }
}
