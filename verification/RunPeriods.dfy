/** The period breakdown of a run: its entries add up to the ledger of the run and never fall deeper. */
module RunPeriods {
  import opened Market
  import opened Sequences
  import opened Calendar
  import opened Portfolio
  import opened Performance
  import opened RunSpec
  import opened RunLaws
  import opened RunOrders
  import opened RunFriction
  import opened RunSession
  import opened RunPoints
  import opened Periods
  import opened PeriodTotals
  import opened PeriodDrawdown

  // ----- Every bar time has its point -----

  predicate HasPoint(points: seq<Point>, t: Instant) {
    exists p :: p in points && p.time == t
  }

  /** Every bar stepped has a point of its time, except those of the group still open at t. */
  predicate PointsKeepUp(st: RunState, t: Instant) {
    forall k :: 0 <= k < |st.steps| ==> HasPoint(st.points, st.steps[k].bar.time) || st.steps[k].bar.time == t
  }

  predicate AllHavePoints(st: RunState) {
    forall k :: 0 <= k < |st.steps| ==> HasPoint(st.points, st.steps[k].bar.time)
  }

  lemma CloseCatchesUp(st: RunState, t: Instant)
    requires PointsKeepUp(st, t)
    ensures AllHavePoints(CloseGroup(st, t))
  {
    hide MarkOf, DrawdownFrom;
    var after := CloseGroup(st, t);
    var p := after.points[|st.points|];
    assert p in after.points && p.time == t;
    forall k | 0 <= k < |st.steps| ensures HasPoint(after.points, st.steps[k].bar.time) {
      if HasPoint(st.points, st.steps[k].bar.time) {
        var q :| q in st.points && q.time == st.steps[k].bar.time;
        assert q in after.points;
      }
    }
  }

  lemma {:induction false} StepsKeepUp(cfg: RunConfig, strategy: Strategy, st0: RunState, bars: seq<Bar>, n: nat)
    requires st0.steps == [] && 0 < n <= |bars| && Stepped(cfg, strategy, st0, bars, n).Ok?
    ensures PointsKeepUp(Stepped(cfg, strategy, st0, bars, n).value, bars[n - 1].time)
  {
    hide Stepped, Before, StepBar, CloseGroup, HasPoint;
    var earlier, st := LastStep(cfg, strategy, st0, bars, n);
    if n == 1 {
      NoStep(cfg, strategy, st0, bars);
    } else {
      StepsKeepUp(cfg, strategy, st0, bars, n - 1);
      if GroupEnds(bars, n - 1) {
        CloseCatchesUp(earlier, bars[n - 2].time);
        CloseKeeps(earlier, bars[n - 2].time);
      }
    }
    var r, _ := StepAppends(cfg, strategy, st, bars[n - 1]);
  }

  /** In a finished run every bar time, and so every fill, has a performance point of the same time. */
  lemma FillsHavePoints(cfg: RunConfig, strategy: Strategy, st0: RunState, bars: seq<Bar>, f: Fill)
    requires st0.steps == [] && st0.pending == map[] && Run(cfg, strategy, st0, bars).Ok?
    requires f in AllFills(Run(cfg, strategy, st0, bars).value.steps)
    ensures HasPoint(Run(cfg, strategy, st0, bars).value.points, f.time)
  {
    hide Stepped, CloseGroup, HasPoint, Numbered, SplitFor, CreatedBefore;
    var n := |bars|;
    if n == 0 {
      NoStep(cfg, strategy, st0, bars);
    } else {
      var open := Stepped(cfg, strategy, st0, bars, n).value;
      StepsKeepUp(cfg, strategy, st0, bars, n);
      CloseCatchesUp(open, bars[n - 1].time);
      CloseKeeps(open, bars[n - 1].time);
      RunConserves(cfg, strategy, st0, bars, n);
      var k := FillHasStep(open.steps, f);
      assert FillsMatch(open.steps[k]);
    }
  }

  lemma {:induction false} FillHasStep(steps: seq<StepRecord>, f: Fill) returns (k: nat)
    requires f in AllFills(steps)
    ensures k < |steps| && f in steps[k].fills
  {
    k := |steps| - 1;
    if f !in steps[k].fills { k := FillHasStep(steps[..k], f); }
  }

  // ----- Points are in time order -----

  predicate PointsInOrder(points: seq<Point>, t: Instant) {
    && (forall k :: 0 <= k < |points| ==> points[k].time <= t)
    && forall i, j :: 0 <= i < j < |points| ==> points[i].time <= points[j].time
  }

  lemma {:induction false} StepsKeepOrder(cfg: RunConfig, strategy: Strategy, st0: RunState, bars: seq<Bar>, n: nat)
    requires st0.points == [] && TimesAscend(bars) && 0 < n <= |bars| && Stepped(cfg, strategy, st0, bars, n).Ok?
    ensures PointsInOrder(Stepped(cfg, strategy, st0, bars, n).value.points, bars[n - 1].time)
  {
    hide Stepped, Before, StepBar, CloseGroup;
    var earlier, st := LastStep(cfg, strategy, st0, bars, n);
    if n == 1 {
      NoStep(cfg, strategy, st0, bars);
    } else {
      StepsKeepOrder(cfg, strategy, st0, bars, n - 1);
      if st != earlier {
        CloseKeepsOrder(earlier, bars[n - 2].time);
      }
    }
    var _, _ := StepAppends(cfg, strategy, st, bars[n - 1]);
  }

  lemma CloseKeepsOrder(st: RunState, t: Instant)
    requires PointsInOrder(st.points, t)
    ensures PointsInOrder(CloseGroup(st, t).points, t)
  {
    hide MarkOf, DrawdownFrom;
  }

  lemma RunPointsInOrder(cfg: RunConfig, strategy: Strategy, st0: RunState, bars: seq<Bar>)
    requires st0.points == [] && TimesAscend(bars) && Run(cfg, strategy, st0, bars).Ok?
    ensures var points := Run(cfg, strategy, st0, bars).value.points;
            forall i, j :: 0 <= i < j < |points| ==> points[i].time <= points[j].time
  {
    hide Stepped, CloseGroup;
    var n := |bars|;
    if n == 0 {
      NoStep(cfg, strategy, st0, bars);
    } else {
      StepsKeepOrder(cfg, strategy, st0, bars, n);
      CloseKeepsOrder(Stepped(cfg, strategy, st0, bars, n).value, bars[n - 1].time);
    }
  }

  // ----- The rows of a run, as the breakdown reads them -----

  /** 1970-01-01T00:00, from which instants count. */
  const EPOCH: DateTime := DateTime(1970, 1, 1, 0)

  /** The timestamp d denotes the instant t. */
  predicate Denotes(d: DateTime, t: Instant) {
    Proper(d) && Moment(d) == Moment(EPOCH) + t
  }

  predicate SamplesOf(samples: seq<Sample>, points: seq<Point>) {
    && |samples| == |points|
    && forall k :: 0 <= k < |points| ==>
       Denotes(samples[k].ts, points[k].time) && samples[k].equity == points[k].mark.equity
  }

  predicate IsRecordOf(r: FillRecord, f: Fill) {
    Denotes(r.time, f.time) && r.price == f.price && r.qty == f.qty && r.fee == f.fee && r.slippage == f.slippageCost
  }

  predicate RecordsOf(records: seq<FillRecord>, fills: seq<Fill>) {
    |records| == |fills| && forall k :: 0 <= k < |fills| ==> IsRecordOf(records[k], fills[k])
  }

  lemma SameInstantSameBucket(a: DateTime, b: DateTime, t: Instant, period: PeriodType)
    requires Denotes(a, t) && Denotes(b, t)
    ensures BucketOf(a, period) == BucketOf(b, period)
  {
    hide Moment, BucketOf, PeriodIndex;
    PeriodsFollowTime(a, b, period);
    PeriodsFollowTime(b, a, period);
    SameBucketIffSameIndex(a, b, period);
  }

  lemma SamplesInOrder(samples: seq<Sample>, points: seq<Point>)
    requires SamplesOf(samples, points)
    requires forall i, j :: 0 <= i < j < |points| ==> points[i].time <= points[j].time
    ensures InTimeOrder(samples)
  {
    hide Moment, Proper;
    assert forall k :: 0 <= k < |points| ==> Denotes(samples[k].ts, points[k].time);
  }

  lemma {:induction false} RecordsSum(records: seq<FillRecord>, fills: seq<Fill>)
    requires RecordsOf(records, fills)
    ensures Sum(records, RecordedFee) == Sum(fills, FeePaid)
            && Sum(records, RecordedSlippage) == Sum(fills, SlippagePaid)
    ensures Sum(records, RecordedNotional) == Sum(fills, Turned)
  {
    hide Denotes;
    if fills != [] {
      var m := |fills| - 1;
      RecordsSum(records[..m], fills[..m]);
      assert IsRecordOf(records[m], fills[m]);
    }
  }

  lemma EveryRecordHasSample(
    cfg: RunConfig, strategy: Strategy, st0: RunState, bars: seq<Bar>, samples: seq<Sample>, records: seq<FillRecord>,
    period: PeriodType, r: FillRecord)
    requires st0.steps == [] && st0.pending == map[] && Run(cfg, strategy, st0, bars).Ok?
    requires var st := Run(cfg, strategy, st0, bars).value;
             SamplesOf(samples, st.points) && RecordsOf(records, AllFills(st.steps))
    requires r in records
    ensures exists p :: p in samples && BucketOf(p.ts, period) == BucketOf(r.time, period)
  {
    hide Run, Denotes, BucketOf;
    var st := Run(cfg, strategy, st0, bars).value;
    var k :| 0 <= k < |records| && records[k] == r;
    var f := AllFills(st.steps)[k];
    assert IsRecordOf(r, f);
    FillsHavePoints(cfg, strategy, st0, bars, f);
    var p :| p in st.points && p.time == f.time;
    var j :| 0 <= j < |st.points| && st.points[j] == p;
    SameInstantSameBucket(samples[j].ts, r.time, f.time, period);
    assert samples[j] in samples;
  }

  // ----- The breakdown adds up to the run -----

  /**
   * Over any run of ordered bars the entries of its breakdown add up to the ledger: fees, slippage, and turnover
   * relative to the initial cash; and they count every fill.
   */
  lemma EntriesAddUpToTheRun(
    cfg: RunConfig, strategy: Strategy, cash: real, seeds: map<Symbol, real>, bars: seq<Bar>, samples: seq<Sample>,
    records: seq<FillRecord>, signals: seq<SignalRecord>, period: PeriodType)
    requires TimesAscend(bars) && Run(cfg, strategy, FreshStart(cash, seeds), bars).Ok?
    requires var st := Run(cfg, strategy, FreshStart(cash, seeds), bars).value;
             SamplesOf(samples, st.points) && RecordsOf(records, AllFills(st.steps))
    ensures var st := Run(cfg, strategy, FreshStart(cash, seeds), bars).value;
            var entries := Breakdown(period, samples, records, signals, cash);
            && Sum(entries, FeeCostOf) == st.ledger.fees
            && Sum(entries, SlippageCostOf) == st.ledger.slippage
            && Sum(entries, FillCountOf) == |AllFills(st.steps)| as real
            && (cash > 0.0 ==> Sum(entries, TurnoverOf) == st.ledger.turnover / cash)
  {
    hide Run, Breakdown, Sum, AllFills, SamplesOf, InTimeOrder, FillsTaken, BucketOf;
    var st0 := FreshStart(cash, seeds);
    var st := Run(cfg, strategy, st0, bars).value;
    RunPointsInOrder(cfg, strategy, st0, bars);
    SamplesInOrder(samples, st.points);
    TotalsAddUp(period, samples, records, signals, cash);
    forall r | r in records ensures exists p :: p in samples && BucketOf(p.ts, period) == BucketOf(r.time, period) {
      EveryRecordHasSample(cfg, strategy, st0, bars, samples, records, period, r);
    }
    EveryFillIsTaken(period, samples, records);
    RecordsSum(records, AllFills(st.steps));
    FinishedRunTotals(cfg, strategy, cash, seeds, bars);
  }

  lemma FinishedRunTotals(cfg: RunConfig, strategy: Strategy, cash: real, seeds: map<Symbol, real>, bars: seq<Bar>)
    requires Run(cfg, strategy, FreshStart(cash, seeds), bars).Ok?
    ensures var st := Run(cfg, strategy, FreshStart(cash, seeds), bars).value;
            && st.ledger.fees == Sum(AllFills(st.steps), FeePaid)
            && st.ledger.slippage == Sum(AllFills(st.steps), SlippagePaid)
            && st.ledger.turnover == Sum(AllFills(st.steps), Turned)
  {
    hide Stepped, CloseGroup, Sum, AllFills;
    RunTotals(cfg, strategy, FreshStart(cash, seeds), bars, |bars|);
    if bars != [] {
      CloseKeeps(Stepped(cfg, strategy, FreshStart(cash, seeds), bars, |bars|).value, bars[|bars| - 1].time);
    }
  }

  lemma {:induction false} SamplesSeen(samples: seq<Sample>, points: seq<Point>)
    requires SamplesOf(samples, points)
    ensures Equities(samples) == EquitiesSeen(points)
  {
    hide Denotes;
    if points != [] {
      SamplesSeen(samples[..|samples| - 1], points[..|points| - 1]);
    }
  }

  /** In a run whose equity never turns negative no period falls deeper than the drawdown that the run reports. */
  lemma PeriodsStayWithinTheRun(
    cfg: RunConfig, strategy: Strategy, cash: real, seeds: map<Symbol, real>, bars: seq<Bar>, samples: seq<Sample>,
    records: seq<FillRecord>, signals: seq<SignalRecord>, period: PeriodType, k: nat)
    requires Run(cfg, strategy, FreshStart(cash, seeds), bars).Ok?
    requires SamplesOf(samples, Run(cfg, strategy, FreshStart(cash, seeds), bars).value.points)
    requires forall p :: p in samples ==> p.equity >= 0.0
    requires k < |Breakdown(period, samples, records, signals, cash)|
    ensures Breakdown(period, samples, records, signals, cash)[k].maxDrawdown <=
            Run(cfg, strategy, FreshStart(cash, seeds), bars).value.maxDrawdown
  {
    hide Run, Breakdown, SamplesOf, PeakOf, DeepestDrawdown, Equities, EquitiesSeen;
    var st0 := FreshStart(cash, seeds);
    StartFollowsPeak(cash, seeds);
    RunDrawdownIsDeepest(cfg, strategy, st0, bars);
    SamplesSeen(samples, Run(cfg, strategy, st0, bars).value.points);
    PeriodsFallNoDeeper(period, samples, records, signals, cash, k);
  }

  lemma StartFollowsPeak(cash: real, seeds: map<Symbol, real>)
    ensures FollowsPeak(cash, FreshStart(cash, seeds)) && FreshStart(cash, seeds).peak == cash
  {
  }
}
