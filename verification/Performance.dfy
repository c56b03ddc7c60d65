/** Performance points and the two ways of summarizing them. */
module Performance {
  import opened Wrappers
  import opened Market
  import opened Portfolio

  datatype Point = Point(time: Instant, mark: Mark, drawdown: real)

  datatype Summary = Summary(
    totalReturn: real,
    annualizedReturn: Option<real>,
    maxDrawdown: real,
    turnover: real,
    fees: real,
    slippage: real,
    finalEquity: real,
    realized: real,
    unrealized: real)

  /** The dates of a run, and the floating-point step of annualization, which is left uninterpreted. */
  datatype Horizon = Horizon(initialCash: real, start: Instant, end: Instant, power: (real, real) -> Option<real>)

  function DrawdownFrom(peak: real, equity: real): real {
    if peak > 0.0 then (peak - equity) / peak else 0.0
  }

  /** The highest of the initial equity and those seen since. */
  function PeakOf(initial: real, equities: seq<real>): real {
    if equities == [] then initial else Max(PeakOf(initial, equities[..|equities| - 1]), equities[|equities| - 1])
  }

  /** The deepest fall from the running peak, and 0 if there is none. */
  function DeepestDrawdown(initial: real, equities: seq<real>): real {
    if equities == [] then 0.0 else
      Max(DeepestDrawdown(initial, equities[..|equities| - 1]),
          DrawdownFrom(PeakOf(initial, equities), equities[|equities| - 1]))
  }

  function PointAt(time: Instant, mark: Mark, runningPeak: real): Point {
    Point(time, mark, DrawdownFrom(Max(runningPeak, mark.equity), mark.equity))
  }

  function Annualized(h: Horizon, finalEquity: real): Option<real> {
    var seconds := (h.end - h.start) as real / 1_000_000.0;
    if h.initialCash <= 0.0 || finalEquity <= 0.0 || seconds < 86_400.0 then None
    else h.power(finalEquity / h.initialCash, seconds / 31_557_600.0)
  }

  function EmptySummary(h: Horizon, annualized: Option<real>): Summary {
    Summary(0.0, annualized, 0.0, 0.0, 0.0, 0.0, h.initialCash, 0.0, 0.0)
  }

  function SummarizeLatest(h: Horizon, latest: Option<Point>, maxDrawdown: real): Summary {
    if latest.None? then EmptySummary(h, Some(0.0)) else
      var m := latest.value.mark;
      Summary(
        if h.initialCash > 0.0 then (m.equity - h.initialCash) / h.initialCash else 0.0,
        Annualized(h, m.equity),
        maxDrawdown,
        if h.initialCash > 0.0 then m.turnover / h.initialCash else 0.0,
        m.fees, m.slippage, m.equity, m.realized, m.unrealized)
  }

  function LargestDrawdown(points: seq<Point>): real
    requires points != []
  {
    if |points| == 1 then points[0].drawdown
    else Max(LargestDrawdown(points[..|points| - 1]), points[|points| - 1].drawdown)
  }

  function Summarize(h: Horizon, points: seq<Point>): Summary {
    if points == [] then EmptySummary(h, Some(0.0))
    else SummarizeLatest(h, Some(points[|points| - 1]), LargestDrawdown(points))
  }

  /** What a streaming run keeps instead of the list of points. */
  function RunningDrawdown(points: seq<Point>): real {
    if points == [] then 0.0
    else Max(RunningDrawdown(points[..|points| - 1]), points[|points| - 1].drawdown)
  }

  function LatestPoint(points: seq<Point>): Option<Point> {
    if points == [] then None else Some(points[|points| - 1])
  }

  lemma OneMoreEquity(initial: real, equities: seq<real>, e: real)
    ensures PeakOf(initial, equities + [e]) == Max(PeakOf(initial, equities), e)
    ensures DeepestDrawdown(initial, equities + [e]) ==
            Max(DeepestDrawdown(initial, equities), DrawdownFrom(PeakOf(initial, equities + [e]), e))
  {
    assert (equities + [e])[..|equities|] == equities;
  }

  lemma {:induction false} DeepestIsNatural(initial: real, equities: seq<real>)
    ensures DeepestDrawdown(initial, equities) >= 0.0
  {
    hide DrawdownFrom;
    if equities != [] { DeepestIsNatural(initial, equities[..|equities| - 1]); }
  }

  /** A drawdown taken from a peak that covers the equity is never negative. */
  lemma DrawdownIsNonNegative(peak: real, equity: real)
    requires peak >= equity
    ensures DrawdownFrom(peak, equity) >= 0.0
  {
    if peak > 0.0 {
      var q := (peak - equity) / peak;
      assert q * peak == peak - equity;
      if q < 0.0 { assert q * peak < 0.0; }
    }
  }

  /** A drawdown says what part of the peak the equity is below it; from a peak of nothing there is none. */
  lemma DrawdownIsRelative(peak: real, equity: real)
    ensures peak > 0.0 ==> equity == peak * (1.0 - DrawdownFrom(peak, equity))
    ensures peak <= 0.0 ==> DrawdownFrom(peak, equity) == 0.0
  {
    if peak > 0.0 {
      var q := (peak - equity) / peak;
      assert peak * q == peak - equity;
    }
  }

  /** The peak is the highest of the initial equity and all seen so far. */
  lemma {:induction false} PeakIsHighest(initial: real, equities: seq<real>)
    ensures PeakOf(initial, equities) >= initial
    ensures forall e :: e in equities ==> PeakOf(initial, equities) >= e
    ensures PeakOf(initial, equities) == initial || PeakOf(initial, equities) in equities
  {
    if equities != [] {
      var init, last := equities[..|equities| - 1], equities[|equities| - 1];
      PeakIsHighest(initial, init);
      assert equities == init + [last];
    }
  }

  /** How far the k-th equity lies below the highest up to then. */
  function FallAt(initial: real, equities: seq<real>, k: nat): real
    requires k < |equities|
  {
    DrawdownFrom(PeakOf(initial, equities[..k + 1]), equities[k])
  }

  /** No fall is deeper, and one is as deep, unless there is none below a peak at all. */
  predicate IsDeepest(initial: real, equities: seq<real>, fall: real) {
    && (forall k :: 0 <= k < |equities| ==> FallAt(initial, equities, k) <= fall)
    && fall >= 0.0
    && (fall == 0.0 || exists k :: 0 <= k < |equities| && FallAt(initial, equities, k) == fall)
  }

  lemma {:induction false} DeepestIsDeepest(initial: real, equities: seq<real>)
    ensures IsDeepest(initial, equities, DeepestDrawdown(initial, equities))
  {
    hide DrawdownFrom, PeakOf;
    if equities != [] {
      var m := |equities| - 1;
      var init := equities[..m];
      DeepestIsDeepest(initial, init);
      assert equities[..m + 1] == equities;
      forall k | 0 <= k < m ensures FallAt(initial, equities, k) == FallAt(initial, init, k) {
        assert equities[..k + 1] == init[..k + 1];
      }
      assert FallAt(initial, equities, m) == DrawdownFrom(PeakOf(initial, equities), equities[m]);
    }
  }

  /** The two summaries differ only in the maximum drawdown, so they agree exactly when some drawdown is nonnegative. */
  lemma {:induction false} StreamingSummaryAgreesIff(h: Horizon, points: seq<Point>)
    ensures SummarizeLatest(h, LatestPoint(points), RunningDrawdown(points)) == Summarize(h, points)
            <==> points == [] || exists p :: p in points && p.drawdown >= 0.0
  {
    if points != [] {
      RunningDrawdownFloors(points);
      if LargestDrawdown(points) >= 0.0 {
        LargestDrawdownIsAttained(points);
      } else {
        forall p | p in points ensures p.drawdown < 0.0 {
          LargestDrawdownCovers(points, p);
        }
      }
    }
  }

  lemma {:induction false} RunningDrawdownFloors(points: seq<Point>)
    requires points != []
    ensures RunningDrawdown(points) == Max(0.0, LargestDrawdown(points))
  {
    var earlier := points[..|points| - 1];
    if earlier == [] {
      assert RunningDrawdown(earlier) == 0.0;
    } else {
      RunningDrawdownFloors(earlier);
    }
  }

  lemma {:induction false} LargestDrawdownIsAttained(points: seq<Point>)
    requires points != []
    ensures exists p :: p in points && p.drawdown == LargestDrawdown(points)
  {
    assert points[|points| - 1] in points;
    if |points| > 1 {
      LargestDrawdownIsAttained(points[..|points| - 1]);
    }
  }

  lemma {:induction false} LargestDrawdownCovers(points: seq<Point>, p: Point)
    requires p in points
    ensures p.drawdown <= LargestDrawdown(points)
  {
    if |points| > 1 && p != points[|points| - 1] {
      LargestDrawdownCovers(points[..|points| - 1], p);
    }
  }
}
