/** From the gaps of a stored series to the windows that are fetched again. */
module Backfill {
  import opened Market
  import opened Calendar
  import opened Windows
  import opened Gaps
  import opened Alignment

  /** The planner's gaps, with the starts as calendar timestamps. */
  predicate SameGaps(gaps: seq<Gap>, windows: seq<Window>) {
    && ProperGaps(gaps) && |gaps| == |windows|
    && forall k :: 0 <= k < |gaps| ==> Moment(gaps[k].start) == windows[k].start && gaps[k].end == windows[k].end
  }

  lemma {:induction false} LackingIsCovering(gaps: seq<Gap>, windows: seq<Window>, t: Instant)
    requires SameGaps(gaps, windows)
    ensures Lacking(gaps, t) == Covering(windows, t)
  {
    hide Moment;
    if gaps == [] {
      assert windows == [];
    } else {
      var m := |gaps| - 1;
      LackingIsCovering(gaps[..m], windows[..m], t);
      assert windows == windows[..m] + [windows[m]];
      CoveringConcat(windows[..m], [windows[m]], t);
      CoveringOne(windows[m], t);
    }
  }

  lemma CoveringOne(w: Window, t: Instant)
    ensures Covering([w], t) == if Within(w, t) then 1 else 0
  {
    assert [w][1..] == [];
  }

  lemma SpansOfNext(runs: seq<Segment>, s: Segment, t: Instant)
    ensures Covering(Spans(runs + [s]), t) == Covering(Spans(runs), t) + if s.first <= t <= s.last then 1 else 0
  {
    hide Covering;
    SpansConcat(runs, [s]);
    SpansOfOne();
    CoveringConcat(Spans(runs), [Window(s.first, s.last)], t);
    CoveringOne(Window(s.first, s.last), t);
  }

  /** A grid point lies in exactly one listed run if it is missing, and in none if it is there. */
  lemma {:induction false} RunsCoverMissing(g: Grid, observed: set<Instant>, n: nat, k: nat)
    requires Steps(g)
    ensures Covering(Spans(Runs(g, observed, n)), Point(g, k)) == if k < n && Point(g, k) !in observed then 1 else 0
  {
    if n == 0 {
      NoRuns(g, observed);
      SpansOfOne();
    } else {
      var m, t, p := n - 1, Point(g, n - 1), Point(g, k);
      RunsCoverMissing(g, observed, m, k);
      RunsStep(g, observed, m);
      if k < m { Spread(g.interval, k, m); }
      if m < k { Spread(g.interval, m, k); }
      RunsAreNotEmpty(g, observed, m);
      assert k < m ==> p + g.interval <= t;
      assert m < k ==> t < p;
      hide Runs, Point, Spans, Covering, Extend;
      if t !in observed {
        ExtendCovers(Runs(g, observed, m), t, g.interval, p);
      }
    }
  }

  lemma ExtendCovers(runs: seq<Segment>, t: Instant, interval: int, p: Instant)
    requires interval > 0 && (p + interval <= t || t <= p)
    requires forall s :: s in runs ==> s.first <= s.last
    ensures Covering(Spans(Extend(runs, t, interval)), p) == Covering(Spans(runs), p) + if p == t then 1 else 0
  {
    hide Spans, Covering;
    if runs != [] && t == runs[|runs| - 1].last + interval {
      var rest, run := runs[..|runs| - 1], runs[|runs| - 1];
      assert runs == rest + [run];
      assert run in runs;
      SpansOfNext(rest, run, p);
      SpansOfNext(rest, Segment(run.first, t, run.points + 1), p);
    } else {
      SpansOfNext(runs, Segment(t, t, 1), p);
    }
  }

  lemma PointsOnMillis(g: Grid, a: int, b: int)
    requires Steps(g) && g.interval % MILLI == 0
    ensures (Point(g, b) - Point(g, a)) % MILLI == 0
  {
    var c := g.interval / MILLI;
    assert Point(g, b) - Point(g, a) == (b - a) * g.interval;
    assert g.interval == MILLI * c;
    assert (b - a) * (MILLI * c) == MILLI * ((b - a) * c);
    Multiple(Point(g, b) - Point(g, a), MILLI, (b - a) * c);
  }

  lemma {:induction false} SpansAt(runs: seq<Segment>)
    ensures |Spans(runs)| == |runs|
    ensures forall k :: 0 <= k < |runs| ==> Spans(runs)[k] == Window(runs[k].first, runs[k].last)
  {
    if runs != [] { SpansAt(runs[..|runs| - 1]); }
  }

  lemma GapsStartOnMillis(g: Grid, observed: set<Instant>, n: nat, k: nat, t: Instant)
    requires Steps(g) && g.interval % MILLI == 0 && k < |Spans(Runs(g, observed, n))|
    requires exists b :: t == Point(g, b)
    ensures (t - Spans(Runs(g, observed, n))[k].start) % MILLI == 0
  {
    hide Runs, Spans;
    var runs := Runs(g, observed, n);
    SpansAt(runs);
    RunsHaveShape(g, observed, n);
    assert runs[k] in runs;
    assert HasShape(g, n, runs[k]);
    var a, e :| 0 <= a <= e < n && runs[k] == SegmentOf(g, a, e);
    var b :| t == Point(g, b);
    PointsOnMillis(g, a, b);
  }

  /**
   * The incremental backfill fetches every missing point of the grid exactly once, and no stored point at all:
   * the gaps are found by the lag query and each is cut into windows of whole months.
   */
  lemma MissingPointsAreFetchedOnce(g: Grid, buckets: seq<Instant>, gaps: seq<Gap>, chunkMonths: nat, k: nat)
    requires Steps(g) && Clean(g, buckets) && Ascending(buckets) && (g.start <= g.end ==> OnGrid(g, g.end))
    requires g.interval % MILLI == 0 && chunkMonths >= 1
    requires SameGaps(gaps, LagGaps(g, buckets)) && k < ExpectedPoints(g)
    ensures Covering(ChunkedGaps(gaps, chunkMonths), Point(g, k)) == if Point(g, k) in Times(buckets) then 0 else 1
  {
    hide Runs, LagGaps, Spans, Covering, ChunkedGaps, Lacking, Moment, Clean, Ascending, OnGrid, ExpectedPoints,
      Times, Point;
    var t, n, observed := Point(g, k), ExpectedPoints(g), Times(buckets);
    FindersAgree(g, buckets, buckets);
    var windows := LagGaps(g, buckets);
    assert windows == Spans(Runs(g, observed, n));
    RunsCoverMissing(g, observed, n, k);
    LackingIsCovering(gaps, windows, t);
    forall i | 0 <= i < |gaps| ensures (t - Moment(gaps[i].start)) % MILLI == 0 {
      GapsStartOnMillis(g, observed, n, i, t);
    }
    ChunksCoverGapsExactly(gaps, chunkMonths, t);
  }
}
