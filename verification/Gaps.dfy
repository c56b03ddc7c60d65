/**
 * Three ways of finding the holes in a time series that should have one point every `interval`: a scan over
 * neighbouring timestamps, a set difference grouped into runs, and the `lag` query of the backfill planner.
 * Each is proved to list exactly the maximal runs of missing grid points.
 */
module Gaps {
  import opened Market
  import opened Calendar
  import opened Windows

  /** The points start, start + interval, ... that do not pass end. */
  datatype Grid = Grid(start: Instant, end: Instant, interval: int)

  /** A run of neighbouring missing points. */
  datatype Segment = Segment(first: Instant, last: Instant, points: int)

  datatype Profile = Profile(total: int, leading: int, internal: int, tail: int, segments: seq<Segment>)

  predicate Steps(g: Grid) {
    g.interval > 0
  }

  function ExpectedPoints(g: Grid): nat
    requires Steps(g)
  {
    if g.end < g.start then 0 else (g.end - g.start) / g.interval + 1
  }

  function Point(g: Grid, k: int): Instant {
    g.start + k * g.interval
  }

  /** The index of the last grid point not after t. */
  function Index(g: Grid, t: Instant): int
    requires Steps(g)
  {
    (t - g.start) / g.interval
  }

  predicate OnGrid(g: Grid, t: Instant)
    requires Steps(g)
  {
    g.start <= t <= g.end && (t - g.start) % g.interval == 0
  }

  // ----- The set difference -----

  function Missing(g: Grid, observed: set<Instant>, n: nat): seq<Instant> {
    if n == 0 then []
    else Missing(g, observed, n - 1) + if Point(g, n - 1) in observed then [] else [Point(g, n - 1)]
  }

  /** Adds the point t to the last run if it is next in line, otherwise begins a run. */
  function Extend(runs: seq<Segment>, t: Instant, interval: int): seq<Segment> {
    if runs != [] && t == runs[|runs| - 1].last + interval then
      var run := runs[|runs| - 1];
      runs[..|runs| - 1] + [Segment(run.first, t, run.points + 1)]
    else
      runs + [Segment(t, t, 1)]
  }

  function Grouped(points: seq<Instant>, interval: int): seq<Segment> {
    if points == [] then []
    else Extend(Grouped(points[..|points| - 1], interval), points[|points| - 1], interval)
  }

  /** The runs among the first n grid points. */
  function Runs(g: Grid, observed: set<Instant>, n: nat): seq<Segment> {
    Grouped(Missing(g, observed, n), g.interval)
  }

  function SumPoints(runs: seq<Segment>): int {
    if runs == [] then 0 else SumPoints(runs[..|runs| - 1]) + runs[|runs| - 1].points
  }

  predicate Ascending(points: seq<Instant>) {
    forall i, j :: 0 <= i < j < |points| ==> points[i] < points[j]
  }

  predicate IsGreatest(s: set<Instant>, t: Instant) {
    t in s && forall u :: u in s ==> u <= t
  }

  /** The elements of s in increasing order. */
  function Sorted(s: set<Instant>): seq<Instant> {
    if s == {} then [] else
      Greatest(s);
      var t :| t in s && IsGreatest(s, t);
      Sorted(s - {t}) + [t]
  }

  lemma {:induction false} SortedLists(s: set<Instant>)
    ensures Ascending(Sorted(s)) && |Sorted(s)| == |s|
    ensures forall t :: t in Sorted(s) <==> t in s
  {
    if s != {} {
      Greatest(s);
      var t :| t in s && IsGreatest(s, t);
      SortedLists(s - {t});
      hide Sorted;
      var init := Sorted(s - {t});
      assert Sorted(s) == init + [t] by { SortedEnds(s, t); }
      forall k | 0 <= k < |init| ensures init[k] < t {
        assert init[k] in init;
      }
    }
  }

  lemma SortedEnds(s: set<Instant>, t: Instant)
    requires IsGreatest(s, t)
    ensures Sorted(s) == Sorted(s - {t}) + [t]
  {
  }

  lemma HasMember(s: set<Instant>)
    ensures s == {} || exists t :: t in s
  {
    if forall t :: t !in s { assert s == {}; }
  }

  lemma {:induction false} Greatest(s: set<Instant>)
    requires |s| > 0
    ensures exists t :: t in s && IsGreatest(s, t)
  {
    HasMember(s);
    var t :| t in s;
    var rest := s - {t};
    if |rest| > 0 {
      Greatest(rest);
      var best :| best in rest && IsGreatest(rest, best);
      GreatestOfBoth(s, t, best);
    } else {
      assert s == {t};
      assert IsGreatest(s, t);
    }
  }

  lemma GreatestOfBoth(s: set<Instant>, t: Instant, best: Instant)
    requires t in s && best in s && IsGreatest(s - {t}, best)
    ensures IsGreatest(s, if t < best then best else t)
  {
    forall u | u in s ensures u <= t || u <= best {
      assert u == t || u in s - {t};
    }
  }

  /** A set can be listed in increasing order in only one way. */
  lemma {:induction false} AscendingIsUnique(a: seq<Instant>, b: seq<Instant>)
    requires Ascending(a) && Ascending(b)
    requires forall t :: t in a <==> t in b
    ensures a == b
  {
    if b != [] { var t := b[0]; assert t in b; }
    if a != [] {
      var t := a[0];
      assert t in a && t in b;
      var m, n := |a| - 1, |b| - 1;
      assert a[m] in b && b[n] in a;
      assert a[m] == b[n];
      forall t ensures t in a[..m] <==> t in b[..n] {
        assert t in a[..m] <==> t in a && t != a[m];
        assert t in b[..n] <==> t in b && t != b[n];
      }
      AscendingIsUnique(a[..m], b[..n]);
    }
  }

  method ExpectedTimestamps(g: Grid) returns (expected: set<Instant>, expectedPoints: nat)
    requires Steps(g)
    ensures expectedPoints == ExpectedPoints(g) && expected == GridSet(g, expectedPoints)
  {
    expected, expectedPoints := {}, 0;
    var current := g.start;
    while current <= g.end
      invariant current == Point(g, expectedPoints)
      invariant expected == GridSet(g, expectedPoints)
      invariant expectedPoints <= ExpectedPoints(g)
      decreases g.end - current + g.interval
    {
      PointWithin(g, expectedPoints);
      PointsIncrease(g);
      expected := expected + {current};
      expectedPoints := expectedPoints + 1;
      current := current + g.interval;
    }
    PointWithin(g, expectedPoints);
  }

  method GroupMissing(missing: seq<Instant>, interval: int) returns (segments: seq<Segment>)
    ensures segments == Grouped(missing, interval)
  {
    segments := [];
    if missing != [] {
      var first, last, count := missing[0], missing[0], 1;
      assert Grouped(missing[..1], interval) == Extend(Grouped(missing[..1][..0], interval), first, interval);
      var k := 1;
      while k < |missing|
        invariant 1 <= k <= |missing|
        invariant segments + [Segment(first, last, count)] == Grouped(missing[..k], interval)
      {
        var t := missing[k];
        assert missing[..k + 1][..k] == missing[..k];
        ghost var runs := segments + [Segment(first, last, count)];
        assert runs[..|runs| - 1] == segments;
        if t == last + interval {
          last := t;
          count := count + 1;
        } else {
          segments := segments + [Segment(first, last, count)];
          first := t;
          last := t;
          count := 1;
        }
        k := k + 1;
      }
      segments := segments + [Segment(first, last, count)];
      assert missing[..k] == missing;
    }
  }

  method FindBySetDifference(g: Grid, rows: seq<Instant>) returns (segments: seq<Segment>, expectedPoints: nat)
    requires Steps(g)
    ensures segments == Runs(g, Times(rows), ExpectedPoints(g))
    ensures expectedPoints == ExpectedPoints(g)
  {
    hide Point, Ascending;
    var expected;
    expected, expectedPoints := ExpectedTimestamps(g);
    var observed := Times(rows);
    var missing := Sorted(expected - observed);
    SortedLists(expected - observed);
    MissingLists(g, observed, expectedPoints);
    AscendingIsUnique(missing, Missing(g, observed, expectedPoints));
    segments := GroupMissing(missing, g.interval);
  }

  function Times(rows: seq<Instant>): set<Instant> {
    set t | t in rows
  }

  function GridSet(g: Grid, n: nat): set<Instant> {
    if n == 0 then {} else GridSet(g, n - 1) + {Point(g, n - 1)}
  }

  // ----- The pairwise scan -----

  /** Division that drops the fraction, towards zero. */
  function Truncated(x: int, n: int): int
    requires n > 0
  {
    if x >= 0 then x / n else -(-x / n)
  }

  function Between(g: Grid, previous: Instant, current: Instant): seq<Segment>
    requires Steps(g)
  {
    var steps := Truncated(current - previous, g.interval);
    if steps <= 1 then [] else [Segment(previous + g.interval, current - g.interval, steps - 1)]
  }

  function Internal(g: Grid, timestamps: seq<Instant>): seq<Segment>
    requires Steps(g)
  {
    var m := |timestamps|;
    if m <= 1 then [] else Internal(g, timestamps[..m - 1]) + Between(g, timestamps[m - 2], timestamps[m - 1])
  }

  function LeadingShortfall(g: Grid, timestamps: seq<Instant>): int
    requires Steps(g)
  {
    if timestamps == [] then ExpectedPoints(g)
    else if timestamps[0] > g.start then Truncated(timestamps[0] - g.start, g.interval)
    else 0
  }

  function TailShortfall(g: Grid, timestamps: seq<Instant>): int
    requires Steps(g)
  {
    if timestamps == [] then 0
    else
      var last := timestamps[|timestamps| - 1];
      if last < g.end then Truncated(g.end - last, g.interval) else 0
  }

  function ProfileOf(g: Grid, timestamps: seq<Instant>): Profile
    requires Steps(g)
  {
    if g.end < g.start then Profile(0, 0, 0, 0, [])
    else
      var leading, tail := LeadingShortfall(g, timestamps), TailShortfall(g, timestamps);
      var segments := Internal(g, timestamps);
      Profile(leading + SumPoints(segments) + tail, leading, SumPoints(segments), tail, segments)
  }

  method ScanPairs(g: Grid, timestamps: seq<Instant>) returns (segments: seq<Segment>, internal: int)
    requires Steps(g) && timestamps != []
    ensures segments == Internal(g, timestamps) && internal == SumPoints(segments)
  {
    hide Internal, SumPoints, Truncated;
    segments, internal := [], 0;
    NoPairs(g);
    InternalOfOne(g, timestamps);
    var k := 1;
    while k < |timestamps|
      invariant 1 <= k <= |timestamps|
      invariant segments == Internal(g, timestamps[..k]) && internal == SumPoints(segments)
    {
      InternalStep(g, timestamps, k);
      var previous, current := timestamps[k - 1], timestamps[k];
      var steps := Truncated(current - previous, g.interval);
      if steps > 1 {
        var segment := Segment(previous + g.interval, current - g.interval, steps - 1);
        SumOneMore(segments, segment);
        segments := segments + [segment];
        internal := internal + (steps - 1);
      }
      k := k + 1;
    }
    assert timestamps[..k] == timestamps;
  }

  lemma InternalOfOne(g: Grid, timestamps: seq<Instant>)
    requires Steps(g) && timestamps != []
    ensures Internal(g, timestamps[..1]) == []
  {
  }

  lemma InternalStep(g: Grid, timestamps: seq<Instant>, k: nat)
    requires Steps(g) && 1 <= k < |timestamps|
    ensures Internal(g, timestamps[..k + 1]) ==
            Internal(g, timestamps[..k]) + Between(g, timestamps[k - 1], timestamps[k])
  {
    hide Between;
    assert timestamps[..k + 1][..k] == timestamps[..k];
  }

  lemma SumOneMore(runs: seq<Segment>, s: Segment)
    ensures SumPoints(runs + [s]) == SumPoints(runs) + s.points
  {
    assert (runs + [s])[..|runs|] == runs;
  }

  method ProfileTimestamps(g: Grid, timestamps: seq<Instant>) returns (profile: Profile)
    requires Steps(g)
    ensures profile == ProfileOf(g, timestamps)
  {
    hide Internal, Truncated;
    if g.end < g.start {
      return Profile(0, 0, 0, 0, []);
    }
    if timestamps == [] {
      NoPairs(g);
      return Profile(ExpectedPoints(g), ExpectedPoints(g), 0, 0, []);
    }
    var leading, tail := 0, 0;
    if timestamps[0] > g.start {
      leading := Truncated(timestamps[0] - g.start, g.interval);
    }
    var segments, internal := ScanPairs(g, timestamps);
    var last := timestamps[|timestamps| - 1];
    if last < g.end {
      tail := Truncated(g.end - last, g.interval);
    }
    profile := Profile(leading + internal + tail, leading, internal, tail, segments);
  }

  lemma NoPairs(g: Grid)
    requires Steps(g)
    ensures Internal(g, []) == [] && SumPoints([]) == 0
  {
  }

  /** The run of c points from grid index a on, if there is one. */
  function RunFrom(g: Grid, a: int, c: int): seq<Segment> {
    if c <= 0 then [] else [Segment(Point(g, a), Point(g, a + c - 1), c)]
  }

  /** Every gap the profile speaks of: the counts before and after, and the listed ones in between. */
  function ProfiledGaps(g: Grid, timestamps: seq<Instant>): seq<Segment>
    requires Steps(g)
  {
    var p := ProfileOf(g, timestamps);
    RunFrom(g, 0, p.leading) + p.segments + RunFrom(g, ExpectedPoints(g) - p.tail, p.tail)
  }

  // ----- The lag query -----

  function Lagged(g: Grid, buckets: seq<Instant>): seq<Window> {
    var m := |buckets|;
    if m <= 1 then []
    else
      Lagged(g, buckets[..m - 1]) +
      if buckets[m - 1] > buckets[m - 2] + g.interval
      then [Window(buckets[m - 2] + g.interval, buckets[m - 1] - g.interval)]
      else []
  }

  function Nonempty(spans: seq<Window>): seq<Window> {
    if spans == [] then []
    else
      Nonempty(spans[..|spans| - 1]) +
      if spans[|spans| - 1].start <= spans[|spans| - 1].end then [spans[|spans| - 1]] else []
  }

  /** The union of the query's four branches over the distinct buckets in order, filtered as the query does. */
  function LagGaps(g: Grid, buckets: seq<Instant>): seq<Window> {
    if g.end < g.start then [] else Nonempty(LagBranches(g, buckets))
  }

  function LagBranches(g: Grid, buckets: seq<Instant>): seq<Window> {
    if buckets == [] then [Window(g.start, g.end)]
    else
      var first, last := buckets[0], buckets[|buckets| - 1];
      (if first > g.start then [Window(g.start, first - g.interval)] else []) +
      Lagged(g, buckets) +
      (if last < g.end then [Window(last + g.interval, g.end)] else [])
  }

  function Spans(runs: seq<Segment>): seq<Window> {
    if runs == [] then []
    else Spans(runs[..|runs| - 1]) + [Window(runs[|runs| - 1].first, runs[|runs| - 1].last)]
  }

  // ----- Points of the grid -----

  lemma PointsIncrease(g: Grid)
    requires Steps(g)
    ensures forall a, b :: a < b ==> Point(g, a) + g.interval <= Point(g, b)
    ensures forall a, b :: b == a + 1 ==> Point(g, a) + g.interval == Point(g, b)
  {
    forall a, b | a < b ensures Point(g, a) + g.interval <= Point(g, b) {
      Spread(g.interval, a, b);
    }
  }

  lemma PointsCompare(g: Grid, a: int, b: int)
    requires Steps(g)
    ensures Point(g, a) < Point(g, b) <==> a < b
  {
    if a < b { Spread(g.interval, a, b); }
    if b < a { Spread(g.interval, b, a); }
  }

  lemma PointWithin(g: Grid, k: nat)
    requires Steps(g)
    ensures Point(g, k) <= g.end <==> k < ExpectedPoints(g)
  {
    if g.end >= g.start {
      var q := (g.end - g.start) / g.interval;
      assert g.end - g.start == g.interval * q + (g.end - g.start) % g.interval;
      if k <= q {
        if k < q { Spread(g.interval, k, q); }
      } else {
        Spread(g.interval, q, k);
      }
    } else {
      assert k * g.interval >= 0;
    }
  }

  /** A timestamp is on the grid exactly when it is one of the expected points. */
  lemma OnGridHasIndex(g: Grid, t: Instant)
    requires Steps(g) && OnGrid(g, t)
    ensures 0 <= Index(g, t) < ExpectedPoints(g) && Point(g, Index(g, t)) == t
  {
    PointWithin(g, Index(g, t));
  }

  lemma PointHasIndex(g: Grid, k: nat)
    requires Steps(g)
    ensures Index(g, Point(g, k)) == k
    ensures k < ExpectedPoints(g) <==> OnGrid(g, Point(g, k))
  {
    QuotientIs(Point(g, k) - g.start, g.interval, k, 0);
    PointWithin(g, k);
    assert k * g.interval >= 0;
  }

  /** The distance of two grid points is counted exactly, with no fraction to drop. */
  lemma StepsBetween(g: Grid, a: int, b: int)
    requires Steps(g) && a <= b
    ensures Truncated(Point(g, b) - Point(g, a), g.interval) == b - a
  {
    if a < b { Spread(g.interval, a, b); }
    assert Point(g, b) - Point(g, a) == g.interval * (b - a);
    QuotientIs(Point(g, b) - Point(g, a), g.interval, b - a, 0);
  }

  lemma {:induction false} MissingLists(g: Grid, observed: set<Instant>, n: nat)
    requires Steps(g)
    ensures Ascending(Missing(g, observed, n))
    ensures forall t :: t in Missing(g, observed, n) <==> t in GridSet(g, n) - observed
    ensures forall t :: t in GridSet(g, n) ==> t < Point(g, n)
  {
    if n > 0 {
      PointsIncrease(g);
      hide Point;
      MissingLists(g, observed, n - 1);
      var init := Missing(g, observed, n - 1);
      forall i | 0 <= i < |init| ensures init[i] < Point(g, n - 1) {
        assert init[i] in init;
      }
    }
  }

  // ----- The runs are the maximal runs -----

  /** Grid points a to b are all missing, and neither neighbour within the first n points is. */
  ghost predicate IsMaximalRun(g: Grid, observed: set<Instant>, n: nat, a: int, b: int) {
    0 <= a <= b < n
    && (forall k :: a <= k <= b ==> Point(g, k) !in observed)
    && (a == 0 || Point(g, a - 1) in observed)
    && (b == n - 1 || Point(g, b + 1) in observed)
  }

  function SegmentOf(g: Grid, a: int, b: int): Segment {
    Segment(Point(g, a), Point(g, b), b - a + 1)
  }

  ghost predicate HasShape(g: Grid, n: nat, s: Segment) {
    exists a, b :: 0 <= a <= b < n && s == SegmentOf(g, a, b)
  }

  lemma RunsStep(g: Grid, observed: set<Instant>, n: nat)
    ensures Runs(g, observed, n + 1) ==
            if Point(g, n) in observed then Runs(g, observed, n)
              else Extend(Runs(g, observed, n), Point(g, n), g.interval)
  {
    var missing := Missing(g, observed, n);
    if Point(g, n) in observed {
      assert Missing(g, observed, n + 1) == missing;
    } else {
      assert Missing(g, observed, n + 1)[..|missing|] == missing;
    }
  }

  lemma {:induction false} RunsHaveShape(g: Grid, observed: set<Instant>, n: nat)
    requires Steps(g)
    ensures forall s :: s in Runs(g, observed, n) ==> HasShape(g, n, s)
  {
    if n > 0 {
      PointsIncrease(g);
      RunsHaveShape(g, observed, n - 1);
      RunsStep(g, observed, n - 1);
      hide Point, Runs;
      var runs := Runs(g, observed, n - 1);
      forall s | s in Runs(g, observed, n) ensures HasShape(g, n, s) {
        if s in runs {
          assert HasShape(g, n - 1, s);
          var a, b :| 0 <= a <= b < n - 1 && s == SegmentOf(g, a, b);
          assert 0 <= a <= b < n && s == SegmentOf(g, a, b);
        } else if runs != [] && s.last == runs[|runs| - 1].last + g.interval {
          assert HasShape(g, n - 1, runs[|runs| - 1]);
          var a, b :| 0 <= a <= b < n - 1 && runs[|runs| - 1] == SegmentOf(g, a, b);
          assert b < n - 2 ==> Point(g, b + 1) < Point(g, n - 1);
          assert s == SegmentOf(g, a, n - 1);
        } else {
          assert s == SegmentOf(g, n - 1, n - 1);
        }
      }
    }
  }

  lemma RunsEndEarly(g: Grid, observed: set<Instant>, n: nat)
    requires Steps(g) && n > 0
    ensures forall s :: s in Runs(g, observed, n) ==> s.first <= s.last <= Point(g, n - 1)
  {
    PointsIncrease(g);
    RunsHaveShape(g, observed, n);
    hide Point, Runs;
    forall s | s in Runs(g, observed, n) ensures s.first <= s.last <= Point(g, n - 1) {
      assert HasShape(g, n, s);
    }
  }

  predicate Separate(runs: seq<Segment>, interval: int) {
    forall i, j :: 0 <= i < j < |runs| ==> runs[i].last + interval < runs[j].first
  }

  lemma ExtendKeepsSeparate(runs: seq<Segment>, t: Instant, interval: int)
    requires Separate(runs, interval) && forall k :: 0 <= k < |runs| ==> runs[k].last + interval <= t
    requires forall k :: 0 <= k < |runs| ==> runs[k].first <= runs[k].last
    requires interval > 0
    ensures Separate(Extend(runs, t, interval), interval)
  {
  }

  /** The runs are listed in order, with an observed point between any two. */
  lemma {:induction false} RunsAreSeparate(g: Grid, observed: set<Instant>, n: nat)
    requires Steps(g)
    ensures Separate(Runs(g, observed, n), g.interval)
  {
    if n == 0 {
      NoRuns(g, observed);
    } else {
      PointsIncrease(g);
      RunsAreSeparate(g, observed, n - 1);
      RunsStep(g, observed, n - 1);
      hide Runs, Point, Extend, Separate;
      var runs := Runs(g, observed, n - 1);
      if n > 1 {
        RunsEndEarly(g, observed, n - 1);
      } else {
        NoRuns(g, observed);
      }
      forall k | 0 <= k < |runs| ensures runs[k].first <= runs[k].last <= Point(g, n - 1) - g.interval {
        assert runs[k] in runs;
      }
      ExtendKeepsSeparate(runs, Point(g, n - 1), g.interval);
    }
  }

  /** The last listed run ends at the last point if that is missing; otherwise all runs end before it. */
  lemma {:induction false} LastRun(g: Grid, observed: set<Instant>, n: nat)
    requires Steps(g) && n > 0
    ensures var runs := Runs(g, observed, n);
            if Point(g, n - 1) in observed then forall s :: s in runs ==> s.last < Point(g, n - 1)
            else runs != [] && runs[|runs| - 1].last == Point(g, n - 1)
  {
    PointsIncrease(g);
    RunsStep(g, observed, n - 1);
    RunsHaveShape(g, observed, n - 1);
    hide Point, Runs;
    forall s | s in Runs(g, observed, n - 1) ensures s.last < Point(g, n - 1) {
      assert HasShape(g, n - 1, s);
    }
  }

  /** The runs listed for a grid are exactly its maximal runs of missing points. */
  lemma {:induction false} GapsAreMaximalRuns(g: Grid, observed: set<Instant>, n: nat, a: int, b: int)
    requires Steps(g) && 0 <= a <= b < n
    ensures SegmentOf(g, a, b) in Runs(g, observed, n) <==> IsMaximalRun(g, observed, n, a, b)
    decreases n
  {
    hide Runs, SegmentOf, IsMaximalRun;
    var m := n - 1;
    if b < m {
      GapsAreMaximalRuns(g, observed, m, a, b);
      MaximalBefore(g, observed, m, a, b);
      ListedBefore(g, observed, m, a, b);
    } else {
      if a < m {
        GapsAreMaximalRuns(g, observed, m, a, m - 1);
        MaximalAtEnd(g, observed, m, a);
      } else {
        MaximalAlone(g, observed, m);
      }
      ListedAtEnd(g, observed, m, a);
    }
  }

  /** Growing the grid by a point keeps a run that does not end next to it, and one that does if it is observed. */
  lemma ListedBefore(g: Grid, observed: set<Instant>, m: nat, a: int, b: int)
    requires Steps(g) && 0 <= a <= b < m
    ensures SegmentOf(g, a, b) in Runs(g, observed, m + 1) <==>
            SegmentOf(g, a, b) in Runs(g, observed, m) && (b == m - 1 ==> Point(g, m) in observed)
  {
    PointsIncrease(g);
    RunsStep(g, observed, m);
    LastRun(g, observed, m);
    hide Point, Runs;
    var runs, s := Runs(g, observed, m), SegmentOf(g, a, b);
    if s in runs { LastIsTheOnlyOneAt(g, observed, m, s); }
    if runs != [] { NotBeforeLast(g, observed, m); }
  }

  /** Of the runs that end at t, only the extended one is listed. */
  lemma ExtendedAtEnd(runs: seq<Segment>, t: Instant, interval: int, s: Segment)
    requires s.last == t && forall r :: r in runs ==> r.last < t
    ensures s in Extend(runs, t, interval) <==>
            s == if runs != [] && t == runs[|runs| - 1].last + interval
                 then Segment(runs[|runs| - 1].first, t, runs[|runs| - 1].points + 1) else Segment(t, t, 1)
  {
    assert forall k :: 0 <= k < |runs| ==> runs[k] in runs;
  }

  lemma ListedAtEnd(g: Grid, observed: set<Instant>, m: nat, a: int)
    requires Steps(g) && 0 <= a <= m
    ensures SegmentOf(g, a, m) in Runs(g, observed, m + 1) <==>
            Point(g, m) !in observed
            && if a < m then SegmentOf(g, a, m - 1) in Runs(g, observed, m) else m == 0 || Point(g, m - 1) in observed
  {
    hide Runs, Extend;
    var runs, s := Runs(g, observed, m), SegmentOf(g, a, m);
    RunsStep(g, observed, m);
    RunsEndBefore(g, observed, m);
    if Point(g, m) !in observed {
      ExtendedAtEnd(runs, Point(g, m), g.interval, s);
      if m == 0 {
        NoRuns(g, observed);
      } else {
        LastRun(g, observed, m);
        NextPoint(g, m - 1);
        if Point(g, m - 1) !in observed {
          LastHasShape(g, observed, m);
          EndsListedRun(g, observed, m, a);
        }
      }
    }
  }

  lemma RunsEndBefore(g: Grid, observed: set<Instant>, n: nat)
    requires Steps(g)
    ensures forall r :: r in Runs(g, observed, n) ==> r.last < Point(g, n)
  {
    PointsIncrease(g);
    RunsHaveShape(g, observed, n);
    hide Point, Runs;
    forall r | r in Runs(g, observed, n) ensures r.last < Point(g, n) {
      assert HasShape(g, n, r);
    }
  }

  /** A run that ends at the last point is listed exactly if it is the last run. */
  lemma EndsListedRun(g: Grid, observed: set<Instant>, m: nat, a: int)
    requires Steps(g) && m > 0 && 0 <= a <= m && Runs(g, observed, m) != []
    requires Runs(g, observed, m)[|Runs(g, observed, m)| - 1].last == Point(g, m - 1)
    ensures var last := Runs(g, observed, m)[|Runs(g, observed, m)| - 1];
            var longer := Segment(last.first, Point(g, m), last.points + 1);
            SegmentOf(g, a, m) == longer <==> a < m && SegmentOf(g, a, m - 1) in Runs(g, observed, m)
  {
    var runs := Runs(g, observed, m);
    var last := runs[|runs| - 1];
    LastHasShape(g, observed, m);
    if SegmentOf(g, a, m - 1) in runs {
      LastIsTheOnlyOneAt(g, observed, m, SegmentOf(g, a, m - 1));
    }
    hide Runs;
    PointsIncrease(g);
    hide Point;
    assert last.points >= 1;
  }

  lemma LastHasShape(g: Grid, observed: set<Instant>, n: nat)
    requires Steps(g) && Runs(g, observed, n) != []
    ensures var last := Runs(g, observed, n)[|Runs(g, observed, n)| - 1];
            last.first <= last.last < Point(g, n) && last == SegmentOf(g, Index(g, last.first), Index(g, last.last))
  {
    RunsHaveShape(g, observed, n);
    PointsIncrease(g);
    var last := Runs(g, observed, n)[|Runs(g, observed, n)| - 1];
    assert HasShape(g, n, last);
    var a, b :| 0 <= a <= b < n && last == SegmentOf(g, a, b);
    PointHasIndex(g, a);
    PointHasIndex(g, b);
  }

  lemma NotBeforeLast(g: Grid, observed: set<Instant>, n: nat)
    requires Steps(g) && Runs(g, observed, n) != []
    ensures var runs := Runs(g, observed, n); runs[|runs| - 1] !in runs[..|runs| - 1]
  {
    RunsAreSeparate(g, observed, n);
    LastHasShape(g, observed, n);
    hide Runs, Point, SegmentOf, Index;
  }

  /** No point is missing before the first run. */
  lemma {:induction false} FirstRunIsFirst(g: Grid, observed: set<Instant>, n: nat, k: nat)
    requires Steps(g) && k < n && Point(g, k) !in observed
    ensures Runs(g, observed, n) != [] && Runs(g, observed, n)[0].first <= Point(g, k)
    decreases n
  {
    PointsIncrease(g);
    RunsStep(g, observed, n - 1);
    if n > 1 {
      RunsEndEarly(g, observed, n - 1);
    } else {
      NoRuns(g, observed);
    }
    if k < n - 1 {
      FirstRunIsFirst(g, observed, n - 1, k);
    }
    hide Runs, Point;
    var runs := Runs(g, observed, n - 1);
    if runs != [] { assert runs[0] in runs; }
  }

  lemma {:induction false} NoneMissingNoRuns(g: Grid, observed: set<Instant>, n: nat)
    requires forall k :: 0 <= k < n ==> Point(g, k) in observed
    ensures Runs(g, observed, n) == []
  {
    if n == 0 {
      NoRuns(g, observed);
    } else {
      assert Point(g, n - 1) in observed;
      RunsStep(g, observed, n - 1);
      hide Runs, Point;
      NoneMissingNoRuns(g, observed, n - 1);
    }
  }

  lemma MaximalBefore(g: Grid, observed: set<Instant>, m: nat, a: int, b: int)
    requires 0 <= a <= b < m
    ensures IsMaximalRun(g, observed, m + 1, a, b) <==>
            IsMaximalRun(g, observed, m, a, b) && (b == m - 1 ==> Point(g, m) in observed)
  {
    hide Point;
  }

  lemma MaximalAtEnd(g: Grid, observed: set<Instant>, m: nat, a: int)
    requires 0 <= a < m
    ensures IsMaximalRun(g, observed, m + 1, a, m) <==>
            Point(g, m) !in observed && IsMaximalRun(g, observed, m, a, m - 1)
  {
    hide Point;
  }

  lemma MaximalAlone(g: Grid, observed: set<Instant>, m: nat)
    ensures IsMaximalRun(g, observed, m + 1, m, m) <==>
            Point(g, m) !in observed && (m == 0 || Point(g, m - 1) in observed)
  {
    hide Point;
  }

  lemma LastIsTheOnlyOneAt(g: Grid, observed: set<Instant>, n: nat, s: Segment)
    requires Steps(g) && s in Runs(g, observed, n)
    ensures var last := Runs(g, observed, n)[|Runs(g, observed, n)| - 1];
            s == last || s.last + g.interval < last.first <= last.last
  {
    RunsAreSeparate(g, observed, n);
    RunsHaveShape(g, observed, n);
    PointsIncrease(g);
    hide Point, Runs;
    var runs := Runs(g, observed, n);
    assert HasShape(g, n, runs[|runs| - 1]);
  }

  // ----- The finders agree -----

  predicate Nondecreasing(points: seq<Instant>) {
    forall i, j :: 0 <= i < j < |points| ==> points[i] <= points[j]
  }

  /** What the finders need of the stored rows: in order and on the grid; repeats do no harm. */
  predicate Clean(g: Grid, rows: seq<Instant>)
    requires Steps(g)
  {
    Nondecreasing(rows) && forall k :: 0 <= k < |rows| ==> OnGrid(g, rows[k])
  }

  /** What a time-ordered query bounded by the grid returns. */
  predicate InRange(g: Grid, rows: seq<Instant>) {
    Nondecreasing(rows) && forall k :: 0 <= k < |rows| ==> g.start <= rows[k] <= g.end
  }

  /** Neighbouring rows between which no grid point escapes the scan. */
  predicate StepFits(g: Grid, previous: Instant, current: Instant)
    requires Steps(g)
  {
    || Index(g, previous) == Index(g, current)
    || (OnGrid(g, current) && (OnGrid(g, previous) || Index(g, current) == Index(g, previous) + 1))
  }

  /** The first row is on the grid, and so far every step fits. */
  predicate Fits(g: Grid, rows: seq<Instant>, m: nat)
    requires Steps(g)
  {
    1 <= m <= |rows| && OnGrid(g, rows[0]) && forall k :: 1 <= k < m ==> StepFits(g, rows[k - 1], rows[k])
  }

  predicate Seamless(g: Grid, rows: seq<Instant>)
    requires Steps(g)
  {
    rows == [] || (Fits(g, rows, |rows|) && OnGrid(g, rows[|rows| - 1]))
  }

  lemma CleanIsSeamless(g: Grid, rows: seq<Instant>)
    requires Steps(g) && Clean(g, rows)
    ensures InRange(g, rows) && Seamless(g, rows)
  {
  }

  lemma BeginsRun(g: Grid, observed: set<Instant>, a: nat)
    requires Steps(g) && Point(g, a) !in observed && (a == 0 || Point(g, a - 1) in observed)
    ensures Runs(g, observed, a + 1) == Runs(g, observed, a) + [Segment(Point(g, a), Point(g, a), 1)]
  {
    PointsIncrease(g);
    RunsStep(g, observed, a);
    if a == 0 {
      NoRuns(g, observed);
    } else {
      LastRun(g, observed, a);
    }
  }

  lemma ExtendLast(before: seq<Segment>, s: Segment, t: Instant, interval: int)
    requires t == s.last + interval
    ensures Extend(before + [s], t, interval) == before + [Segment(s.first, t, s.points + 1)]
  {
  }

  lemma OneRunFrom(g: Grid, a: int, c: int)
    requires c > 0
    ensures RunFrom(g, a, c) == [SegmentOf(g, a, a + c - 1)]
  {
  }

  lemma NextPoint(g: Grid, k: int)
    ensures Point(g, k + 1) == Point(g, k) + g.interval
  {
  }

  /** Points a to b - 1, all missing after an observed point, make one run. */
  lemma {:induction false} MissingMakeOneRun(g: Grid, observed: set<Instant>, a: nat, b: nat)
    requires Steps(g) && a < b
    requires forall k :: a <= k < b ==> Point(g, k) !in observed
    requires a == 0 || Point(g, a - 1) in observed
    ensures Runs(g, observed, b) == Runs(g, observed, a) + RunFrom(g, a, b - a)
    decreases b
  {
    hide Runs, Point, Extend, RunFrom;
    OneRunFrom(g, a, b - a);
    if a == b - 1 {
      BeginsRun(g, observed, a);
    } else {
      MissingMakeOneRun(g, observed, a, b - 1);
      RunsStep(g, observed, b - 1);
      OneRunFrom(g, a, b - 1 - a);
      NextPoint(g, b - 2);
      ExtendLast(Runs(g, observed, a), SegmentOf(g, a, b - 2), Point(g, b - 1), g.interval);
    }
  }

  lemma FirstRows(g: Grid, rows: seq<Instant>)
    requires Steps(g) && InRange(g, rows) && rows != [] && OnGrid(g, rows[0])
    ensures RunFrom(g, 0, LeadingShortfall(g, rows)) == Runs(g, Times(rows), Index(g, rows[0]) + 1)
  {
    var observed, k := Times(rows), Index(g, rows[0]);
    OnGridHasIndex(g, rows[0]);
    PointsIncrease(g);
    RunsStep(g, observed, k);
    StepsBetween(g, 0, k);
    assert Point(g, 0) == g.start;
    if k > 0 {
      MissingMakeOneRun(g, observed, 0, k);
    }
  }

  lemma NothingBetween(g: Grid, rows: seq<Instant>, m: nat, a: int, b: int)
    requires Steps(g) && Nondecreasing(rows) && 1 <= m < |rows|
    requires Point(g, a) == rows[m - 1] && Point(g, b) == rows[m]
    ensures forall k :: a < k < b ==> Point(g, k) !in Times(rows)
  {
    PointsIncrease(g);
    hide Point;
    assert forall i :: 0 <= i < |rows| ==> rows[i] <= rows[m - 1] || rows[m] <= rows[i];
    assert forall k :: a < k < b ==> rows[m - 1] < Point(g, k) < rows[m];
  }

  lemma BetweenIsRun(g: Grid, a: int, b: int)
    requires Steps(g) && a <= b
    ensures Between(g, Point(g, a), Point(g, b)) == RunFrom(g, a + 1, b - a - 1)
  {
    StepsBetween(g, a, b);
    hide Truncated;
  }

  lemma NextGridRow(g: Grid, rows: seq<Instant>, m: nat)
    requires Steps(g) && InRange(g, rows) && 1 <= m < |rows| && OnGrid(g, rows[m - 1]) && OnGrid(g, rows[m])
    ensures Runs(g, Times(rows), Index(g, rows[m]) + 1) ==
            Runs(g, Times(rows), Index(g, rows[m - 1]) + 1) + Between(g, rows[m - 1], rows[m])
  {
    hide Point, Index, Runs, Between, RunFrom, Times;
    var observed, a, b := Times(rows), Index(g, rows[m - 1]), Index(g, rows[m]);
    OnGridHasIndex(g, rows[m - 1]);
    OnGridHasIndex(g, rows[m]);
    assert a <= b by { PointsIncrease(g); }
    BetweenIsRun(g, a, b);
    NothingBetween(g, rows, m, a, b);
    HasTimes(rows);
    NoRuns(g, observed);
    if a < b {
      RunsStep(g, observed, b);
      if a + 1 < b {
        MissingMakeOneRun(g, observed, a + 1, b);
      }
    } else {
      assert RunFrom(g, a + 1, -1) == [] by { NoRun(g, a + 1); }
    }
  }

  /** Less than an interval is no step, whatever lies between. */
  lemma NarrowIsEmpty(g: Grid, previous: Instant, current: Instant)
    requires Steps(g) && previous <= current < previous + g.interval
    ensures Between(g, previous, current) == []
  {
    QuotientIs(current - previous, g.interval, 0, current - previous);
  }

  /** A time lies at or after the point of its index and before the next one, and at it exactly when on the grid. */
  lemma IndexBounds(g: Grid, t: Instant)
    requires Steps(g) && g.start <= t <= g.end
    ensures Point(g, Index(g, t)) <= t < Point(g, Index(g, t) + 1) == Point(g, Index(g, t)) + g.interval
    ensures 0 <= Index(g, t) < ExpectedPoints(g)
    ensures OnGrid(g, t) <==> Point(g, Index(g, t)) == t
  {
    assert t - g.start == g.interval * Index(g, t) + (t - g.start) % g.interval;
    PointWithin(g, Index(g, t));
  }

  lemma NextRow(g: Grid, rows: seq<Instant>, m: nat)
    requires Steps(g) && InRange(g, rows) && 1 <= m < |rows| && StepFits(g, rows[m - 1], rows[m])
    ensures Runs(g, Times(rows), Index(g, rows[m]) + 1) ==
            Runs(g, Times(rows), Index(g, rows[m - 1]) + 1) + Between(g, rows[m - 1], rows[m])
  {
    hide Point, Index, Runs, Between, RunFrom, Times, OnGrid, ExpectedPoints;
    var previous, current := rows[m - 1], rows[m];
    if OnGrid(g, previous) && OnGrid(g, current) {
      NextGridRow(g, rows, m);
    } else {
      IndexBounds(g, previous);
      IndexBounds(g, current);
      NarrowIsEmpty(g, previous, current);
      if Index(g, previous) != Index(g, current) {
        HasTimes(rows);
        RunsStep(g, Times(rows), Index(g, current));
      }
    }
  }

  lemma NoRun(g: Grid, a: int)
    ensures RunFrom(g, a, -1) == []
  {
  }

  lemma {:induction false} PairsFindRuns(g: Grid, rows: seq<Instant>, m: nat)
    requires Steps(g) && InRange(g, rows) && Fits(g, rows, m)
    ensures RunFrom(g, 0, LeadingShortfall(g, rows)) + Internal(g, rows[..m]) ==
            Runs(g, Times(rows), Index(g, rows[m - 1]) + 1)
  {
    hide RunFrom, LeadingShortfall, Runs, Between, StepFits, OnGrid, Index;
    if m == 1 {
      FirstRows(g, rows);
      assert Internal(g, rows[..1]) == [];
    } else {
      PairsFindRuns(g, rows, m - 1);
      NextRow(g, rows, m - 1);
      assert rows[..m][..m - 1] == rows[..m - 1];
    }
  }

  lemma TailFindsRun(g: Grid, rows: seq<Instant>)
    requires Steps(g) && InRange(g, rows) && rows != [] && OnGrid(g, rows[|rows| - 1])
    ensures var n, tail := ExpectedPoints(g), TailShortfall(g, rows);
            Runs(g, Times(rows), n) == Runs(g, Times(rows), Index(g, rows[|rows| - 1]) + 1) + RunFrom(g, n - tail, tail)
            && 0 <= tail < n && n - tail == Index(g, rows[|rows| - 1]) + 1
  {
    var observed, n, last := Times(rows), ExpectedPoints(g), rows[|rows| - 1];
    var k := Index(g, last);
    OnGridHasIndex(g, last);
    PointsIncrease(g);
    assert TailShortfall(g, rows) == n - 1 - k by {
      assert g.end - g.start == g.interval * (n - 1) + (g.end - g.start) % g.interval;
      assert g.end - last == g.interval * (n - 1 - k) + (g.end - g.start) % g.interval;
      QuotientIs(g.end - last, g.interval, n - 1 - k, (g.end - g.start) % g.interval);
    }
    hide Point, Index, Runs, Truncated;
    assert forall i :: 0 <= i < |rows| ==> rows[i] <= last;
    if k + 1 < n {
      MissingMakeOneRun(g, observed, k + 1, n);
    }
  }

  /** The pairwise profile speaks of exactly the runs that the set difference finds, if no point escapes the rows. */
  lemma ProfileFindsRuns(g: Grid, rows: seq<Instant>)
    requires Steps(g) && InRange(g, rows) && Seamless(g, rows)
    ensures ProfiledGaps(g, rows) == Runs(g, Times(rows), ExpectedPoints(g))
  {
    hide Runs, RunFrom, Internal, Index, StepFits, OnGrid;
    var n := ExpectedPoints(g);
    if g.end < g.start {
      NoRuns(g, Times(rows));
    } else if rows == [] {
      NoPairs(g);
      NoRuns(g, {});
      assert Times(rows) == {};
      MissingMakeOneRun(g, {}, 0, n);
    } else {
      PairsFindRuns(g, rows, |rows|);
      assert rows[..|rows|] == rows;
      TailFindsRun(g, rows);
    }
  }

  lemma NoRuns(g: Grid, observed: set<Instant>)
    ensures Runs(g, observed, 0) == []
    ensures forall a :: RunFrom(g, a, 0) == []
  {
  }

  lemma {:induction false} SumOfRuns(a: seq<Segment>, b: seq<Segment>)
    ensures SumPoints(a + b) == SumPoints(a) + SumPoints(b)
  {
    if b == [] {
      assert a + b == a;
    } else {
      SumOfRuns(a, b[..|b| - 1]);
      assert (a + b)[..|a + b| - 1] == a + b[..|b| - 1];
    }
  }

  lemma {:induction false} RunsCountMissing(g: Grid, observed: set<Instant>, n: nat)
    requires Steps(g)
    ensures SumPoints(Runs(g, observed, n)) == |GridSet(g, n) - observed|
    ensures |GridSet(g, n)| == n
  {
    if n == 0 {
      NoRuns(g, observed);
    } else {
      var m, t := n - 1, Point(g, n - 1);
      RunsCountMissing(g, observed, m);
      RunsStep(g, observed, m);
      MissingLists(g, observed, m);
      OneMorePoint(GridSet(g, m), observed, t);
      hide Runs, Point, SumPoints, Extend;
      SumPointsExtends(Runs(g, observed, m), t, g.interval);
    }
  }

  lemma OneMorePoint(points: set<Instant>, observed: set<Instant>, t: Instant)
    requires t !in points
    ensures |points + {t}| == |points| + 1
    ensures |(points + {t}) - observed| == |points - observed| + if t in observed then 0 else 1
  {
    if t in observed {
      assert (points + {t}) - observed == points - observed;
    } else {
      assert (points + {t}) - observed == (points - observed) + {t};
    }
  }

  lemma SumPointsExtends(runs: seq<Segment>, t: Instant, interval: int)
    ensures SumPoints(Extend(runs, t, interval)) == SumPoints(runs) + 1
  {
    var longer := Extend(runs, t, interval);
    assert longer[..|longer| - 1] == if |longer| == |runs| then runs[..|runs| - 1] else runs;
  }

  lemma {:induction false} GridSetHolds(g: Grid, n: nat, k: nat)
    requires k < n
    ensures Point(g, k) in GridSet(g, n)
  {
    if k < n - 1 { GridSetHolds(g, n - 1, k); }
  }

  /** The profile's total counts the points of the gaps it speaks of. */
  lemma TotalSumsGaps(g: Grid, rows: seq<Instant>)
    requires Steps(g)
    ensures ProfileOf(g, rows).total == SumPoints(ProfiledGaps(g, rows))
  {
    var n, p := ExpectedPoints(g), ProfileOf(g, rows);
    TotalIsParts(g, rows);
    CountsAreNatural(g, rows);
    hide ProfileOf, ExpectedPoints, SumPoints, RunFrom;
    var before, after := RunFrom(g, 0, p.leading), RunFrom(g, n - p.tail, p.tail);
    SumOfRuns(before + p.segments, after);
    SumOfRuns(before, p.segments);
    SumOfRunFrom(g, 0, p.leading);
    SumOfRunFrom(g, n - p.tail, p.tail);
  }

  lemma TotalIsParts(g: Grid, rows: seq<Instant>)
    requires Steps(g)
    ensures var p := ProfileOf(g, rows); p.total == p.leading + SumPoints(p.segments) + p.tail
  {
    hide Internal, TailShortfall, LeadingShortfall;
    assert SumPoints([]) == 0;
  }

  /** What is missing and what is there make up what is expected. */
  lemma TotalCountsMissing(g: Grid, rows: seq<Instant>)
    requires Steps(g) && Clean(g, rows)
    ensures ProfileOf(g, rows).total == ExpectedPoints(g) - |Times(rows)|
  {
    hide Runs, Point, ProfileOf, ProfiledGaps, ExpectedPoints, Seamless, InRange;
    var n, observed := ExpectedPoints(g), Times(rows);
    RunsCountMissing(g, observed, n);
    forall t | t in observed ensures t in GridSet(g, n) {
      OnGridHasIndex(g, t);
      GridSetHolds(g, n, Index(g, t));
    }
    assert |GridSet(g, n)| == |GridSet(g, n) - observed| + |observed| by {
      assert GridSet(g, n) == (GridSet(g, n) - observed) + observed;
    }
    CleanIsSeamless(g, rows);
    ProfileFindsRuns(g, rows);
    TotalSumsGaps(g, rows);
  }

  lemma SumOfRunFrom(g: Grid, a: int, c: nat)
    ensures SumPoints(RunFrom(g, a, c)) == c
  {
  }

  lemma CountsAreNatural(g: Grid, rows: seq<Instant>)
    requires Steps(g)
    ensures ProfileOf(g, rows).leading >= 0 && ProfileOf(g, rows).tail >= 0
  {
  }

  // The lag query

  lemma {:induction false} SpansConcat(a: seq<Segment>, b: seq<Segment>)
    ensures Spans(a + b) == Spans(a) + Spans(b)
  {
    if b == [] {
      assert a + b == a;
    } else {
      SpansConcat(a, b[..|b| - 1]);
      assert (a + b)[..|a + b| - 1] == a + b[..|b| - 1];
    }
  }

  lemma {:induction false} LagsArePairs(g: Grid, buckets: seq<Instant>)
    requires Steps(g) && Clean(g, buckets)
    ensures Lagged(g, buckets) == Spans(Internal(g, buckets))
  {
    hide Between, Spans, OnGrid;
    var m := |buckets|;
    if m <= 1 {
      SpansOfOne();
    } else {
      var init, a, b := buckets[..m - 1], buckets[m - 2], buckets[m - 1];
      LagsArePairs(g, init);
      assert Lagged(g, buckets) == Lagged(g, init) +
        if b > a + g.interval then [Window(a + g.interval, b - g.interval)] else [];
      assert Internal(g, buckets) == Internal(g, init) + Between(g, a, b);
      hide Lagged, Internal;
      SpansConcat(Internal(g, init), Between(g, a, b));
      LagIsPair(g, a, b);
    }
  }

  lemma LagIsPair(g: Grid, previous: Instant, current: Instant)
    requires Steps(g) && OnGrid(g, previous) && OnGrid(g, current) && previous <= current
    ensures Spans(Between(g, previous, current)) ==
            if current > previous + g.interval then [Window(previous + g.interval, current - g.interval)] else []
  {
    var a, b := Index(g, previous), Index(g, current);
    OnGridHasIndex(g, previous);
    OnGridHasIndex(g, current);
    PointsIncrease(g);
    hide Point, Index, Truncated, OnGrid;
    StepsBetween(g, a, b);
  }

  lemma {:induction false} NothingFiltered(spans: seq<Window>)
    requires forall k :: 0 <= k < |spans| ==> spans[k].start <= spans[k].end
    ensures Nonempty(spans) == spans
  {
    if spans != [] { NothingFiltered(spans[..|spans| - 1]); }
  }

  lemma {:induction false} SpansOfRuns(runs: seq<Segment>)
    requires forall s :: s in runs ==> s.first <= s.last
    ensures forall k :: 0 <= k < |Spans(runs)| ==> Spans(runs)[k].start <= Spans(runs)[k].end
  {
    if runs != [] { SpansOfRuns(runs[..|runs| - 1]); }
  }

  lemma BranchesAreGaps(g: Grid, buckets: seq<Instant>)
    requires Steps(g) && Clean(g, buckets) && g.start <= g.end && OnGrid(g, g.end)
    ensures LagBranches(g, buckets) == Spans(ProfiledGaps(g, buckets))
  {
    hide Internal, Lagged, RunFrom, Spans, ProfiledGaps, TailShortfall, LeadingShortfall, ExpectedPoints, OnGrid, Clean;
    SpansOfProfile(g, buckets);
    LagsArePairs(g, buckets);
    if buckets == [] {
      NoBranches(g);
    } else {
      EndBranches(g, buckets);
    }
  }

  lemma SpansOfProfile(g: Grid, rows: seq<Instant>)
    requires Steps(g) && g.start <= g.end
    ensures var n, tail := ExpectedPoints(g), TailShortfall(g, rows);
            Spans(ProfiledGaps(g, rows)) ==
            Spans(RunFrom(g, 0, LeadingShortfall(g, rows))) + Spans(Internal(g, rows)) +
              Spans(RunFrom(g, n - tail, tail))
  {
    hide Internal, RunFrom, Spans, TailShortfall, LeadingShortfall, ExpectedPoints;
    var n, p := ExpectedPoints(g), ProfileOf(g, rows);
    var before, after := RunFrom(g, 0, p.leading), RunFrom(g, n - p.tail, p.tail);
    SpansConcat(before + p.segments, after);
    SpansConcat(before, p.segments);
  }

  lemma NoBranches(g: Grid)
    requires Steps(g) && g.start <= g.end && OnGrid(g, g.end)
    ensures LagBranches(g, []) == Spans(RunFrom(g, 0, ExpectedPoints(g)))
    ensures LeadingShortfall(g, []) == ExpectedPoints(g) && TailShortfall(g, []) == 0
    ensures Internal(g, []) == [] && Spans([]) == [] && RunFrom(g, ExpectedPoints(g), 0) == []
  {
    OnGridHasIndex(g, g.end);
    assert Point(g, ExpectedPoints(g) - 1) == g.end && Point(g, 0) == g.start;
    hide Point, ExpectedPoints;
  }

  lemma EndBranches(g: Grid, buckets: seq<Instant>)
    requires Steps(g) && Clean(g, buckets) && buckets != [] && OnGrid(g, g.end)
    ensures var n, first, last := ExpectedPoints(g), buckets[0], buckets[|buckets| - 1];
            var leading, tail := LeadingShortfall(g, buckets), TailShortfall(g, buckets);
            Spans(RunFrom(g, 0, leading)) == (if first > g.start then [Window(g.start, first - g.interval)] else [])
            && Spans(RunFrom(g, n - tail, tail)) == (if last < g.end then [Window(last + g.interval, g.end)] else [])
  {
    var n, a, b := ExpectedPoints(g), Index(g, buckets[0]), Index(g, buckets[|buckets| - 1]);
    OnGridHasIndex(g, g.end);
    assert Point(g, n - 1) == g.end && Point(g, 0) == g.start;
    OnGridHasIndex(g, buckets[0]);
    OnGridHasIndex(g, buckets[|buckets| - 1]);
    PointsIncrease(g);
    hide Point, Index, Truncated, OnGrid, ExpectedPoints;
    StepsBetween(g, 0, a);
    StepsBetween(g, b, n - 1);
    SpansOfOne();
    hide Spans;
  }

  lemma SpansOfOne()
    ensures Spans([]) == []
    ensures forall s: Segment :: Spans([s]) == [Window(s.first, s.last)]
  {
    forall s: Segment ensures Spans([s]) == [Window(s.first, s.last)] {
      assert [s][..0] == [];
    }
  }

  /**
   * On clean rows and an aligned end the three finders agree: the profile's leading shortfall, segments and tail are
   * the runs grouped from the set difference, and their bounds are the answer of the lag query over the distinct times.
   * The profile's total is the number of expected points less the distinct observed ones.
   */
  lemma FindersAgree(g: Grid, rows: seq<Instant>, buckets: seq<Instant>)
    requires Steps(g) && Clean(g, rows) && (g.start <= g.end ==> OnGrid(g, g.end))
    requires Ascending(buckets) && Times(buckets) == Times(rows)
    ensures ProfiledGaps(g, rows) == Runs(g, Times(rows), ExpectedPoints(g))
    ensures LagGaps(g, buckets) == Spans(Runs(g, Times(rows), ExpectedPoints(g)))
    ensures ProfileOf(g, rows).total == ExpectedPoints(g) - |Times(rows)|
  {
    hide Runs, ProfiledGaps, LagBranches, Spans, ProfileOf, Nonempty, ExpectedPoints, Clean, OnGrid, Ascending, Times;
    hide InRange, Seamless;
    var n := ExpectedPoints(g);
    CleanIsSeamless(g, rows);
    ProfileFindsRuns(g, rows);
    TotalCountsMissing(g, rows);
    if g.start <= g.end {
      BucketsAreClean(g, rows, buckets);
      CleanIsSeamless(g, buckets);
      ProfileFindsRuns(g, buckets);
      BranchesAreGaps(g, buckets);
      RunsAreNotEmpty(g, Times(rows), n);
      SpansOfRuns(Runs(g, Times(rows), n));
      NothingFiltered(LagBranches(g, buckets));
    } else {
      NoPointsNoRuns(g, Times(rows));
    }
  }

  lemma BucketsAreClean(g: Grid, rows: seq<Instant>, buckets: seq<Instant>)
    requires Steps(g) && Clean(g, rows) && Ascending(buckets) && Times(buckets) == Times(rows)
    ensures Clean(g, buckets)
  {
    HasTimes(buckets);
    HasTimes(rows);
    hide Times;
    forall k | 0 <= k < |buckets| ensures OnGrid(g, buckets[k]) {
      assert buckets[k] in buckets;
    }
  }

  lemma RunsAreNotEmpty(g: Grid, observed: set<Instant>, n: nat)
    requires Steps(g)
    ensures forall s :: s in Runs(g, observed, n) ==> s.first <= s.last
  {
    if n == 0 {
      NoRuns(g, observed);
    } else {
      RunsEndEarly(g, observed, n);
    }
  }

  lemma NoPointsNoRuns(g: Grid, observed: set<Instant>)
    requires Steps(g) && g.end < g.start
    ensures Runs(g, observed, ExpectedPoints(g)) == [] && Spans([]) == []
  {
    NoRuns(g, observed);
  }

  lemma HasTimes(rows: seq<Instant>)
    ensures forall t :: t in Times(rows) <==> t in rows
  {
  }
}
