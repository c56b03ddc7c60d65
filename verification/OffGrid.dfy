/**
 * Rows that lie between grid points. The interval profile accepts them; this is exactly when they do no harm, and what
 * they cost when they do.
 */
module OffGrid {
  import opened Market
  import opened Calendar
  import opened Gaps

  /** The grid points on both sides of a row are stored as well. */
  predicate Enclosed(g: Grid, rows: seq<Instant>, r: Instant)
    requires Steps(g)
  {
    Point(g, Index(g, r)) in rows && Point(g, Index(g, r) + 1) in rows
  }

  /** Every row off the grid lies between two stored neighbours of the grid. */
  predicate Harmless(g: Grid, rows: seq<Instant>)
    requires Steps(g)
  {
    forall r :: r in rows && !OnGrid(g, r) ==> Enclosed(g, rows, r)
  }

  /** The window's end is aligned, as every caller of the profile aligns it. */
  predicate Aligned(g: Grid)
    requires Steps(g)
  {
    g.start <= g.end ==> OnGrid(g, g.end)
  }

  // ----- Harmless rows are those at which no point escapes the scan -----

  lemma {:induction false} PointBelowIsStored(g: Grid, rows: seq<Instant>, j: nat)
    requires Steps(g) && InRange(g, rows) && Fits(g, rows, |rows|) && j < |rows|
    ensures Point(g, Index(g, rows[j])) in rows
  {
    hide Point, Index, OnGrid, ExpectedPoints;
    IndexBounds(g, rows[j]);
    if j > 0 && !OnGrid(g, rows[j]) {
      assert StepFits(g, rows[j - 1], rows[j]);
      PointBelowIsStored(g, rows, j - 1);
    }
  }

  lemma {:induction false} PointAboveIsStored(g: Grid, rows: seq<Instant>, j: nat)
    requires Steps(g) && InRange(g, rows) && Fits(g, rows, |rows|) && OnGrid(g, rows[|rows| - 1])
    requires j < |rows| && !OnGrid(g, rows[j])
    ensures Point(g, Index(g, rows[j]) + 1) in rows
    decreases |rows| - j
  {
    hide Point, Index, OnGrid, ExpectedPoints;
    IndexBounds(g, rows[j]);
    IndexBounds(g, rows[j + 1]);
    assert StepFits(g, rows[j], rows[j + 1]);
    if Index(g, rows[j]) == Index(g, rows[j + 1]) {
      PointAboveIsStored(g, rows, j + 1);
    }
  }

  lemma StepOfHarmlessFits(g: Grid, rows: seq<Instant>, k: nat)
    requires Steps(g) && InRange(g, rows) && Harmless(g, rows) && 1 <= k < |rows|
    ensures StepFits(g, rows[k - 1], rows[k])
  {
    hide Point, Index, OnGrid, ExpectedPoints;
    var previous, current := rows[k - 1], rows[k];
    assert previous in rows && current in rows;
    IndexBounds(g, previous);
    IndexBounds(g, current);
    var a, b := Index(g, previous), Index(g, current);
    IndexGrows(g, previous, current);
    PointsCompare(g, a, b);
    PointsCompare(g, a + 1, b);
    if a != b && !OnGrid(g, current) {
      NoRowBetween(rows, k, Point(g, b));
    }
    if a != b && !OnGrid(g, previous) {
      NoRowBetween(rows, k, Point(g, a + 1));
    }
  }

  lemma NoRowBetween(rows: seq<Instant>, k: nat, t: Instant)
    requires Nondecreasing(rows) && 1 <= k < |rows| && t in rows
    ensures t <= rows[k - 1] || rows[k] <= t
  {
    var i :| 0 <= i < |rows| && rows[i] == t;
  }

  lemma IndexGrows(g: Grid, s: Instant, t: Instant)
    requires Steps(g) && g.start <= s <= t <= g.end
    ensures Index(g, s) <= Index(g, t)
  {
    IndexBounds(g, s);
    IndexBounds(g, t);
    hide Point, Index;
    PointsCompare(g, Index(g, s), Index(g, t) + 1);
  }

  lemma HarmlessIffSeamless(g: Grid, rows: seq<Instant>)
    requires Steps(g) && InRange(g, rows)
    ensures Harmless(g, rows) <==> Seamless(g, rows)
  {
    hide Point, Index, OnGrid, ExpectedPoints, StepFits;
    if rows != [] && Harmless(g, rows) {
      var first, last := rows[0], rows[|rows| - 1];
      assert first in rows && last in rows;
      IndexBounds(g, first);
      IndexBounds(g, last);
      assert forall r :: r in rows ==> first <= r <= last;
      forall k | 1 <= k < |rows| ensures StepFits(g, rows[k - 1], rows[k]) {
        StepOfHarmlessFits(g, rows, k);
      }
    }
    if rows != [] && Seamless(g, rows) {
      forall r | r in rows && !OnGrid(g, r) ensures Enclosed(g, rows, r) {
        var j :| 0 <= j < |rows| && rows[j] == r;
        PointBelowIsStored(g, rows, j);
        PointAboveIsStored(g, rows, j);
      }
    }
  }

  // ----- What each row adds to the scan, and to the points that are missing -----

  function MissingCount(g: Grid, rows: seq<Instant>, n: nat): int {
    SumPoints(Runs(g, Times(rows), n))
  }

  lemma CountStep(g: Grid, rows: seq<Instant>, n: nat)
    ensures MissingCount(g, rows, n + 1) == MissingCount(g, rows, n) + if Point(g, n) in rows then 0 else 1
    ensures MissingCount(g, rows, 0) == 0
  {
    RunsStep(g, Times(rows), n);
    HasTimes(rows);
    NoRuns(g, Times(rows));
    hide Runs, Times, Point, Extend;
    SumPointsExtends(Runs(g, Times(rows), n), Point(g, n), g.interval);
  }

  lemma {:induction false} CountStretch(g: Grid, rows: seq<Instant>, a: nat, b: nat)
    requires a <= b && forall k :: a <= k < b ==> Point(g, k) !in rows
    ensures MissingCount(g, rows, b) == MissingCount(g, rows, a) + b - a
  {
    hide MissingCount, Point;
    if a < b {
      CountStretch(g, rows, a, b - 1);
      CountStep(g, rows, b - 1);
    }
  }

  function Cost(fits: bool): nat {
    if fits then 0 else 1
  }

  lemma DroppedFraction(g: Grid, a: int, t: Instant, b: int)
    requires Steps(g) && Point(g, b) - Point(g, a) <= t < Point(g, b + 1) - Point(g, a) && a <= b
    ensures Truncated(t, g.interval) == b - a
  {
    assert Point(g, b) - Point(g, a) == g.interval * (b - a);
    assert b - a >= 0 && g.interval * (b - a) >= 0;
    QuotientIs(t, g.interval, b - a, t - g.interval * (b - a));
  }

  lemma CountFirst(g: Grid, rows: seq<Instant>)
    requires Steps(g) && InRange(g, rows) && rows != []
    ensures MissingCount(g, rows, Index(g, rows[0]) + 1) == LeadingShortfall(g, rows) + Cost(OnGrid(g, rows[0]))
  {
    var first, k := rows[0], Index(g, rows[0]);
    IndexBounds(g, first);
    assert Point(g, 0) == g.start;
    DroppedFraction(g, 0, first - g.start, k);
    hide Point, Index, OnGrid, ExpectedPoints, MissingCount, Truncated;
    assert forall r :: r in rows ==> first <= r;
    assert first in rows;
    forall i | 0 <= i < k ensures Point(g, i) !in rows { PointsCompare(g, i, k); }
    CountStep(g, rows, k);
    CountStretch(g, rows, 0, k);
  }

  /** The points strictly between two neighbouring rows are missing. */
  lemma CountBetween(g: Grid, rows: seq<Instant>, m: nat)
    requires Steps(g) && InRange(g, rows) && 1 <= m < |rows|
    ensures var a, b := Index(g, rows[m - 1]), Index(g, rows[m]);
            && 0 <= a <= b
            && MissingCount(g, rows, b + 1) ==
               MissingCount(g, rows, a + 1) + if a == b then 0 else b - a - 1 + Cost(OnGrid(g, rows[m]))
  {
    hide Point, Index, OnGrid, ExpectedPoints, MissingCount;
    var previous, current := rows[m - 1], rows[m];
    var a, b := Index(g, previous), Index(g, current);
    IndexBounds(g, previous);
    IndexBounds(g, current);
    IndexGrows(g, previous, current);
    if a < b {
      forall k | a + 1 <= k < b ensures Point(g, k) !in rows {
        PointsCompare(g, a, k);
        PointsCompare(g, k, a + 1);
        PointsCompare(g, k, b);
        if Point(g, k) in rows { NoRowBetween(rows, m, Point(g, k)); }
      }
      PointsCompare(g, b, a + 1);
      if Point(g, b) in rows { NoRowBetween(rows, m, Point(g, b)); }
      assert current in rows;
      CountStep(g, rows, b);
      CountStretch(g, rows, a + 1, b);
    }
  }

  lemma PointsOfPair(g: Grid, previous: Instant, current: Instant)
    requires Steps(g) && g.start <= previous <= current <= g.end
    ensures var a, b := Index(g, previous), Index(g, current);
            var points := SumPoints(Between(g, previous, current));
            && (a == b ==> points == 0)
            && (a < b ==> points <= b - a - 1 + Cost(OnGrid(g, current)))
            && (a < b ==> (points == b - a - 1 + Cost(OnGrid(g, current)) <==> StepFits(g, previous, current)))
  {
    var a, b := Index(g, previous), Index(g, current);
    IndexBounds(g, previous);
    IndexBounds(g, current);
    IndexGrows(g, previous, current);
    var x, y := previous - Point(g, a), current - Point(g, b);
    assert Point(g, b + 1) == Point(g, b) + g.interval;
    if a < b && y < x {
      NextPoint(g, b - 1);
      DroppedFraction(g, a, current - previous, b - 1);
    } else {
      DroppedFraction(g, a, current - previous, b);
    }
    hide Point, Index, OnGrid, Truncated, ExpectedPoints;
    SumOfBetween(g, previous, current);
  }

  lemma SumOfBetween(g: Grid, previous: Instant, current: Instant)
    requires Steps(g)
    ensures var steps := Truncated(current - previous, g.interval);
            SumPoints(Between(g, previous, current)) == if steps <= 1 then 0 else steps - 1
  {
    hide Truncated;
    assert SumPoints([]) == 0;
  }

  /** What a row after the first adds to the scan, and what to the missing points. */
  lemma NextRowCounts(g: Grid, rows: seq<Instant>, m: nat)
    requires Steps(g) && InRange(g, rows) && 1 <= m < |rows|
    ensures var scanned := SumPoints(Internal(g, rows[..m + 1])) - SumPoints(Internal(g, rows[..m]));
            var missing := MissingCount(g, rows, Index(g, rows[m]) + 1) -
                           MissingCount(g, rows, Index(g, rows[m - 1]) + 1);
            scanned <= missing && (scanned == missing <==> StepFits(g, rows[m - 1], rows[m]))
  {
    hide Point, Index, OnGrid, MissingCount, Between, StepFits, SumPoints, Internal;
    InternalStep(g, rows, m);
    SumOfRuns(Internal(g, rows[..m]), Between(g, rows[m - 1], rows[m]));
    CountBetween(g, rows, m);
    PointsOfPair(g, rows[m - 1], rows[m]);
    SameIndexFits(g, rows[m - 1], rows[m]);
  }

  /** So far the scan has found no more than is missing, and all of it exactly when every step fits. */
  lemma {:induction false} PrefixCounts(g: Grid, rows: seq<Instant>, m: nat)
    requires Steps(g) && InRange(g, rows) && 1 <= m <= |rows|
    ensures var scanned, missing := LeadingShortfall(g, rows) + SumPoints(Internal(g, rows[..m])),
                                    MissingCount(g, rows, Index(g, rows[m - 1]) + 1);
            scanned <= missing && (scanned == missing <==> Fits(g, rows, m))
  {
    hide Point, Index, OnGrid, MissingCount, LeadingShortfall, Between, StepFits, Internal, SumPoints;
    if m == 1 {
      InternalOfOne(g, rows);
      NoPairs(g);
      CountFirst(g, rows);
    } else {
      PrefixCounts(g, rows, m - 1);
      NextRowCounts(g, rows, m - 1);
    }
  }

  lemma SameIndexFits(g: Grid, previous: Instant, current: Instant)
    requires Steps(g)
    ensures Index(g, previous) == Index(g, current) ==> StepFits(g, previous, current)
  {
  }

  lemma TailIs(g: Grid, last: Instant)
    requires Steps(g) && g.start <= last <= g.end && OnGrid(g, g.end)
    ensures TailShortfall(g, [last]) + Cost(OnGrid(g, last)) == ExpectedPoints(g) - 1 - Index(g, last)
  {
    var n, k := ExpectedPoints(g), Index(g, last);
    OnGridHasIndex(g, g.end);
    IndexBounds(g, last);
    assert Point(g, n - 1) == g.end;
    hide ExpectedPoints, Index;
    NextPoint(g, n - 1);
    NextPoint(g, k);
    PointsCompare(g, k, n - 1);
    if Point(g, k) == last {
      DroppedFraction(g, k, g.end - last, n - 1);
    } else {
      PointsCompare(g, n - 1, k + 1);
      assert Point(g, n - 2) + g.interval == Point(g, n - 1);
      DroppedFraction(g, k, g.end - last, n - 2);
    }
    hide Point, OnGrid, Truncated;
  }

  lemma TailCounts(g: Grid, rows: seq<Instant>)
    requires Steps(g) && InRange(g, rows) && rows != [] && Aligned(g)
    ensures var last := rows[|rows| - 1];
            MissingCount(g, rows, ExpectedPoints(g)) ==
            MissingCount(g, rows, Index(g, last) + 1) + TailShortfall(g, rows) + Cost(OnGrid(g, last))
  {
    hide Point, Index, OnGrid, ExpectedPoints, MissingCount, Truncated;
    var n, last := ExpectedPoints(g), rows[|rows| - 1];
    var k := Index(g, last);
    TailIs(g, last);
    IndexBounds(g, last);
    assert forall r :: r in rows ==> r <= last;
    forall i | k + 1 <= i < n ensures Point(g, i) !in rows {
      PointsCompare(g, i, k + 1);
    }
    CountStretch(g, rows, k + 1, n);
  }

  // ----- When the scan is right -----

  lemma TotalIs(g: Grid, rows: seq<Instant>)
    requires Steps(g) && g.start <= g.end && rows != []
    ensures ProfileOf(g, rows).total ==
            LeadingShortfall(g, rows) + SumPoints(Internal(g, rows)) + TailShortfall(g, rows)
  {
    hide LeadingShortfall, Internal, TailShortfall;
  }

  /** The points of the grid that no row has. */
  function MissingPoints(g: Grid, rows: seq<Instant>): set<Instant>
    requires Steps(g)
  {
    GridSet(g, ExpectedPoints(g)) - Times(rows)
  }

  /**
   * For ordered rows in an aligned window the profile never reports more points than are missing, and it reports all of
   * them exactly when every row off the grid lies between two stored neighbours of the grid.
   */
  lemma TotalIsRightIff(g: Grid, rows: seq<Instant>)
    requires Steps(g) && InRange(g, rows) && Aligned(g)
    ensures ProfileOf(g, rows).total <= |MissingPoints(g, rows)|
    ensures ProfileOf(g, rows).total == |MissingPoints(g, rows)| <==> Harmless(g, rows)
  {
    hide Point, Index, OnGrid, ExpectedPoints, LeadingShortfall, TailShortfall, Internal, Times, GridSet, Runs,
      StepFits;
    var n := ExpectedPoints(g);
    RunsCountMissing(g, Times(rows), n);
    HarmlessIffSeamless(g, rows);
    if rows == [] || g.end < g.start {
      assert rows == [];
      ProfileFindsRuns(g, rows);
      TotalSumsGaps(g, rows);
    } else {
      PrefixCounts(g, rows, |rows|);
      assert rows[..|rows|] == rows;
      TailCounts(g, rows);
      TotalIs(g, rows);
    }
  }

  /** The distinct stored times that are on the grid. */
  function StoredPoints(g: Grid, rows: seq<Instant>): set<Instant>
    requires Steps(g)
  {
    set t | t in rows && OnGrid(g, t)
  }

  lemma {:induction false} GridSetIsOnGrid(g: Grid, n: nat, t: Instant)
    requires Steps(g) && n <= ExpectedPoints(g) && t in GridSet(g, n)
    ensures OnGrid(g, t)
  {
    if t == Point(g, n - 1) {
      PointHasIndex(g, n - 1);
    } else {
      GridSetIsOnGrid(g, n - 1, t);
    }
  }

  /** What is missing and what is stored make up the grid, whatever else the rows hold. */
  lemma MissingAndStored(g: Grid, rows: seq<Instant>)
    requires Steps(g)
    ensures |MissingPoints(g, rows)| == ExpectedPoints(g) - |StoredPoints(g, rows)|
  {
    var n, observed, stored := ExpectedPoints(g), Times(rows), StoredPoints(g, rows);
    RunsCountMissing(g, observed, n);
    forall t ensures t in stored <==> t in observed && t in GridSet(g, n) {
      if t in stored {
        OnGridHasIndex(g, t);
        GridSetHolds(g, n, Index(g, t));
      }
      if t in GridSet(g, n) { GridSetIsOnGrid(g, n, t); }
    }
    hide GridSet, StoredPoints, Times, Runs, ExpectedPoints;
    assert GridSet(g, n) == (GridSet(g, n) - observed) + stored;
  }

  /** The total is the points expected less the distinct ones stored, under the same condition and no other. */
  lemma TotalIsExpectedLessStoredIff(g: Grid, rows: seq<Instant>)
    requires Steps(g) && InRange(g, rows) && Aligned(g)
    ensures ProfileOf(g, rows).total == ExpectedPoints(g) - |StoredPoints(g, rows)| <==> Harmless(g, rows)
  {
    hide ProfileOf, ExpectedPoints, MissingPoints, StoredPoints, Harmless, InRange, Aligned;
    TotalIsRightIff(g, rows);
    MissingAndStored(g, rows);
  }

  /** Under the same condition, and no other, the gaps of the profile are the maximal runs of missing points. */
  lemma ScanFindsRunsIff(g: Grid, rows: seq<Instant>)
    requires Steps(g) && InRange(g, rows) && Aligned(g)
    ensures ProfiledGaps(g, rows) == Runs(g, Times(rows), ExpectedPoints(g)) <==> Harmless(g, rows)
  {
    hide InRange, Runs, ProfiledGaps, ProfileOf, GridSet, Seamless, Harmless, Aligned;
    HarmlessIffSeamless(g, rows);
    TotalIsRightIff(g, rows);
    TotalSumsGaps(g, rows);
    RunsCountMissing(g, Times(rows), ExpectedPoints(g));
    if Harmless(g, rows) {
      ProfileFindsRuns(g, rows);
    }
  }

  // ----- Stray rows -----

  /** One row off the grid with a missing neighbour is enough for the profile to miss a point. */
  lemma StrayRowHidesGaps(g: Grid, rows: seq<Instant>, r: Instant)
    requires Steps(g) && InRange(g, rows) && Aligned(g)
    requires r in rows && !OnGrid(g, r) && !Enclosed(g, rows, r)
    ensures ProfileOf(g, rows).total < |MissingPoints(g, rows)|
  {
    TotalIsRightIff(g, rows);
  }

  /**
   * Funding is due every eight hours. Two rows a few milliseconds late hide four missing points: the profile of a day
   * reports none.
   */
  lemma LateFundingHidesGaps(midnight: Instant)
    ensures var g, rows :=
            Grid(midnight, midnight + 24 * HOUR, 8 * HOUR), [midnight + 3_000, midnight + 16 * HOUR + 1_000];
            ProfileOf(g, rows).total == 0 && |MissingPoints(g, rows)| == 4
  {
    var g := Grid(midnight, midnight + 24 * HOUR, 8 * HOUR);
    var a, b := midnight + 3_000, midnight + 16 * HOUR + 1_000;
    LateFundingProfile(g, a, b);
    forall k | 0 <= k < 4 ensures Point(g, k) !in [a, b] {}
    assert ExpectedPoints(g) == 4;
    hide ProfileOf, ExpectedPoints, MissingPoints, Point;
    EverythingIsMissing(g, [a, b], ExpectedPoints(g));
  }

  lemma EverythingIsMissing(g: Grid, rows: seq<Instant>, n: nat)
    requires Steps(g) && n == ExpectedPoints(g) && forall k :: 0 <= k < n ==> Point(g, k) !in rows
    ensures |MissingPoints(g, rows)| == n
  {
    hide Runs, Times, ExpectedPoints, Point, GridSet;
    RunsCountMissing(g, Times(rows), n);
    CountStretch(g, rows, 0, n);
    CountStep(g, rows, 0);
  }

  lemma LateFundingProfile(g: Grid, a: Instant, b: Instant)
    requires g.interval == 8 * HOUR && g.end == g.start + 24 * HOUR
    requires a == g.start + 3_000 && b == g.start + 16 * HOUR + 1_000
    ensures ProfileOf(g, [a, b]).total == 0
  {
    assert [a, b][..1] == [a];
    assert Internal(g, [a]) == [];
    assert Between(g, a, b) == [];
    assert Internal(g, [a, b]) == [];
    assert SumPoints([]) == 0;
    hide Internal;
  }
}
