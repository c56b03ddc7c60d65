/**
 * The lag query does not see the stored rows but their buckets: each time rounded to the start of its interval. Funding
 * rows are a little late, and so off the grid; these are the gaps that the query and the backfill make of them.
 */
module Buckets {
  import opened Market
  import opened Calendar
  import opened Windows
  import opened Gaps
  import opened Alignment
  import opened Backfill
  import opened OffGrid

  /** The database's `%` takes the sign of its left side. */
  function SignedRemainder(x: int, n: int): int
    requires n > 0
  {
    if x >= 0 then x % n else -(-x % n)
  }

  function Bucket(t: Instant, seconds: int): Instant
    requires seconds > 0
  {
    var s := t / SECOND;
    (s - SignedRemainder(s, seconds)) * SECOND
  }

  /** A time from 1970 on, or one within the first second of an interval. */
  predicate Rounds(t: Instant, seconds: int)
    requires seconds > 0
  {
    t >= 0 || t / SECOND % seconds == 0
  }

  /** The bucket of a time is the start of its interval exactly for these; for all others it lies after the time. */
  lemma BucketIsFloorIff(t: Instant, seconds: int)
    requires seconds > 0
    ensures IsFloor(t, seconds * SECOND, Bucket(t, seconds)) <==> Rounds(t, seconds)
    ensures !Rounds(t, seconds) ==> Bucket(t, seconds) > t
  {
    var s, size := t / SECOND, if t >= 0 then t / SECOND else -(t / SECOND);
    var q, r := size / seconds, size % seconds;
    assert size == seconds * q + r;
    var f := s - SignedRemainder(s, seconds);
    if t >= 0 {
      Multiple(f, seconds, q);
    } else {
      Multiple(f, seconds, -q);
      NegatedRemainder(s, seconds);
    }
    WholeSecondMultiples(f, seconds);
  }

  lemma NegatedRemainder(s: int, n: int)
    requires n > 0
    ensures -s % n == 0 <==> s % n == 0
  {
    var q := s / n;
    assert s == n * q + s % n;
    if s % n == 0 {
      Multiple(-s, n, -q);
    } else {
      QuotientIs(-s, n, -q - 1, n - s % n);
    }
  }

  // ----- The rows that the query keeps -----

  /** An aligned window of whole seconds, and rows that are rounded down. */
  predicate Bucketed(g: Grid, seconds: int, rows: seq<Instant>) {
    && seconds > 0 && g.interval == seconds * SECOND && g.start % g.interval == 0 && g.end % g.interval == 0
    && forall r :: r in rows ==> Rounds(r, seconds)
  }

  lemma AlignedEnds(g: Grid, seconds: int, rows: seq<Instant>)
    requires Bucketed(g, seconds, rows)
    ensures if g.start <= g.end then OnGrid(g, g.end) else g.end + g.interval <= g.start
  {
    DifferenceOfMultiples(g.end, g.start, g.interval);
    Apart(g.end, g.start, g.interval);
  }

  /** The distinct buckets inside the window, as the query for funding rates selects them. */
  function BucketsOf(g: Grid, seconds: int, rows: seq<Instant>): set<Instant>
    requires seconds > 0
  {
    set r | r in rows && g.start <= Bucket(r, seconds) <= g.end :: Bucket(r, seconds)
  }

  /** Some row lies at the point or in the interval after it. */
  ghost predicate Hit(g: Grid, rows: seq<Instant>, k: int) {
    exists r :: r in rows && Point(g, k) <= r < Point(g, k + 1)
  }

  /** Buckets fall on the grid, at the point that the time lies at or after. */
  lemma BucketIsPoint(g: Grid, seconds: int, rows: seq<Instant>, r: Instant, k: int)
    requires Bucketed(g, seconds, rows) && r in rows
    ensures Bucket(r, seconds) == Point(g, k) <==> Point(g, k) <= r < Point(g, k + 1)
    ensures (Bucket(r, seconds) - g.start) % g.interval == 0
  {
    BucketIsFloorIff(r, seconds);
    hide Bucket, Rounds;
    var b := Bucket(r, seconds);
    DifferenceOfMultiples(b, g.start, g.interval);
    var j := (b - g.start) / g.interval;
    assert b == Point(g, j) && Point(g, k + 1) == Point(g, k) + g.interval;
    if j < k { Spread(g.interval, j, k); }
    if k < j { Spread(g.interval, k, j); }
  }

  lemma BucketsAreHit(g: Grid, seconds: int, rows: seq<Instant>, k: nat)
    requires Bucketed(g, seconds, rows) && k < ExpectedPoints(g)
    ensures Point(g, k) in BucketsOf(g, seconds, rows) <==> Hit(g, rows, k)
  {
    PointWithin(g, k);
    assert g.start <= Point(g, k) <= g.end by { assert k * g.interval >= 0; }
    hide Bucket, Bucketed, Point, ExpectedPoints;
    forall r | r in rows
      ensures Bucket(r, seconds) == Point(g, k) <==> Point(g, k) <= r < Point(g, k + 1)
    {
      BucketIsPoint(g, seconds, rows, r, k);
    }
  }

  lemma BucketsAreOnGrid(g: Grid, seconds: int, rows: seq<Instant>, buckets: seq<Instant>)
    requires Bucketed(g, seconds, rows) && Ascending(buckets) && Times(buckets) == BucketsOf(g, seconds, rows)
    ensures Clean(g, buckets)
  {
    HasTimes(buckets);
    hide Bucket, Times;
    forall k | 0 <= k < |buckets| ensures OnGrid(g, buckets[k]) {
      assert buckets[k] in buckets;
      var r :| r in rows && g.start <= Bucket(r, seconds) <= g.end && Bucket(r, seconds) == buckets[k];
      BucketIsPoint(g, seconds, rows, r, 0);
    }
  }

  // ----- The gaps of the query -----

  /** The points at which a and b agree decide whether they have the same runs. */
  lemma {:induction false} SameRuns(g: Grid, a: set<Instant>, b: set<Instant>, n: nat)
    requires forall k :: 0 <= k < n ==> (Point(g, k) in a <==> Point(g, k) in b)
    ensures Runs(g, a, n) == Runs(g, b, n)
  {
    hide Point, Runs;
    if n == 0 {
      NoRuns(g, a);
      NoRuns(g, b);
    } else {
      SameRuns(g, a, b, n - 1);
      RunsStep(g, a, n - 1);
      RunsStep(g, b, n - 1);
    }
  }

  lemma SameSpansIff(g: Grid, a: set<Instant>, b: set<Instant>, n: nat)
    requires Steps(g)
    ensures Spans(Runs(g, a, n)) == Spans(Runs(g, b, n)) <==>
            forall k :: 0 <= k < n ==> (Point(g, k) in a <==> Point(g, k) in b)
  {
    hide Point, Runs, Spans, Covering;
    if Spans(Runs(g, a, n)) == Spans(Runs(g, b, n)) {
      forall k | 0 <= k < n ensures Point(g, k) in a <==> Point(g, k) in b {
        RunsCoverMissing(g, a, n, k);
        RunsCoverMissing(g, b, n, k);
      }
    } else if forall k :: 0 <= k < n ==> (Point(g, k) in a <==> Point(g, k) in b) {
      SameRuns(g, a, b, n);
    }
  }

  lemma QueryListsBucketRuns(g: Grid, seconds: int, rows: seq<Instant>, buckets: seq<Instant>)
    requires Bucketed(g, seconds, rows) && Ascending(buckets) && Times(buckets) == BucketsOf(g, seconds, rows)
    ensures LagGaps(g, buckets) == Spans(Runs(g, BucketsOf(g, seconds, rows), ExpectedPoints(g)))
  {
    BucketsAreOnGrid(g, seconds, rows, buckets);
    AlignedEnds(g, seconds, rows);
    hide Runs, LagGaps, BucketsOf, Clean, ExpectedPoints;
    FindersAgree(g, buckets, buckets);
  }

  /** Wherever a row of the window lies, the grid point that it is counted for is stored as well. */
  predicate FloorsAreStored(g: Grid, rows: seq<Instant>)
    requires Steps(g)
  {
    forall r :: r in rows && g.start <= r < g.end + g.interval ==> Point(g, Index(g, r)) in rows
  }

  /**
   * On rows that may lie anywhere, the lag query lists the gaps that the set difference does exactly when every row of
   * the window comes with the grid point at which its interval starts.
   */
  lemma LagFindsMissingIff(g: Grid, seconds: int, rows: seq<Instant>, buckets: seq<Instant>)
    requires Bucketed(g, seconds, rows) && Ascending(buckets) && Times(buckets) == BucketsOf(g, seconds, rows)
    ensures LagGaps(g, buckets) == Spans(Runs(g, Times(rows), ExpectedPoints(g))) <==> FloorsAreStored(g, rows)
  {
    var n := ExpectedPoints(g);
    QueryListsBucketRuns(g, seconds, rows, buckets);
    SameSpansIff(g, BucketsOf(g, seconds, rows), Times(rows), n);
    HasTimes(rows);
    FloorsIff(g, seconds, rows);
    hide Runs, Spans, LagGaps, BucketsOf, ExpectedPoints, FloorsAreStored, Times, Point, Bucketed, Ascending;
    forall k | 0 <= k < n
      ensures Point(g, k) in BucketsOf(g, seconds, rows) <==> Hit(g, rows, k)
    {
      BucketsAreHit(g, seconds, rows, k);
    }
  }

  lemma FloorsIff(g: Grid, seconds: int, rows: seq<Instant>)
    requires Bucketed(g, seconds, rows)
    ensures FloorsAreStored(g, rows) <==>
            forall k :: 0 <= k < ExpectedPoints(g) ==> (Hit(g, rows, k) <==> Point(g, k) in rows)
  {
    AlignedEnds(g, seconds, rows);
    hide ExpectedPoints, Point, Index, Hit, Bucketed, OnGrid;
    if FloorsAreStored(g, rows) {
      forall k | 0 <= k < ExpectedPoints(g) ensures Hit(g, rows, k) <==> Point(g, k) in rows {
        StoredIfHit(g, rows, k);
      }
    }
    if forall k :: 0 <= k < ExpectedPoints(g) ==> (Hit(g, rows, k) <==> Point(g, k) in rows) {
      forall r | r in rows && g.start <= r < g.end + g.interval ensures Point(g, Index(g, r)) in rows {
        HitByRow(g, rows, r);
      }
    }
  }

  lemma StoredIfHit(g: Grid, rows: seq<Instant>, k: nat)
    requires Steps(g) && FloorsAreStored(g, rows) && k < ExpectedPoints(g)
    ensures Hit(g, rows, k) <==> Point(g, k) in rows
  {
    PointWithin(g, k);
    var t := Point(g, k);
    assert Point(g, k + 1) == t + g.interval && k * g.interval >= 0;
    if Hit(g, rows, k) {
      var r :| r in rows && t <= r < Point(g, k + 1);
      QuotientIs(r - g.start, g.interval, k, r - t);
      assert r in rows && Point(g, Index(g, r)) == t;
    }
    assert t in rows ==> Hit(g, rows, k);
  }

  lemma HitByRow(g: Grid, rows: seq<Instant>, r: Instant)
    requires Steps(g) && r in rows && g.start <= r < g.end + g.interval && OnGrid(g, g.end)
    ensures 0 <= Index(g, r) < ExpectedPoints(g) && Hit(g, rows, Index(g, r))
  {
  }

  /** Of other datasets the query keeps only the rows on the grid, and so always finds what the set difference does. */
  lemma GridRowsSuffice(g: Grid, rows: seq<Instant>, buckets: seq<Instant>)
    requires Steps(g) && Aligned(g) && Ascending(buckets) && Times(buckets) == StoredPoints(g, rows)
    ensures LagGaps(g, buckets) == Spans(Runs(g, Times(rows), ExpectedPoints(g)))
  {
    hide Times, LagGaps, Runs, ExpectedPoints, Point;
    HasTimes(buckets);
    HasTimes(rows);
    forall k | 0 <= k < |buckets| ensures OnGrid(g, buckets[k]) {
      assert buckets[k] in buckets;
    }
    hide OnGrid;
    FindersAgree(g, buckets, buckets);
    forall k | 0 <= k < ExpectedPoints(g) ensures Point(g, k) in Times(buckets) <==> Point(g, k) in Times(rows) {
      PointHasIndex(g, k);
    }
    SameRuns(g, Times(buckets), Times(rows), ExpectedPoints(g));
  }

  /**
   * The backfill fetches a point of the grid once if no row lies at it or in the interval after it, and not at all if
   * one does.
   */
  lemma UnhitPointsAreFetchedOnce(
    g: Grid, seconds: int, rows: seq<Instant>, buckets: seq<Instant>, gaps: seq<Gap>, chunkMonths: nat, k: nat)
    requires Bucketed(g, seconds, rows) && Ascending(buckets) && Times(buckets) == BucketsOf(g, seconds, rows)
    requires chunkMonths >= 1 && SameGaps(gaps, LagGaps(g, buckets)) && k < ExpectedPoints(g)
    ensures Covering(ChunkedGaps(gaps, chunkMonths), Point(g, k)) == if Hit(g, rows, k) then 0 else 1
  {
    BucketsAreOnGrid(g, seconds, rows, buckets);
    BucketsAreHit(g, seconds, rows, k);
    AlignedEnds(g, seconds, rows);
    Multiple(g.interval, MILLI, 1000 * seconds);
    hide Covering, ChunkedGaps, LagGaps, BucketsOf, Hit, Clean, ExpectedPoints, SameGaps, Point;
    MissingPointsAreFetchedOnce(g, buckets, gaps, chunkMonths, k);
  }
}
