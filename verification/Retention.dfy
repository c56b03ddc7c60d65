/** Planning the re-fetch of datasets whose exchange keeps only the last thirty days. */
module Retention {
  import opened Wrappers
  import opened Market
  import opened Gaps
  import opened Alignment
  import opened Windows

  const INTERVAL: int := 5 * MINUTE
  const RETENTION_DAYS: int := 30
  const CHUNK_DAYS: int := 1

  datatype Reason = Fresh | NothingStored | CoverageShortfall | ContinuityGap | TailShortfallOnly

  datatype Plan = Plan(
    required: bool,
    reason: Reason,
    start: Option<Instant>,
    end: Option<Instant>,
    latest: Option<Instant>,
    leading: int,
    internal: int,
    tail: int,
    gaps: nat)

  /** Midnight of the day thirty days back. */
  function AvailabilityFloor(observedAt: Instant): Instant {
    var back := observedAt - RETENTION_DAYS * MICROS_PER_DAY;
    back - back % MICROS_PER_DAY
  }

  function RetentionGrid(observedAt: Instant): Grid {
    Grid(AvailabilityFloor(observedAt), FloorTo(observedAt, INTERVAL), INTERVAL)
  }

  /** The rows that lie on an interval boundary. */
  function Safe(rows: seq<Instant>): seq<Instant> {
    if rows == [] then []
    else Safe(rows[..|rows| - 1]) + if OnBoundary(rows[|rows| - 1], INTERVAL) then [rows[|rows| - 1]] else []
  }

  /** What the time-ordered query over the retention window returns. */
  predicate Queried(observedAt: Instant, rows: seq<Instant>) {
    Nondecreasing(rows) && forall k :: 0 <= k < |rows| ==> AvailabilityFloor(observedAt) <= rows[k] <= observedAt
  }

  method RetentionLimitedPlan(observedAt: Instant, rows: seq<Instant>) returns (plan: Plan)
    ensures plan == PlanOf(observedAt, rows)
  {
    hide Internal;
    var windowStart := AvailabilityFloor(observedAt);
    var safe := Safe(rows);
    var profile := ProfileTimestamps(Grid(windowStart, FloorTo(observedAt, INTERVAL), INTERVAL), safe);
    var latest := if safe == [] then None else Some(safe[|safe| - 1]);
    var required := profile.leading > 0 || profile.internal > 0 || profile.tail > 0;
    var reason, start := Fresh, None;
    if required {
      if safe == [] {
        reason, start := NothingStored, Some(windowStart);
      } else if profile.leading > 0 {
        reason, start := CoverageShortfall, Some(windowStart);
      } else if profile.segments != [] {
        reason, start := ContinuityGap, Some(profile.segments[0].first);
      } else {
        var dayBefore := safe[|safe| - 1] - MICROS_PER_DAY;
        reason, start := TailShortfallOnly, Some(if windowStart < dayBefore then dayBefore else windowStart);
      }
    }
    plan := Plan(required, reason, start, if required then Some(observedAt) else None, latest,
                 profile.leading, profile.internal, profile.tail, |profile.segments|);
  }

  function ReasonOf(observedAt: Instant, rows: seq<Instant>): Reason {
    var safe, p := Safe(rows), ProfileOf(RetentionGrid(observedAt), Safe(rows));
    if p.leading <= 0 && p.internal <= 0 && p.tail <= 0 then Fresh
    else if safe == [] then NothingStored
    else if p.leading > 0 then CoverageShortfall
    else if p.segments != [] then ContinuityGap
    else TailShortfallOnly
  }

  function StartOf(observedAt: Instant, rows: seq<Instant>): Option<Instant> {
    var floor, safe, p := AvailabilityFloor(observedAt), Safe(rows), ProfileOf(RetentionGrid(observedAt), Safe(rows));
    match ReasonOf(observedAt, rows)
    case Fresh => None
    case NothingStored => Some(floor)
    case CoverageShortfall => Some(floor)
    case ContinuityGap => Some(p.segments[0].first)
    case TailShortfallOnly =>
      var dayBefore := safe[|safe| - 1] - MICROS_PER_DAY;
      Some(if floor < dayBefore then dayBefore else floor)
  }

  function PlanOf(observedAt: Instant, rows: seq<Instant>): Plan {
    var safe, p := Safe(rows), ProfileOf(RetentionGrid(observedAt), Safe(rows));
    var reason := ReasonOf(observedAt, rows);
    Plan(!reason.Fresh?, reason, StartOf(observedAt, rows), if reason.Fresh? then None else Some(observedAt),
         if safe == [] then None else Some(safe[|safe| - 1]), p.leading, p.internal, p.tail, |p.segments|)
  }

  // ----- The rows a plan is made from -----

  lemma {:induction false} SafeFilters(rows: seq<Instant>)
    ensures forall t :: t in Safe(rows) <==> t in rows && t % INTERVAL == 0
    ensures Nondecreasing(rows) ==> Nondecreasing(Safe(rows))
  {
    hide OnBoundary;
    if rows != [] {
      var init, last := rows[..|rows| - 1], rows[|rows| - 1];
      SafeFilters(init);
      BoundaryIsMultiple(last, INTERVAL);
      forall k | Nondecreasing(rows) && 0 <= k < |Safe(init)| ensures Safe(init)[k] <= last {
        assert Safe(init)[k] in Safe(init);
      }
    }
  }

  lemma GridOfWindow(observedAt: Instant, t: Instant)
    ensures OnGrid(RetentionGrid(observedAt), t) <==>
            AvailabilityFloor(observedAt) <= t <= observedAt && t % INTERVAL == 0
    ensures AvailabilityFloor(observedAt) % INTERVAL == 0 && AvailabilityFloor(observedAt) < observedAt
  {
    var back := observedAt - RETENTION_DAYS * MICROS_PER_DAY;
    var floor := AvailabilityFloor(observedAt);
    assert floor == MICROS_PER_DAY * (back / MICROS_PER_DAY);
    Multiple(floor, INTERVAL, 288 * (back / MICROS_PER_DAY));
    assert CeilTo(floor, INTERVAL) == floor by { CeilIsCeil(floor, INTERVAL); MultipleOfWhole(floor, INTERVAL); }
    GridIsEveryBoundary(floor, observedAt, INTERVAL, t);
  }

  lemma SafeIsClean(observedAt: Instant, rows: seq<Instant>)
    requires Queried(observedAt, rows)
    ensures Clean(RetentionGrid(observedAt), Safe(rows))
    ensures InRange(RetentionGrid(observedAt), Safe(rows)) && Seamless(RetentionGrid(observedAt), Safe(rows))
    ensures forall t :: OnGrid(RetentionGrid(observedAt), t) ==> (t in Times(Safe(rows)) <==> t in rows)
  {
    hide RetentionGrid, AvailabilityFloor, OnGrid;
    SafeFilters(rows);
    var g, safe := RetentionGrid(observedAt), Safe(rows);
    GridSteps(observedAt);
    forall k | 0 <= k < |safe| ensures OnGrid(g, safe[k]) {
      assert safe[k] in safe;
      GridOfWindow(observedAt, safe[k]);
    }
    forall t | OnGrid(g, t) ensures t in Times(safe) <==> t in rows {
      GridOfWindow(observedAt, t);
    }
    CleanIsSeamless(g, safe);
  }

  lemma GridSteps(observedAt: Instant)
    ensures Steps(RetentionGrid(observedAt))
  {
  }

  /** A grid point of the retention window that no stored row has. */
  predicate IsMissing(observedAt: Instant, rows: seq<Instant>, t: Instant) {
    AvailabilityFloor(observedAt) <= t <= observedAt && t % INTERVAL == 0 && t !in rows
  }

  lemma MissingIsAPoint(observedAt: Instant, rows: seq<Instant>, t: Instant) returns (k: nat)
    requires Queried(observedAt, rows) && IsMissing(observedAt, rows, t)
    ensures var g := RetentionGrid(observedAt); k < ExpectedPoints(g) && Point(g, k) == t && t !in Times(Safe(rows))
  {
    SafeIsClean(observedAt, rows);
    GridOfWindow(observedAt, t);
    OnGridHasIndex(RetentionGrid(observedAt), t);
    k := Index(RetentionGrid(observedAt), t);
  }

  lemma PointIsMissing(observedAt: Instant, rows: seq<Instant>, k: nat)
    requires Queried(observedAt, rows) && k < ExpectedPoints(RetentionGrid(observedAt))
    requires Point(RetentionGrid(observedAt), k) !in Times(Safe(rows))
    ensures IsMissing(observedAt, rows, Point(RetentionGrid(observedAt), k))
  {
    var t := Point(RetentionGrid(observedAt), k);
    hide RetentionGrid, ExpectedPoints, AvailabilityFloor;
    GridSteps(observedAt);
    SafeIsClean(observedAt, rows);
    PointHasIndex(RetentionGrid(observedAt), k);
    GridOfWindow(observedAt, t);
  }

  lemma {:induction false} SegmentsCount(g: Grid, rows: seq<Instant>)
    requires Steps(g)
    ensures SumPoints(Internal(g, rows)) >= |Internal(g, rows)|
  {
    if |rows| > 1 {
      SegmentsCount(g, rows[..|rows| - 1]);
      SumOfRuns(Internal(g, rows[..|rows| - 1]), Between(g, rows[|rows| - 2], rows[|rows| - 1]));
    }
  }

  lemma RequiredIffRuns(observedAt: Instant, rows: seq<Instant>)
    requires Queried(observedAt, rows)
    ensures var g := RetentionGrid(observedAt);
            PlanOf(observedAt, rows).required <==> Runs(g, Times(Safe(rows)), ExpectedPoints(g)) != []
  {
    var g, safe := RetentionGrid(observedAt), Safe(rows);
    SafeIsClean(observedAt, rows);
    ProfileFindsRuns(g, safe);
    CountsAreNatural(g, safe);
    SegmentsCount(g, safe);
    GridOfWindow(observedAt, observedAt);
    hide RetentionGrid, Safe, Internal, Runs, ExpectedPoints;
    assert SumPoints([]) == 0;
  }

  /** Remediation is required exactly when some point of the window is missing. */
  lemma RequiredIffMissing(observedAt: Instant, rows: seq<Instant>)
    requires Queried(observedAt, rows)
    ensures PlanOf(observedAt, rows).required <==> exists t :: IsMissing(observedAt, rows, t)
  {
    hide PlanOf, RetentionGrid, Safe, Runs, ExpectedPoints, Queried, IsMissing;
    RequiredIffRuns(observedAt, rows);
    GridSteps(observedAt);
    var g, safe := RetentionGrid(observedAt), Times(Safe(rows));
    var n := ExpectedPoints(g);
    if exists t :: IsMissing(observedAt, rows, t) {
      var t :| IsMissing(observedAt, rows, t);
      var k := MissingIsAPoint(observedAt, rows, t);
      FirstRunIsFirst(g, safe, n, k);
    } else if Runs(g, safe, n) != [] {
      if k :| 0 <= k < n && Point(g, k) !in safe {
        PointIsMissing(observedAt, rows, k);
      } else {
        NoneMissingNoRuns(g, safe, n);
      }
      assert false;
    }
  }

  /** A plan begins no later than its first run, on an interval boundary. */
  lemma StartsBeforeFirstRun(observedAt: Instant, rows: seq<Instant>)
    requires Queried(observedAt, rows) && PlanOf(observedAt, rows).required
    ensures var g, start := RetentionGrid(observedAt), PlanOf(observedAt, rows).start;
            var runs := Runs(g, Times(Safe(rows)), ExpectedPoints(g));
            runs != [] && start.Some? && start.value <= runs[0].first && start.value % INTERVAL == 0
            && AvailabilityFloor(observedAt) <= start.value
  {
    hide RetentionGrid, AvailabilityFloor, Safe, Runs, ExpectedPoints, ProfileOf, ReasonOf, Times, Queried, PlanOf,
      Point;
    RequiredIffRuns(observedAt, rows);
    GridSteps(observedAt);
    FirstRunOnGrid(observedAt, Safe(rows));
    if ReasonOf(observedAt, rows).ContinuityGap? {
      GapIsFirstRun(observedAt, rows);
    }
    if ReasonOf(observedAt, rows).TailShortfallOnly? {
      TailAfterLast(observedAt, rows);
      DayIsOnGrid(Safe(rows)[|Safe(rows)| - 1]);
    }
    GridOfWindow(observedAt, observedAt);
    StartIs(observedAt, rows);
    hide *;
  }

  lemma StartIs(observedAt: Instant, rows: seq<Instant>)
    requires PlanOf(observedAt, rows).required
    ensures var floor, start := AvailabilityFloor(observedAt), PlanOf(observedAt, rows).start;
            start.Some? &&
            match ReasonOf(observedAt, rows)
            case ContinuityGap =>
              var segments := ProfileOf(RetentionGrid(observedAt), Safe(rows)).segments;
              segments != [] && start.value == segments[0].first
            case TailShortfallOnly =>
              var safe := Safe(rows);
              safe != [] && (start.value == floor || floor <= start.value == safe[|safe| - 1] - 288 * INTERVAL)
            case _ => start.value == floor
  {
    hide RetentionGrid, Safe, ProfileOf, AvailabilityFloor;
  }

  lemma DayIsOnGrid(t: Instant)
    requires t % INTERVAL == 0
    ensures (t - 288 * INTERVAL) % INTERVAL == 0
  {
  }

  lemma GapIsFirstRun(observedAt: Instant, rows: seq<Instant>)
    requires Queried(observedAt, rows) && ReasonOf(observedAt, rows).ContinuityGap?
    ensures var g, safe := RetentionGrid(observedAt), Safe(rows);
            var runs, segments := Runs(g, Times(safe), ExpectedPoints(g)), ProfileOf(g, safe).segments;
            runs != [] && segments != [] && runs[0] == segments[0]
  {
    var g, safe := RetentionGrid(observedAt), Safe(rows);
    var p := ProfileOf(g, safe);
    SafeIsClean(observedAt, rows);
    ProfileFindsRuns(g, safe);
    NoRuns(g, Times(safe));
    CountsAreNatural(g, safe);
    hide RetentionGrid, Safe, Internal, Runs, ExpectedPoints, LeadingShortfall, TailShortfall, Clean, RunFrom;
    assert RunFrom(g, 0, p.leading) == [];
  }

  lemma FirstRunOnGrid(observedAt: Instant, safe: seq<Instant>)
    ensures Steps(RetentionGrid(observedAt))
    ensures var g := RetentionGrid(observedAt);
            var runs := Runs(g, Times(safe), ExpectedPoints(g));
            runs != [] ==> AvailabilityFloor(observedAt) <= runs[0].first && runs[0].first % INTERVAL == 0
  {
    GridSteps(observedAt);
    var g := RetentionGrid(observedAt);
    var n := ExpectedPoints(g);
    var runs := Runs(g, Times(safe), n);
    hide RetentionGrid, AvailabilityFloor, ExpectedPoints, Runs;
    if runs != [] {
      RunsHaveShape(g, Times(safe), n);
      assert runs[0] in runs;
      assert HasShape(g, n, runs[0]);
      var a, b :| 0 <= a <= b < n && runs[0] == SegmentOf(g, a, b);
      PointHasIndex(g, a);
      GridOfWindow(observedAt, runs[0].first);
    }
  }

  lemma TailAfterLast(observedAt: Instant, rows: seq<Instant>)
    requires Queried(observedAt, rows) && ReasonOf(observedAt, rows).TailShortfallOnly?
    ensures var g, safe := RetentionGrid(observedAt), Safe(rows);
            var runs := Runs(g, Times(safe), ExpectedPoints(g));
            safe != [] && runs != [] && safe[|safe| - 1] <= runs[0].first
            && AvailabilityFloor(observedAt) <= safe[|safe| - 1] && safe[|safe| - 1] % INTERVAL == 0
  {
    hide RetentionGrid, AvailabilityFloor, Safe, Internal, Runs, ExpectedPoints, LeadingShortfall, TailShortfall,
      Queried, Index, Point, OnGrid, RunFrom;
    GridSteps(observedAt);
    var g, safe := RetentionGrid(observedAt), Safe(rows);
    var last, p := safe[|safe| - 1], ProfileOf(g, safe);
    SafeIsClean(observedAt, rows);
    GridOfWindow(observedAt, last);
    GridOfWindow(observedAt, observedAt);
    WindowIsNotEmpty(observedAt);
    ProfileFindsRuns(g, safe);
    CountsAreNatural(g, safe);
    NoRuns(g, Times(safe));
    assert p.segments == [] && p.leading == 0 && p.tail > 0 by {
      assert SumPoints([]) == 0;
      SegmentsCount(g, safe);
    }
    assert Runs(g, Times(safe), ExpectedPoints(g)) == RunFrom(g, ExpectedPoints(g) - p.tail, p.tail);
    TailFindsRun(g, safe);
    OnGridHasIndex(g, last);
    TailRunFollows(g, Index(g, last), p.tail);
  }

  lemma WindowIsNotEmpty(observedAt: Instant)
    ensures RetentionGrid(observedAt).start <= RetentionGrid(observedAt).end
  {
    GridOfWindow(observedAt, AvailabilityFloor(observedAt));
    hide AvailabilityFloor, FloorTo;
  }

  lemma TailRunFollows(g: Grid, k: int, c: int)
    requires Steps(g) && c > 0
    ensures RunFrom(g, k + 1, c) != [] && Point(g, k) <= RunFrom(g, k + 1, c)[0].first
  {
    PointsIncrease(g);
  }

  /**
   * A plan is complete: every missing point lies in the planned window and is fetched by exactly one of the day windows
   * that the plan is chunked into.
   */
  lemma PlanIsComplete(observedAt: Instant, rows: seq<Instant>, t: Instant)
    requires Queried(observedAt, rows) && IsMissing(observedAt, rows, t)
    ensures var plan := PlanOf(observedAt, rows);
            plan.required && plan.start.Some? && plan.end == Some(observedAt)
            && plan.start.value <= t <= observedAt
            && Covering(DayWindows(plan.start.value, observedAt, CHUNK_DAYS), t) == 1
  {
    RequiredIffMissing(observedAt, rows);
    StartsBeforeFirstRun(observedAt, rows);
    GridSteps(observedAt);
    var plan, g, safe := PlanOf(observedAt, rows), RetentionGrid(observedAt), Times(Safe(rows));
    var start := plan.start.value;
    var k := MissingIsAPoint(observedAt, rows, t);
    FirstRunIsFirst(g, safe, ExpectedPoints(g), k);
    assert (t - start) % MILLI == 0 by {
      DifferenceOfMultiples(t, start, INTERVAL);
      MultipleOfWhole(t - start, INTERVAL);
      assert t - start == SECOND * ((t - start) / SECOND);
      Multiple(t - start, MILLI, 1000 * ((t - start) / SECOND));
    }
    DayWindowsTile(start, observedAt, CHUNK_DAYS, t);
  }

  // ----- What the reasons mean -----

  /** Some missing point lies before the latest stored one. */
  ghost predicate HasGapBefore(observedAt: Instant, rows: seq<Instant>) {
    Safe(rows) != [] && exists t :: IsMissing(observedAt, rows, t) && t < Safe(rows)[|Safe(rows)| - 1]
  }

  lemma LeadingIffFloorMissing(observedAt: Instant, rows: seq<Instant>)
    requires Queried(observedAt, rows) && Safe(rows) != []
    ensures Steps(RetentionGrid(observedAt))
    ensures LeadingShortfall(RetentionGrid(observedAt), Safe(rows)) > 0 <==>
            IsMissing(observedAt, rows, AvailabilityFloor(observedAt))
  {
    var g, safe, floor := RetentionGrid(observedAt), Safe(rows), AvailabilityFloor(observedAt);
    GridSteps(observedAt);
    SafeIsClean(observedAt, rows);
    SafeFilters(rows);
    GridOfWindow(observedAt, floor);
    OnGridHasIndex(g, safe[0]);
    assert g.start == floor == Point(g, 0);
    hide RetentionGrid, AvailabilityFloor, Safe, Point, Index, Truncated, OnGrid;
    StepsBetween(g, 0, Index(g, safe[0]));
    PointsIncrease(g);
    assert safe[0] in safe;
    assert forall t :: t in safe ==> safe[0] <= t;
  }

  /** A point below index n is missing. */
  ghost predicate MissingBelow(g: Grid, observed: set<Instant>, n: int) {
    exists k :: 0 <= k < n && Point(g, k) !in observed
  }

  lemma RunsIffMissing(g: Grid, observed: set<Instant>, n: nat)
    requires Steps(g)
    ensures Runs(g, observed, n) != [] <==> MissingBelow(g, observed, n)
  {
    hide Runs, Point;
    if MissingBelow(g, observed, n) {
      var k :| 0 <= k < n && Point(g, k) !in observed;
      FirstRunIsFirst(g, observed, n, k);
    } else {
      NoneMissingNoRuns(g, observed, n);
    }
  }

  lemma InternalIffMissing(g: Grid, rows: seq<Instant>)
    requires Steps(g) && Clean(g, rows) && rows != [] && LeadingShortfall(g, rows) == 0
    ensures Internal(g, rows) != [] <==> MissingBelow(g, Times(rows), Index(g, rows[|rows| - 1]) + 1)
  {
    hide Internal, Runs, LeadingShortfall, MissingBelow, Index, OnGrid;
    OnGridHasIndex(g, rows[|rows| - 1]);
    CleanIsSeamless(g, rows);
    PairsFindRuns(g, rows, |rows|);
    assert rows[..|rows|] == rows;
    NoRuns(g, Times(rows));
    RunsIffMissing(g, Times(rows), Index(g, rows[|rows| - 1]) + 1);
  }

  lemma GapBeforeIffMissing(observedAt: Instant, rows: seq<Instant>)
    requires Queried(observedAt, rows) && Safe(rows) != []
    ensures Steps(RetentionGrid(observedAt))
    ensures var g, safe := RetentionGrid(observedAt), Safe(rows);
            HasGapBefore(observedAt, rows) <==> MissingBelow(g, Times(safe), Index(g, safe[|safe| - 1]) + 1)
  {
    GridSteps(observedAt);
    SafeIsClean(observedAt, rows);
    hide RetentionGrid, Safe, Queried, IsMissing, Point, Index, ExpectedPoints, OnGrid;
    var g, safe := RetentionGrid(observedAt), Safe(rows);
    var observed, last := Times(safe), safe[|safe| - 1];
    var n := Index(g, last);
    OnGridHasIndex(g, last);
    assert last in observed;
    if HasGapBefore(observedAt, rows) {
      var t :| IsMissing(observedAt, rows, t) && t < last;
      var k := MissingIsAPoint(observedAt, rows, t);
      PointsCompare(g, k, n);
    }
    if MissingBelow(g, observed, n + 1) {
      var k :| 0 <= k < n + 1 && Point(g, k) !in observed;
      PointIsMissing(observedAt, rows, k);
      PointsCompare(g, k, n);
    }
  }

  /** The reason names what is missing: everything, the start of the window, a point in the middle, or only the end. */
  lemma ReasonsMean(observedAt: Instant, rows: seq<Instant>)
    requires Queried(observedAt, rows)
    ensures var reason, floorMissing :=
            PlanOf(observedAt, rows).reason, IsMissing(observedAt, rows, AvailabilityFloor(observedAt));
            && (reason.NothingStored? <==> Safe(rows) == [])
            && (reason.CoverageShortfall? <==> Safe(rows) != [] && floorMissing)
            && (reason.ContinuityGap? <==> !floorMissing && HasGapBefore(observedAt, rows))
            && (reason.TailShortfallOnly? <==>
                  !floorMissing && !HasGapBefore(observedAt, rows) && exists t :: IsMissing(observedAt, rows, t))
  {
    hide RetentionGrid, Safe, Internal, IsMissing, LeadingShortfall, TailShortfall, AvailabilityFloor, MissingBelow,
      HasGapBefore,
      PlanOf, Queried, Clean, Times, Index;
    RequiredIffMissing(observedAt, rows);
    PlanReason(observedAt, rows);
    if Safe(rows) == [] {
      NothingIsStored(observedAt, rows);
      NoRowsNoGap(observedAt, rows);
    } else {
      ReasonByCounts(observedAt, rows);
      LeadingIffFloorMissing(observedAt, rows);
      if LeadingShortfall(RetentionGrid(observedAt), Safe(rows)) == 0 {
        SafeIsClean(observedAt, rows);
        InternalIffMissing(RetentionGrid(observedAt), Safe(rows));
        GapBeforeIffMissing(observedAt, rows);
      }
    }
  }

  lemma PlanReason(observedAt: Instant, rows: seq<Instant>)
    ensures PlanOf(observedAt, rows).reason == ReasonOf(observedAt, rows)
    ensures PlanOf(observedAt, rows).required <==> !ReasonOf(observedAt, rows).Fresh?
  {
    hide ReasonOf, StartOf, ProfileOf;
  }

  lemma NoRowsNoGap(observedAt: Instant, rows: seq<Instant>)
    requires Safe(rows) == []
    ensures !HasGapBefore(observedAt, rows)
  {
  }

  /** The branches, in terms of the profile's three parts. */
  lemma ReasonByCounts(observedAt: Instant, rows: seq<Instant>)
    requires Safe(rows) != []
    ensures Steps(RetentionGrid(observedAt))
    ensures var g, safe, reason := RetentionGrid(observedAt), Safe(rows), ReasonOf(observedAt, rows);
            var leading, internal, tail := LeadingShortfall(g, safe), Internal(g, safe), TailShortfall(g, safe);
            && leading >= 0 && tail >= 0
            && reason == if leading > 0 then CoverageShortfall else if internal != [] then ContinuityGap
                         else if tail > 0 then TailShortfallOnly else Fresh
  {
    var g, safe := RetentionGrid(observedAt), Safe(rows);
    GridSteps(observedAt);
    WindowIsNotEmpty(observedAt);
    hide RetentionGrid, Safe, Internal, LeadingShortfall, TailShortfall;
    CountsAreNatural(g, safe);
    SegmentsCount(g, safe);
    assert SumPoints([]) == 0;
  }

  lemma NothingIsStored(observedAt: Instant, rows: seq<Instant>)
    requires Queried(observedAt, rows) && Safe(rows) == []
    ensures PlanOf(observedAt, rows).reason.NothingStored?
    ensures IsMissing(observedAt, rows, AvailabilityFloor(observedAt))
  {
    var floor := AvailabilityFloor(observedAt);
    SafeFilters(rows);
    GridOfWindow(observedAt, floor);
    RequiredIffMissing(observedAt, rows);
    hide RetentionGrid, AvailabilityFloor;
    assert IsMissing(observedAt, rows, floor);
  }

  // ----- What the start and the counts mean -----

  /** The floor is the last midnight at least thirty days back. */
  lemma FloorIsMidnight(observedAt: Instant)
    ensures var floor, back := AvailabilityFloor(observedAt), observedAt - 30 * MICROS_PER_DAY;
            floor % MICROS_PER_DAY == 0 && floor <= back < floor + MICROS_PER_DAY
  {
    var back := observedAt - RETENTION_DAYS * MICROS_PER_DAY;
    assert back - back % MICROS_PER_DAY == MICROS_PER_DAY * (back / MICROS_PER_DAY);
    Multiple(AvailabilityFloor(observedAt), MICROS_PER_DAY, back / MICROS_PER_DAY);
  }

  lemma {:induction false} PlaceInGrid(g: Grid, n: nat, t: Instant) returns (k: nat)
    requires t in GridSet(g, n)
    ensures k < n && Point(g, k) == t
  {
    hide Point;
    k := n - 1;
    if t != Point(g, k) { k := PlaceInGrid(g, n - 1, t); }
  }

  lemma GridBelow(g: Grid, n: nat, i: nat)
    requires Steps(g) && i <= n
    ensures forall t :: t in GridSet(g, i) <==> t in GridSet(g, n) && t < Point(g, i)
    ensures |GridSet(g, i)| == i
  {
    RunsCountMissing(g, {}, i);
    hide Point, GridSet, Runs;
    forall t ensures t in GridSet(g, i) <==> t in GridSet(g, n) && t < Point(g, i) {
      if t in GridSet(g, i) {
        var k := PlaceInGrid(g, i, t);
        GridSetHolds(g, n, k);
        PointsCompare(g, k, i);
      }
      if t in GridSet(g, n) && t < Point(g, i) {
        var k := PlaceInGrid(g, n, t);
        PointsCompare(g, k, i);
        GridSetHolds(g, i, k);
      }
    }
  }

  lemma BelowOrAbove(g: Grid, n: nat, b: nat, t: Instant)
    requires Steps(g) && 1 <= b && t in GridSet(g, n)
    ensures t < Point(g, b) <==> !(Point(g, b - 1) < t)
  {
    hide Point, GridSet;
    var k := PlaceInGrid(g, n, t);
    PointsCompare(g, b - 1, k);
    PointsCompare(g, k, b);
  }

  lemma {:induction false} GridAbove(g: Grid, n: nat, b: nat)
    requires Steps(g) && 1 <= b <= n
    ensures forall t :: t in GridSet(g, n) - GridSet(g, b) <==> t in GridSet(g, n) && Point(g, b - 1) < t
    ensures |GridSet(g, n) - GridSet(g, b)| == n - b
  {
    GridBelow(g, n, b);
    GridBelow(g, n, n);
    hide Point, GridSet;
    var all, below := GridSet(g, n), GridSet(g, b);
    forall t ensures t in all - below <==> t in all && Point(g, b - 1) < t {
      if t in all { BelowOrAbove(g, n, b, t); }
    }
    SameSet(all, below + (all - below));
  }

  /** The scan's count before the first stored time is that of the points missing there. */
  lemma LeadingIsCounted(g: Grid, rows: seq<Instant>, missing: set<Instant>)
    requires Steps(g) && Clean(g, rows) && rows != []
    requires forall t :: t in missing <==> t in GridSet(g, ExpectedPoints(g)) && t !in rows
    ensures |set t | t in missing && t < rows[0]| == LeadingShortfall(g, rows)
  {
    var a := Index(g, rows[0]);
    OnGridHasIndex(g, rows[0]);
    LeadingIsIndex(g, rows);
    GridBelow(g, ExpectedPoints(g), a);
    hide Point, Index, OnGrid, GridSet, ExpectedPoints, LeadingShortfall;
    assert forall t :: t in rows ==> rows[0] <= t;
    forall t ensures t in GridSet(g, a) <==> t in missing && t < rows[0] {}
    SameSet(GridSet(g, a), set t | t in missing && t < rows[0]);
  }

  lemma SameSet(a: set<Instant>, b: set<Instant>)
    requires forall t :: t in a <==> t in b
    ensures a == b
  {
    HasMember(a - b);
    HasMember(b - a);
    assert a - b == {} && b - a == {};
    assert a == (a - b) + a * b && b == (b - a) + b * a;
  }

  lemma TailIsCounted(g: Grid, rows: seq<Instant>, missing: set<Instant>)
    requires Steps(g) && Clean(g, rows) && rows != []
    requires forall t :: t in missing <==> t in GridSet(g, ExpectedPoints(g)) && t !in rows
    ensures |set t | t in missing && rows[|rows| - 1] < t| == TailShortfall(g, rows)
  {
    var n, last := ExpectedPoints(g), rows[|rows| - 1];
    OnGridHasIndex(g, last);
    CleanIsSeamless(g, rows);
    TailFindsRun(g, rows);
    var b := Index(g, last) + 1;
    GridAbove(g, n, b);
    hide Point, Index, OnGrid, GridSet, ExpectedPoints, TailShortfall, Runs;
    assert forall t :: t in rows ==> t <= last;
    forall t ensures t in GridSet(g, n) - GridSet(g, b) <==> t in missing && last < t {}
    SameSet(GridSet(g, n) - GridSet(g, b), set t | t in missing && last < t);
  }

  lemma LeadingIsIndex(g: Grid, rows: seq<Instant>)
    requires Steps(g) && Clean(g, rows) && rows != []
    ensures LeadingShortfall(g, rows) == Index(g, rows[0])
  {
    OnGridHasIndex(g, rows[0]);
    assert Point(g, 0) == g.start;
    hide Point, Index, Truncated;
    StepsBetween(g, 0, Index(g, rows[0]));
  }

  lemma MissingIsWhatIsNotStored(observedAt: Instant, rows: seq<Instant>, missing: set<Instant>)
    requires Queried(observedAt, rows) && forall t :: t in missing <==> IsMissing(observedAt, rows, t)
    ensures Steps(RetentionGrid(observedAt))
    ensures var g := RetentionGrid(observedAt);
            && (forall t :: t in missing <==> t in GridSet(g, ExpectedPoints(g)) && t !in Safe(rows))
            && missing == GridSet(g, ExpectedPoints(g)) - Times(Safe(rows))
  {
    hide RetentionGrid, Safe, Queried, IsMissing, Point, ExpectedPoints, GridSet, Times;
    GridSteps(observedAt);
    var g, safe := RetentionGrid(observedAt), Safe(rows);
    HasTimes(safe);
    forall t ensures IsMissing(observedAt, rows, t) <==> t in GridSet(g, ExpectedPoints(g)) && t !in safe {
      if IsMissing(observedAt, rows, t) {
        var k := MissingIsAPoint(observedAt, rows, t);
        GridSetHolds(g, ExpectedPoints(g), k);
      }
      if t in GridSet(g, ExpectedPoints(g)) && t !in safe {
        var k := PlaceInGrid(g, ExpectedPoints(g), t);
        PointIsMissing(observedAt, rows, k);
      }
    }
    SameSet(missing, GridSet(g, ExpectedPoints(g)) - Times(safe));
  }

  /**
   * The counts of a plan are numbers of missing points: those before every stored one, those after every stored one,
   * and the others; where nothing is stored all of them are before.
   */
  lemma CountsAreOfMissing(observedAt: Instant, rows: seq<Instant>, missing: set<Instant>)
    requires Queried(observedAt, rows) && forall t :: t in missing <==> IsMissing(observedAt, rows, t)
    ensures var plan, safe := PlanOf(observedAt, rows), Safe(rows);
            && plan.leading + plan.internal + plan.tail == |missing|
            && (safe == [] ==> plan.leading == |missing|)
            && (safe != [] ==>
                  && plan.leading == |set t | t in missing && t < safe[0]|
                  && plan.tail == |set t | t in missing && safe[|safe| - 1] < t|)
  {
    var g, safe := RetentionGrid(observedAt), Safe(rows);
    MissingIsWhatIsNotStored(observedAt, rows, missing);
    SafeIsClean(observedAt, rows);
    WindowIsNotEmpty(observedAt);
    RunsCountMissing(g, Times(safe), ExpectedPoints(g));
    ProfileFindsRuns(g, safe);
    TotalSumsGaps(g, safe);
    if safe != [] {
      LeadingIsCounted(g, safe, missing);
      TailIsCounted(g, safe, missing);
    }
    hide RetentionGrid, Safe, Internal, LeadingShortfall, TailShortfall, Runs, ExpectedPoints, GridSet, Times,
      ProfiledGaps, IsMissing, ReasonOf, StartOf, Clean, Seamless, InRange, Queried;
    if safe == [] { NothingBefore(g); }
  }

  lemma NothingBefore(g: Grid)
    requires Steps(g)
    ensures Internal(g, []) == [] && SumPoints([]) == 0 && TailShortfall(g, []) == 0
  {
  }

  /** The latest row is the greatest one on a boundary. */
  lemma LatestIsGreatest(observedAt: Instant, rows: seq<Instant>)
    requires Queried(observedAt, rows)
    ensures match PlanOf(observedAt, rows).latest
            case None => forall t :: t in rows ==> t % INTERVAL != 0
            case Some(latest) =>
              latest in rows && latest % INTERVAL == 0 && forall t :: t in rows && t % INTERVAL == 0 ==> t <= latest
  {
    hide RetentionGrid, Safe, ProfileOf, AvailabilityFloor, ReasonOf, StartOf;
    SafeFilters(rows);
    var safe := Safe(rows);
    if safe != [] {
      assert safe[|safe| - 1] in safe;
    }
  }

  /** There are as many gaps as maximal runs of missing points that neither begin nor end the window. */
  lemma GapsAreInnerRuns(observedAt: Instant, rows: seq<Instant>)
    requires Queried(observedAt, rows)
    ensures var g, plan := RetentionGrid(observedAt), PlanOf(observedAt, rows);
            Steps(g) && plan.gaps == |Runs(g, Times(Safe(rows)), ExpectedPoints(g))|
              - (if plan.leading > 0 then 1 else 0) - (if plan.tail > 0 then 1 else 0)
  {
    SafeIsClean(observedAt, rows);
    GridSteps(observedAt);
    ProfileFindsRuns(RetentionGrid(observedAt), Safe(rows));
    hide RetentionGrid, Safe, ProfileOf, AvailabilityFloor, ReasonOf, StartOf, Runs, ExpectedPoints, Seamless, InRange,
      Clean, Queried, Times;
  }

  lemma FirstRunIsMissing(g: Grid, observed: set<Instant>, n: nat) returns (k: nat)
    requires Steps(g) && Runs(g, observed, n) != []
    ensures k < n && Point(g, k) !in observed && Runs(g, observed, n)[0].first == Point(g, k)
  {
    hide Runs;
    RunsHaveShape(g, observed, n);
    var s := Runs(g, observed, n)[0];
    assert s in Runs(g, observed, n);
    assert HasShape(g, n, s);
    var a, b :| 0 <= a <= b < n && s == SegmentOf(g, a, b);
    GapsAreMaximalRuns(g, observed, n, a, b);
    k := a;
  }

  /**
   * Where a plan begins: at the floor if the window's start or everything is missing, at the earliest missing point if
   * there is a gap, and if only the end is missing a day before the latest row, but not before the floor.
   */
  lemma StartMeans(observedAt: Instant, rows: seq<Instant>)
    requires Queried(observedAt, rows)
    ensures var plan, floor := PlanOf(observedAt, rows), AvailabilityFloor(observedAt);
            match plan.reason
            case Fresh => plan.start == None
            case NothingStored => plan.start == Some(floor)
            case CoverageShortfall => plan.start == Some(floor)
            case ContinuityGap =>
              plan.start.Some? && IsMissing(observedAt, rows, plan.start.value)
              && forall t :: IsMissing(observedAt, rows, t) ==> plan.start.value <= t
            case TailShortfallOnly =>
              plan.latest.Some? && plan.start.Some?
              && floor <= plan.start.value && plan.latest.value - MICROS_PER_DAY <= plan.start.value
              && (plan.start.value == floor || plan.start.value == plan.latest.value - MICROS_PER_DAY)
  {
    GridSteps(observedAt);
    if ReasonOf(observedAt, rows).ContinuityGap? {
      GapStartIsMissing(observedAt, rows);
    }
    hide RetentionGrid, Safe, ProfileOf, AvailabilityFloor, IsMissing;
  }

  lemma GapStartIsMissing(observedAt: Instant, rows: seq<Instant>)
    requires Queried(observedAt, rows) && ReasonOf(observedAt, rows).ContinuityGap?
    ensures Steps(RetentionGrid(observedAt))
    ensures var segments := ProfileOf(RetentionGrid(observedAt), Safe(rows)).segments;
            segments != [] && IsMissing(observedAt, rows, segments[0].first)
            && forall t :: IsMissing(observedAt, rows, t) ==> segments[0].first <= t
  {
    hide RetentionGrid, Safe, ProfileOf, IsMissing, Runs, ExpectedPoints, ReasonOf, Queried, Times, Point;
    GridSteps(observedAt);
    GapIsFirstRun(observedAt, rows);
    var g, observed := RetentionGrid(observedAt), Times(Safe(rows));
    var k := FirstRunIsMissing(g, observed, ExpectedPoints(g));
    PointIsMissing(observedAt, rows, k);
    forall t | IsMissing(observedAt, rows, t) ensures Point(g, k) <= t {
      var m := MissingIsAPoint(observedAt, rows, t);
      FirstRunIsFirst(g, observed, ExpectedPoints(g), m);
    }
  }
}
