/** Cutting a time range into fetch windows by day or by calendar month. */
module Windows {
  import opened Market
  import opened Calendar

  const MILLI: int := 1000

  /** A closed range of instants. */
  datatype Window = Window(start: Instant, end: Instant)

  predicate Within(w: Window, t: Instant) {
    w.start <= t <= w.end
  }

  /** How many windows contain t. */
  function Covering(windows: seq<Window>, t: Instant): nat {
    if windows == [] then 0 else (if Within(windows[0], t) then 1 else 0) + Covering(windows[1..], t)
  }

  function Earlier(a: Instant, b: Instant): Instant {
    if b < a then b else a
  }

  // ----- By days -----

  function DayWindows(cursor: Instant, end: Instant, chunkDays: int): seq<Window>
    requires chunkDays >= 1
    decreases end - cursor + 1
  {
    if cursor > end then [] else
      var next := cursor + chunkDays * MICROS_PER_DAY;
      [Window(cursor, Earlier(next - MILLI, end))] + DayWindows(next, end, chunkDays)
  }

  method BuildDayWindows(start: Instant, end: Instant, chunkDays: int) returns (windows: seq<Window>)
    requires chunkDays >= 1
    ensures windows == DayWindows(start, end, chunkDays)
  {
    windows := [];
    var cursor := start;
    while cursor <= end
      invariant windows + DayWindows(cursor, end, chunkDays) == DayWindows(start, end, chunkDays)
      decreases end - cursor + 1
    {
      var next := cursor + chunkDays * MICROS_PER_DAY;
      var windowEnd := Earlier(next - MILLI, end);
      assert windows + [Window(cursor, windowEnd)] + DayWindows(next, end, chunkDays)
          == windows + ([Window(cursor, windowEnd)] + DayWindows(next, end, chunkDays));
      windows := windows + [Window(cursor, windowEnd)];
      cursor := next;
    }
    assert windows + [] == windows;
  }

  /**
   * No instant is covered twice, and an instant of the range is covered exactly when it is not inside the last
   * millisecond before a day boundary of the chunking.
   */
  lemma {:induction false} DayWindowsCover(cursor: Instant, end: Instant, chunkDays: int, t: Instant)
    requires chunkDays >= 1
    ensures Covering(DayWindows(cursor, end, chunkDays), t) ==
            if cursor <= t <= end
              && (t - cursor) % (chunkDays * MICROS_PER_DAY) <= chunkDays * MICROS_PER_DAY - MILLI then 1 else 0
    decreases end - cursor + 1
  {
    if cursor <= end {
      var step := chunkDays * MICROS_PER_DAY;
      var next := cursor + step;
      DayWindowsCover(next, end, chunkDays, t);
      if t >= next {
        StepBack(t - cursor, step);
      } else if t >= cursor {
        SmallRemainder(t - cursor, step);
      }
      var windows := DayWindows(cursor, end, chunkDays);
      assert windows[1..] == DayWindows(next, end, chunkDays);
    }
  }

  lemma StepBack(x: int, step: int)
    requires step > 0
    ensures (x - step) % step == x % step
  {
    var q := x / step;
    assert x == step * q + x % step;
    assert x - step == step * (q - 1) + x % step;
    QuotientIs(x - step, step, q - 1, x % step);
  }

  lemma SmallRemainder(x: int, step: int)
    requires 0 <= x < step
    ensures x % step == x
  {
    QuotientIs(x, step, 0, x);
  }

  /** Every whole millisecond of the range, counted from its start, is fetched exactly once. */
  lemma DayWindowsTile(start: Instant, end: Instant, chunkDays: int, t: Instant)
    requires chunkDays >= 1 && (t - start) % MILLI == 0
    ensures Covering(DayWindows(start, end, chunkDays), t) == if start <= t <= end then 1 else 0
  {
    DayWindowsCover(start, end, chunkDays, t);
    var step := chunkDays * MICROS_PER_DAY;
    if start <= t {
      var x := t - start;
      assert x == step * (x / step) + x % step;
      assert step == MILLI * (chunkDays * 86_400_000);
      assert x % step == MILLI * (x / MILLI - chunkDays * 86_400_000 * (x / step)) by {
        Regroup(chunkDays * 86_400_000, x / step);
      }
    }
  }

  lemma Regroup(n: int, q: int)
    ensures MILLI * n * q == MILLI * (n * q)
  {
  }

  // ----- By calendar months -----

  function MonthWindows(cursor: DateTime, end: Instant, chunkMonths: nat): seq<Window>
    requires Proper(cursor) && chunkMonths >= 1
    decreases end - Moment(cursor) + 1
  {
    if Moment(cursor) > end then [] else
      AddMonthsMovesForward(cursor, chunkMonths);
      var next := AddMonths(cursor, chunkMonths);
      [Window(Moment(cursor), Earlier(Moment(next) - MILLI, end))] + MonthWindows(next, end, chunkMonths)
  }

  method BuildMonthWindows(start: DateTime, end: Instant, chunkMonths: nat) returns (windows: seq<Window>)
    requires Proper(start) && chunkMonths >= 1
    ensures windows == MonthWindows(start, end, chunkMonths)
  {
    hide Moment, AddMonths, DaysInMonth;
    windows := [];
    var cursor := start;
    while Moment(cursor) <= end
      invariant Proper(cursor)
      invariant windows + MonthWindows(cursor, end, chunkMonths) == MonthWindows(start, end, chunkMonths)
      decreases end - Moment(cursor) + 1
    {
      AddMonthsMovesForward(cursor, chunkMonths);
      var next := AddMonths(cursor, chunkMonths);
      var windowEnd := Earlier(Moment(next) - MILLI, end);
      assert windows + [Window(Moment(cursor), windowEnd)] + MonthWindows(next, end, chunkMonths)
          == windows + ([Window(Moment(cursor), windowEnd)] + MonthWindows(next, end, chunkMonths));
      windows := windows + [Window(Moment(cursor), windowEnd)];
      cursor := next;
    }
    assert windows + [] == windows;
  }

  lemma {:induction false} MonthWindowsStart(cursor: DateTime, end: Instant, chunkMonths: nat, t: Instant)
    requires Proper(cursor) && chunkMonths >= 1 && (t < Moment(cursor) || t > end)
    ensures Covering(MonthWindows(cursor, end, chunkMonths), t) == 0
    decreases end - Moment(cursor) + 1
  {
    hide Moment, AddMonths, DaysInMonth;
    if Moment(cursor) <= end {
      AddMonthsMovesForward(cursor, chunkMonths);
      var next := AddMonths(cursor, chunkMonths);
      MonthWindowsStart(next, end, chunkMonths, t);
      assert MonthWindows(cursor, end, chunkMonths)[1..] == MonthWindows(next, end, chunkMonths);
    }
  }

  /**
   * Month windows terminate and tile: every whole millisecond of the range lies in exactly one of them, nothing else in
   * any.
   */
  lemma {:induction false} MonthWindowsTile(cursor: DateTime, end: Instant, chunkMonths: nat, t: Instant)
    requires Proper(cursor) && chunkMonths >= 1 && (t - Moment(cursor)) % MILLI == 0
    ensures Covering(MonthWindows(cursor, end, chunkMonths), t) == if Moment(cursor) <= t <= end then 1 else 0
    decreases end - Moment(cursor) + 1
  {
    hide Moment, AddMonths, DaysInMonth;
    if t < Moment(cursor) || t > end {
      MonthWindowsStart(cursor, end, chunkMonths, t);
    } else {
      AddMonthsMovesForward(cursor, chunkMonths);
      var next := AddMonths(cursor, chunkMonths);
      WholeDaysAreWholeMillis(Moment(next) - Moment(cursor));
      assert MonthWindows(cursor, end, chunkMonths)[1..] == MonthWindows(next, end, chunkMonths);
      if t < Moment(next) {
        MonthWindowsStart(next, end, chunkMonths, t);
      } else {
        MonthWindowsTile(next, end, chunkMonths, t);
      }
    }
  }

  /** Where the k-th window starts: each step keeps the day that the step before left, clamped or not. */
  function CursorAt(cursor: DateTime, chunkMonths: nat, k: nat): (d: DateTime)
    requires Proper(cursor)
    ensures Proper(d)
    decreases k
  {
    if k == 0 then cursor else
      AddMonthsMovesForward(cursor, chunkMonths);
      CursorAt(AddMonths(cursor, chunkMonths), chunkMonths, k - 1)
  }

  /** Strictly inside the last millisecond before a later window starts. */
  ghost predicate InSeam(cursor: DateTime, chunkMonths: nat, t: Instant)
    requires Proper(cursor)
  {
    exists k: nat ::
      k >= 1 && Moment(CursorAt(cursor, chunkMonths, k)) - MILLI < t < Moment(CursorAt(cursor, chunkMonths, k))
  }

  lemma {:induction false} CursorsAscend(cursor: DateTime, chunkMonths: nat, k: nat)
    requires Proper(cursor) && chunkMonths >= 1
    ensures Moment(CursorAt(cursor, chunkMonths, k)) >= Moment(cursor) + k * MICROS_PER_DAY
    decreases k
  {
    hide Moment, AddMonths, DaysInMonth;
    if k > 0 {
      AddMonthsMovesForward(cursor, chunkMonths);
      CursorsAscend(AddMonths(cursor, chunkMonths), chunkMonths, k - 1);
    }
  }

  lemma SeamsFollow(cursor: DateTime, chunkMonths: nat, t: Instant)
    requires Proper(cursor) && chunkMonths >= 1 && Proper(AddMonths(cursor, chunkMonths))
    ensures var next := AddMonths(cursor, chunkMonths);
            if t < Moment(next) then InSeam(cursor, chunkMonths, t) <==> t > Moment(next) - MILLI
            else InSeam(cursor, chunkMonths, t) <==> InSeam(next, chunkMonths, t)
  {
    hide Moment, AddMonths, DaysInMonth;
    var next := AddMonths(cursor, chunkMonths);
    assert CursorAt(cursor, chunkMonths, 1) == CursorAt(next, chunkMonths, 0) == next;
    if InSeam(cursor, chunkMonths, t) {
      var k: nat :| k >= 1
        && Moment(CursorAt(cursor, chunkMonths, k)) - MILLI < t < Moment(CursorAt(cursor, chunkMonths, k));
      assert CursorAt(cursor, chunkMonths, k) == CursorAt(next, chunkMonths, k - 1);
      CursorsAscend(next, chunkMonths, k - 1);
    }
    if InSeam(next, chunkMonths, t) {
      var k: nat :| k >= 1
        && Moment(CursorAt(next, chunkMonths, k)) - MILLI < t < Moment(CursorAt(next, chunkMonths, k));
      assert CursorAt(cursor, chunkMonths, k + 1) == CursorAt(next, chunkMonths, k);
      CursorsAscend(next, chunkMonths, k);
    }
  }

  /**
   * No instant is covered twice, and an instant of the range is covered exactly when it is not strictly inside the last
   * millisecond before a window starts.
   */
  lemma {:induction false} MonthWindowsCover(cursor: DateTime, end: Instant, chunkMonths: nat, t: Instant)
    requires Proper(cursor) && chunkMonths >= 1
    ensures Covering(MonthWindows(cursor, end, chunkMonths), t) ==
            if Moment(cursor) <= t <= end && !InSeam(cursor, chunkMonths, t) then 1 else 0
    decreases end - Moment(cursor) + 1
  {
    hide Moment, AddMonths, DaysInMonth, InSeam;
    if t < Moment(cursor) || t > end {
      MonthWindowsStart(cursor, end, chunkMonths, t);
    } else {
      AddMonthsMovesForward(cursor, chunkMonths);
      var next := AddMonths(cursor, chunkMonths);
      SeamsFollow(cursor, chunkMonths, t);
      assert MonthWindows(cursor, end, chunkMonths)[1..] == MonthWindows(next, end, chunkMonths);
      if t < Moment(next) {
        MonthWindowsStart(next, end, chunkMonths, t);
      } else {
        MonthWindowsCover(next, end, chunkMonths, t);
      }
    }
  }

  lemma WholeDaysAreWholeMillis(x: int)
    requires x % MICROS_PER_DAY == 0
    ensures x % MILLI == 0
  {
    var d := x / MICROS_PER_DAY;
    assert x == MICROS_PER_DAY * d;
    assert x == MILLI * (86_400_000 * d);
  }

  // ----- A list of gaps -----

  datatype Gap = Gap(start: DateTime, end: Instant)

  predicate ProperGaps(gaps: seq<Gap>) {
    forall k :: 0 <= k < |gaps| ==> Proper(gaps[k].start)
  }

  function ChunkedGaps(gaps: seq<Gap>, chunkMonths: nat): seq<Window>
    requires ProperGaps(gaps) && chunkMonths >= 1
  {
    if gaps == [] then []
    else
      ChunkedGaps(gaps[..|gaps| - 1], chunkMonths) +
      MonthWindows(gaps[|gaps| - 1].start, gaps[|gaps| - 1].end, chunkMonths)
  }

  /** How many gaps contain t. */
  function Lacking(gaps: seq<Gap>, t: Instant): nat
    requires ProperGaps(gaps)
  {
    if gaps == [] then 0
    else
      var g := gaps[|gaps| - 1];
      Lacking(gaps[..|gaps| - 1], t) + if Moment(g.start) <= t <= g.end then 1 else 0
  }

  method BuildIncrementalWindows(gaps: seq<Gap>, chunkMonths: nat) returns (windows: seq<Window>)
    requires ProperGaps(gaps) && chunkMonths >= 1
    ensures windows == ChunkedGaps(gaps, chunkMonths)
  {
    windows := [];
    var k := 0;
    while k < |gaps|
      invariant 0 <= k <= |gaps| && windows == ChunkedGaps(gaps[..k], chunkMonths)
    {
      var chunk := BuildMonthWindows(gaps[k].start, gaps[k].end, chunkMonths);
      windows := windows + chunk;
      assert gaps[..k + 1][..k] == gaps[..k];
      k := k + 1;
    }
    assert gaps[..k] == gaps;
  }

  lemma {:induction false} CoveringConcat(a: seq<Window>, b: seq<Window>, t: Instant)
    ensures Covering(a + b, t) == Covering(a, t) + Covering(b, t)
  {
    if a == [] {
      assert a + b == b;
    } else {
      assert (a + b)[1..] == a[1..] + b;
      CoveringConcat(a[1..], b, t);
    }
  }

  /** Chunking fetches each whole millisecond as often as it lies in a gap: all of every gap, and nothing outside. */
  lemma {:induction false} ChunksCoverGapsExactly(gaps: seq<Gap>, chunkMonths: nat, t: Instant)
    requires ProperGaps(gaps) && chunkMonths >= 1
    requires forall k :: 0 <= k < |gaps| ==> (t - Moment(gaps[k].start)) % MILLI == 0
    ensures Covering(ChunkedGaps(gaps, chunkMonths), t) == Lacking(gaps, t)
  {
    if gaps != [] {
      hide Moment, MonthWindows, Covering, DaysInMonth;
      var init, last := gaps[..|gaps| - 1], gaps[|gaps| - 1];
      ChunksCoverGapsExactly(init, chunkMonths, t);
      MonthWindowsTile(last.start, last.end, chunkMonths, t);
      CoveringConcat(ChunkedGaps(init, chunkMonths), MonthWindows(last.start, last.end, chunkMonths), t);
    }
  }
}
