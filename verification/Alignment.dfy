/** Rounding instants to interval boundaries, as the quality checks and as the backfill planner do it. */
module Alignment {
  import opened Market
  import opened Calendar
  import opened Gaps

  /** `replace(microsecond=0)`: the field is never negative, so this rounds down even before 1970. */
  function DropMicros(t: Instant): Instant {
    t - t % SECOND
  }

  function CeilTo(t: Instant, interval: int): Instant
    requires interval > 0
  {
    var remainder := t % interval;
    DropMicros(if remainder == 0 then t else t + (interval - remainder))
  }

  function FloorTo(t: Instant, interval: int): Instant
    requires interval > 0
  {
    DropMicros(t - t % interval)
  }

  function AlignBarWindow(start: Instant, end: Instant): (Instant, Instant) {
    var aligned := start - start % MINUTE;
    (if aligned < start then aligned + MINUTE else aligned, end - end % MINUTE)
  }

  predicate OnBoundary(t: Instant, interval: int)
    requires interval > 0
  {
    t % SECOND == 0 && FloorTo(t, interval) == t
  }

  predicate IsFloor(t: Instant, interval: int, r: Instant)
    requires interval > 0
  {
    r % interval == 0 && r <= t < r + interval
  }

  predicate IsCeil(t: Instant, interval: int, r: Instant)
    requires interval > 0
  {
    r % interval == 0 && r - interval < t <= r
  }

  predicate Whole(interval: int) {
    interval > 0 && interval % SECOND == 0
  }

  lemma Multiple(x: int, n: int, q: int)
    requires n > 0 && x == n * q
    ensures x % n == 0 && x / n == q
  {
    QuotientIs(x, n, q, 0);
  }

  lemma MultipleOfWhole(x: int, interval: int)
    requires Whole(interval) && x % interval == 0
    ensures x % SECOND == 0 && DropMicros(x) == x
  {
    var c, q := interval / SECOND, x / interval;
    assert interval == SECOND * c;
    assert x == interval * q;
    assert x == SECOND * (c * q) by { Regroup(c, q); }
    Multiple(x, SECOND, c * q);
  }

  lemma Regroup(c: int, q: int)
    ensures SECOND * c * q == SECOND * (c * q)
  {
  }

  lemma FloorIsFloor(t: Instant, interval: int)
    requires Whole(interval)
    ensures IsFloor(t, interval, FloorTo(t, interval))
  {
    var q := t / interval;
    assert t - t % interval == interval * q;
    Multiple(t - t % interval, interval, q);
    MultipleOfWhole(t - t % interval, interval);
  }

  lemma CeilIsCeil(t: Instant, interval: int)
    requires Whole(interval)
    ensures IsCeil(t, interval, CeilTo(t, interval))
  {
    var q, r := t / interval, t % interval;
    assert t == interval * q + r;
    if r == 0 {
      MultipleOfWhole(t, interval);
    } else {
      assert t + (interval - r) == interval * (q + 1);
      Multiple(t + (interval - r), interval, q + 1);
      MultipleOfWhole(t + (interval - r), interval);
    }
  }

  /** Dropping the microseconds is harmless exactly when the interval is a whole number of seconds. */
  lemma RoundingIsExactIff(interval: int)
    requires interval > 0
    ensures (forall t: Instant :: IsFloor(t, interval, FloorTo(t, interval))) <==> interval % SECOND == 0
    ensures (forall t: Instant :: IsCeil(t, interval, CeilTo(t, interval))) <==> interval % SECOND == 0
  {
    if interval % SECOND == 0 {
      forall t: Instant ensures IsFloor(t, interval, FloorTo(t, interval)) && IsCeil(t, interval, CeilTo(t, interval)) {
        FloorIsFloor(t, interval);
        CeilIsCeil(t, interval);
      }
    } else {
      Multiple(interval, interval, 1);
      assert FloorTo(interval, interval) == DropMicros(interval) == CeilTo(interval, interval);
      assert 0 < interval % SECOND && DropMicros(interval) < interval;
      assert DropMicros(interval) >= 0;
      if DropMicros(interval) > 0 {
        QuotientIs(DropMicros(interval), interval, 0, DropMicros(interval));
      }
      assert !IsFloor(interval, interval, FloorTo(interval, interval));
      assert !IsCeil(interval, interval, CeilTo(interval, interval));
    }
  }

  lemma BoundaryIsMultiple(t: Instant, interval: int)
    requires Whole(interval)
    ensures OnBoundary(t, interval) <==> t % interval == 0
  {
    FloorIsFloor(t, interval);
    if t % interval == 0 {
      MultipleOfWhole(t, interval);
    }
  }

  /** Aligning a bar window is rounding inwards to whole minutes. */
  lemma BarWindowRoundsInwards(start: Instant, end: Instant)
    ensures IsCeil(start, MINUTE, AlignBarWindow(start, end).0) && IsFloor(end, MINUTE, AlignBarWindow(start, end).1)
    ensures AlignBarWindow(start, end) == (CeilTo(start, MINUTE), FloorTo(end, MINUTE))
  {
    CeilIsCeil(start, MINUTE);
    FloorIsFloor(end, MINUTE);
  }

  lemma DifferenceOfMultiples(a: int, b: int, n: int)
    requires n > 0 && b % n == 0
    ensures (a - b) % n == 0 <==> a % n == 0
  {
    var p, q := a / n, b / n;
    assert a == n * p + a % n && b == n * q;
    assert a - b == n * (p - q) + a % n;
    QuotientIs(a - b, n, p - q, a % n);
  }

  /** The grid of a window aligned inwards is every interval boundary that the window itself contains. */
  lemma GridIsEveryBoundary(start: Instant, end: Instant, interval: int, t: Instant)
    requires Whole(interval)
    ensures OnGrid(Grid(CeilTo(start, interval), FloorTo(end, interval), interval), t) <==>
            start <= t <= end && t % interval == 0
  {
    var a, b := CeilTo(start, interval), FloorTo(end, interval);
    CeilIsCeil(start, interval);
    FloorIsFloor(end, interval);
    hide CeilTo, FloorTo;
    DifferenceOfMultiples(t, a, interval);
    if t % interval == 0 {
      Apart(t, a, interval);
      Apart(b, t, interval);
    }
  }

  /** Distinct multiples are at least one interval apart. */
  lemma Apart(x: int, y: int, n: int)
    requires n > 0 && x % n == 0 && y % n == 0
    ensures x < y ==> x + n <= y
  {
    var p, q := x / n, y / n;
    assert x == n * p && y == n * q;
    if p < q { Spread(n, p, q); }
    if q < p { Spread(n, q, p); }
  }

  // ----- The backfill planner's own rounding -----

  /** `int(timestamp())` drops the fraction towards zero. */
  function EpochSeconds(t: Instant): int {
    Truncated(t, SECOND)
  }

  function BackfillFloor(t: Instant, seconds: int): Instant
    requires seconds > 0
  {
    (EpochSeconds(t) - EpochSeconds(t) % seconds) * SECOND
  }

  function BackfillCeil(t: Instant, seconds: int): Instant
    requires seconds > 0
  {
    var floored := BackfillFloor(t, seconds);
    if floored >= DropMicros(t) then floored else floored + seconds * SECOND
  }

  lemma SecondsRound(t: Instant)
    ensures DropMicros(t) == t / SECOND * SECOND
    ensures EpochSeconds(t) == t / SECOND + if t % SECOND == 0 || t >= 0 then 0 else 1
  {
  }

  /** r seconds is a multiple of the interval exactly when r is. */
  lemma WholeSecondMultiples(r: int, seconds: int)
    requires seconds > 0
    ensures (r * SECOND) % (seconds * SECOND) == 0 <==> r % seconds == 0
  {
    var q := r / seconds;
    assert r == seconds * q + r % seconds;
    assert r * SECOND == (seconds * SECOND) * q + (r % seconds) * SECOND by { Spelled(seconds, q, r % seconds); }
    QuotientIs(r * SECOND, seconds * SECOND, q, (r % seconds) * SECOND);
  }

  lemma Spelled(a: int, q: int, b: int)
    ensures (a * q + b) * SECOND == (a * SECOND) * q + b * SECOND
  {
  }

  /**
   * The planner's ceiling falls below its argument exactly when the argument is a fraction of a second past a
   * boundary, save for one-second intervals before 1970; everywhere else it is the ceiling.
   */
  lemma BackfillCeilIsCeilIff(t: Instant, seconds: int)
    requires seconds > 0
    ensures IsCeil(t, seconds * SECOND, BackfillCeil(t, seconds)) <==>
            t % SECOND == 0 || (t / SECOND) % seconds != 0 || (t < 0 && seconds == 1)
  {
    var s, e := t / SECOND, EpochSeconds(t);
    SecondsRound(t);
    hide DropMicros, EpochSeconds;
    var f := e - e % seconds;
    assert BackfillFloor(t, seconds) == f * SECOND;
    assert f % seconds == 0 && (f + seconds) % seconds == 0 by {
      Multiple(f, seconds, e / seconds);
      Multiple(f + seconds, seconds, e / seconds + 1);
    }
    WholeSecondMultiples(f, seconds);
    WholeSecondMultiples(f + seconds, seconds);
    assert t == s * SECOND + t % SECOND;
    if e == s + 1 && seconds > 1 {
      NextQuotientRemainder(s, seconds);
    }
  }

  lemma NextQuotientRemainder(s: int, n: int)
    requires n > 1
    ensures (s + 1) % n == if s % n == n - 1 then 0 else s % n + 1
  {
    var q, r := s / n, s % n;
    assert s == n * q + r;
    if r == n - 1 {
      QuotientIs(s + 1, n, q + 1, 0);
    } else {
      QuotientIs(s + 1, n, q, r + 1);
    }
  }
}
