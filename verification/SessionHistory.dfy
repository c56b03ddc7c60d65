/** The guard's cached session values against their definitions over everything observed so far. */
module SessionHistory {
  import opened Wrappers
  import opened Market
  import opened Risk

  /** One refresh of the session: the time of a bar and the equity at its close. */
  datatype Observation = Observation(time: Instant, equity: real)

  predicate Ascending(h: seq<Observation>) {
    forall a, b :: 0 <= a <= b < |h| ==> h[a].time <= h[b].time
  }

  /** The equity first seen on the day of the latest observation. */
  function FirstOfDay(h: seq<Observation>, offset: int): real
    requires h != []
  {
    FirstOn(h, offset, LocalDay(offset, h[|h| - 1].time))
  }

  function FirstOn(h: seq<Observation>, offset: int, day: int): real
    requires h != []
  {
    if |h| == 1 || LocalDay(offset, h[0].time) == day then h[0].equity else FirstOn(h[1..], offset, day)
  }

  predicate IsMaximum(x: real, h: seq<Observation>) {
    && (forall k :: 0 <= k < |h| ==> h[k].equity <= x)
    && exists k :: 0 <= k < |h| && h[k].equity == x
  }

  /** The cached values are the naive ones: local date of the last bar, first equity of that date, maximum, and last. */
  ghost predicate Naive(s: Session, h: seq<Observation>, offset: int) {
    h != [] ==>
      var last := h[|h| - 1];
      && s.tradingDay == Some(LocalDay(offset, last.time))
      && s.dailyStartEquity == Some(FirstOfDay(h, offset))
      && s.peakEquity.Some? && IsMaximum(s.peakEquity.value, h)
      && s.lastEquity == Some(last.equity)
  }

  /** Between observations only the cooldown and the activation count may change. */
  predicate SameClock(s: Session, t: Session) {
    t == s.(cooldown := t.cooldown, activations := t.activations)
  }

  ghost predicate Tracks(s: Session, h: seq<Observation>, offset: int) {
    if h == [] then SameClock(FRESH, s)
    else Naive(s, h, offset) && s.nextBoundary == DayEnd(offset, h[|h| - 1].time)
  }

  lemma {:induction false} FirstOnExtends(h: seq<Observation>, o: Observation, offset: int, day: int)
    requires h != [] && LocalDay(offset, h[|h| - 1].time) == day
    ensures FirstOn(h + [o], offset, day) == FirstOn(h, offset, day)
  {
    if |h| > 1 && LocalDay(offset, h[0].time) != day {
      assert (h + [o])[1..] == h[1..] + [o];
      FirstOnExtends(h[1..], o, offset, day);
    }
  }

  lemma {:induction false} FirstOnNew(h: seq<Observation>, o: Observation, offset: int)
    requires forall k :: 0 <= k < |h| ==> LocalDay(offset, h[k].time) != LocalDay(offset, o.time)
    ensures FirstOn(h + [o], offset, LocalDay(offset, o.time)) == o.equity
  {
    if h == [] {
      assert h + [o] == [o];
    } else {
      assert (h + [o])[1..] == h[1..] + [o];
      FirstOnNew(h[1..], o, offset);
    }
  }

  /** A local day runs from one local midnight to the next, and the cached boundary is the one at its end. */
  lemma LocalDayIsBetweenMidnights(offset: int, t: Instant)
    ensures LocalDay(offset, t) * MICROS_PER_DAY <= t + offset < (LocalDay(offset, t) + 1) * MICROS_PER_DAY
    ensures (DayEnd(offset, t) + offset) % MICROS_PER_DAY == 0
    ensures DayEnd(offset, t) - MICROS_PER_DAY <= t < DayEnd(offset, t)
  {
  }

  /** A time at or after t is still on t's local day exactly when it is before the end of that day. */
  lemma DayEndSeparates(offset: int, t: Instant, u: Instant)
    requires t <= u
    ensures u < DayEnd(offset, t) <==> LocalDay(offset, u) == LocalDay(offset, t)
    ensures LocalDay(offset, t) <= LocalDay(offset, u)
  {
  }

  /** One refresh keeps the cache right, whatever happened to the cooldown in between. */
  lemma RefreshTracks(s: Session, offset: int, h: seq<Observation>, o: Observation)
    requires Ascending(h + [o]) && Tracks(s, h, offset)
    requires h == [] ==> o.time >= 0
    ensures Tracks(Refreshed(s, offset, o.time, o.equity), h + [o], offset)
  {
    hide LocalDay, DayEnd;
    var after, all := Refreshed(s, offset, o.time, o.equity), h + [o];
    if h == [] {
      assert all[0] == o;
      FirstOnNew(h, o, offset);
    } else {
      var last := h[|h| - 1];
      assert all[|h| - 1] == last && all[|h|] == o;
      DayEndSeparates(offset, last.time, o.time);
      if o.time < s.nextBoundary {
        FirstOnExtends(h, o, offset, LocalDay(offset, o.time));
        SameDayEnd(offset, last.time, o.time);
      } else {
        forall k | 0 <= k < |h| ensures LocalDay(offset, h[k].time) != LocalDay(offset, o.time) {
          assert all[k] == h[k];
          DayEndSeparates(offset, h[k].time, last.time);
        }
        FirstOnNew(h, o, offset);
      }
      PeakExtends(s.peakEquity.value, h, o);
    }
  }

  lemma SameDayEnd(offset: int, t: Instant, u: Instant)
    requires LocalDay(offset, t) == LocalDay(offset, u)
    ensures DayEnd(offset, t) == DayEnd(offset, u)
  {
  }

  lemma PeakExtends(peak: real, h: seq<Observation>, o: Observation)
    requires IsMaximum(peak, h)
    ensures IsMaximum(Max(peak, o.equity), h + [o])
  {
    var k :| 0 <= k < |h| && h[k].equity == peak;
    var all := h + [o];
    assert all[k] == h[k] && all[|h|] == o;
  }

  /** Refreshing a fresh session over a history. */
  function Replay(h: seq<Observation>, offset: int): Session {
    if h == [] then FRESH
    else Refreshed(Replay(h[..|h| - 1], offset), offset, h[|h| - 1].time, h[|h| - 1].equity)
  }

  lemma {:induction false} ReplayTracks(h: seq<Observation>, offset: int)
    requires Ascending(h) && (h != [] ==> h[0].time >= 0)
    ensures Tracks(Replay(h, offset), h, offset)
  {
    hide Refreshed, Tracks;
    if h == [] {
      FreshTracksNothing(offset);
    } else {
      var init, last := h[..|h| - 1], h[|h| - 1];
      assert h == init + [last];
      ReplayTracks(init, offset);
      RefreshTracks(Replay(init, offset), offset, init, last);
    }
  }

  lemma FreshTracksNothing(offset: int)
    ensures Tracks(FRESH, [], offset)
  {
  }

  /**
   * The cached boundary starts at the epoch. Over ascending times the cache is right after every observation exactly
   * when the first one is not before 1970.
   */
  lemma CacheIsRightIffNotBeforeEpoch(h: seq<Observation>, offset: int)
    requires Ascending(h) && h != []
    ensures (forall n :: 0 < n <= |h| ==> Naive(Replay(h[..n], offset), h[..n], offset)) <==> h[0].time >= 0
  {
    hide Refreshed;
    if h[0].time >= 0 {
      forall n | 0 < n <= |h| ensures Naive(Replay(h[..n], offset), h[..n], offset) {
        assert h[..n][0] == h[0];
        ReplayTracks(h[..n], offset);
      }
    } else {
      BeforeEpochHasNoDay(h[0], offset);
      assert h[..1] == [h[0]];
      assert !Naive(Replay(h[..1], offset), h[..1], offset);
    }
  }

  /** Before 1970 the boundary is never reached: the session keeps no trading day and no daily start equity. */
  lemma BeforeEpochHasNoDay(o: Observation, offset: int)
    requires o.time < 0
    ensures Replay([o], offset).tradingDay == None
  {
    assert [o][..0] == [];
    assert Replay([o][..0], offset) == FRESH;
  }
}
