/** A period's drawdown against the drawdown of the run. */
module PeriodDrawdown {
  import opened Sequences
  import opened Calendar
  import opened Performance
  import opened Periods

  /** From a lower peak the same equity is a smaller fall, but only while the equity is not negative. */
  lemma LowerPeakIsShallowerIff(low: real, high: real, equity: real)
    requires 0.0 < low <= high
    ensures DrawdownFrom(low, equity) <= DrawdownFrom(high, equity) <==> equity >= 0.0 || low == high
  {
    var p, q := (low - equity) / low, (high - equity) / high;
    assert p * low == low - equity && q * high == high - equity;
    var d := q - p;
    assert d * low * high == equity * (high - low) by {
      assert q * high * low == (high - equity) * low;
      assert p * low * high == (low - equity) * high;
    }
    var area := low * high;
    assert area > 0.0 && d * area == equity * (high - low);
    assert equity >= 0.0 ==> equity * (high - low) >= 0.0;
    if d >= 0.0 {
      assert d * area >= 0.0;
      if equity < 0.0 && low < high { NegativeProduct(equity, high - low); }
    } else {
      NegativeProduct(d, area);
    }
  }

  lemma NegativeProduct(x: real, y: real)
    requires x < 0.0 < y
    ensures x * y < 0.0
  {
  }

  /** Beginning later, from no more than the peak so far, gives no higher peak and no deeper fall. */
  lemma {:induction false} LaterStartIsShallower(initial: real, before: seq<real>, start: real, chunk: seq<real>)
    requires start <= PeakOf(initial, before)
    requires forall k :: 0 <= k < |chunk| ==> chunk[k] >= 0.0
    ensures PeakOf(start, chunk) <= PeakOf(initial, before + chunk)
    ensures 0.0 <= DeepestDrawdown(start, chunk) <= DeepestDrawdown(initial, before + chunk)
  {
    hide DrawdownFrom, PeakOf, DeepestDrawdown;
    if chunk == [] {
      assert before + chunk == before;
      NothingFalls(start);
      DeepestIsNatural(initial, before);
    } else {
      var init, e := chunk[..|chunk| - 1], chunk[|chunk| - 1];
      LaterStartIsShallower(initial, before, start, init);
      assert chunk == init + [e] && before + chunk == before + init + [e];
      OneMoreEquity(start, init, e);
      OneMoreEquity(initial, before + init, e);
      FallIsShallower(PeakOf(start, chunk), PeakOf(initial, before + chunk), e);
    }
  }

  lemma NothingFalls(start: real)
    ensures PeakOf(start, []) == start && DeepestDrawdown(start, []) == 0.0
  {
  }

  lemma FallIsShallower(low: real, high: real, equity: real)
    requires 0.0 <= equity <= low <= high
    ensures 0.0 <= DrawdownFrom(low, equity) <= DrawdownFrom(high, equity)
  {
    DrawdownIsNonNegative(low, equity);
    DrawdownIsNonNegative(high, equity);
    hide DrawdownFrom;
    if low > 0.0 {
      LowerPeakIsShallowerIff(low, high, equity);
    } else {
      FlatPeak(low, equity);
    }
  }

  lemma FlatPeak(peak: real, equity: real)
    requires peak <= 0.0
    ensures DrawdownFrom(peak, equity) == 0.0
  {
  }

  lemma {:induction false} DeepestGrows(initial: real, before: seq<real>, rest: seq<real>)
    ensures DeepestDrawdown(initial, before) <= DeepestDrawdown(initial, before + rest)
  {
    hide DrawdownFrom;
    if rest == [] {
      assert before + rest == before;
    } else {
      DeepestGrows(initial, before, rest[..|rest| - 1]);
      assert before + rest == before + rest[..|rest| - 1] + [rest[|rest| - 1]];
      OneMoreEquity(initial, before + rest[..|rest| - 1], rest[|rest| - 1]);
    }
  }

  lemma {:induction false} EquitiesConcat(a: seq<Sample>, b: seq<Sample>)
    ensures Equities(a + b) == Equities(a) + Equities(b)
  {
    if b == [] {
      assert a + b == a;
    } else {
      EquitiesConcat(a, b[..|b| - 1]);
      assert (a + b)[..|a + b| - 1] == a + b[..|b| - 1];
    }
  }

  lemma {:induction false} EquitiesAt(points: seq<Sample>)
    ensures |Equities(points)| == |points| && forall k :: 0 <= k < |points| ==> Equities(points)[k] == points[k].equity
  {
    if points != [] { EquitiesAt(points[..|points| - 1]); }
  }

  lemma {:induction false} ConcatSplits<T>(chunks: seq<seq<T>>, k: nat) returns (rest: seq<T>)
    requires k < |chunks|
    ensures Concat(chunks) == Concat(chunks[..k]) + chunks[k] + rest
  {
    if k == |chunks| - 1 {
      rest := [];
    } else {
      var init := chunks[..|chunks| - 1];
      var earlier := ConcatSplits(init, k);
      assert init[..k] == chunks[..k];
      rest := earlier + chunks[|chunks| - 1];
    }
  }

  lemma {:induction false} PeakCoversLast(initial: real, equities: seq<real>)
    requires equities != []
    ensures equities[|equities| - 1] <= PeakOf(initial, equities)
  {
  }

  /** A period starts from no more than the highest equity so far. */
  lemma StartIsBelowPeak(chunks: seq<seq<Sample>>, k: nat, initialCash: real)
    requires k < |chunks| && forall i :: 0 <= i < |chunks| ==> chunks[i] != []
    ensures StartOf(chunks, k, initialCash) <= PeakOf(initialCash, Equities(Concat(chunks[..k])))
  {
    var earlier := Concat(chunks[..k]);
    if k > 0 {
      assert chunks[..k][..k - 1] == chunks[..k - 1];
      EquitiesAt(earlier);
      PeakCoversLast(initialCash, Equities(earlier));
    }
  }

  /** If equity never turns negative, no period falls deeper than the run as a whole. */
  lemma PeriodsFallNoDeeper(
    period: PeriodType, points: seq<Sample>, fills: seq<FillRecord>, signals: seq<SignalRecord>, initialCash: real,
    k: nat)
    requires k < |Breakdown(period, points, fills, signals, initialCash)|
    requires forall p :: p in points ==> p.equity >= 0.0
    ensures 0.0 <= Breakdown(period, points, fills, signals, initialCash)[k].maxDrawdown
            <= DeepestDrawdown(initialCash, Equities(points))
  {
    var chunks := Chunks(points, period);
    ChunksPartition(points, period);
    var rest := ConcatSplits(chunks, k);
    var earlier, chunk := Concat(chunks[..k]), chunks[k];
    StartIsBelowPeak(chunks, k, initialCash);
    EquitiesConcat(earlier, chunk);
    EquitiesConcat(earlier + chunk, rest);
    EquitiesAt(chunk);
    assert forall j :: 0 <= j < |chunk| ==> chunk[j] in points;
    hide Chunks, Equities, DeepestDrawdown, PeakOf, Concat, InBucket;
    LaterStartIsShallower(initialCash, Equities(earlier), StartOf(chunks, k, initialCash), Equities(chunk));
    DeepestGrows(initialCash, Equities(earlier + chunk), Equities(rest));
  }

  /** A peak of 200, a period that ends at 50, and a fall below zero in the next one. */
  function ThreeSamples(a: DateTime, b: DateTime, c: DateTime): seq<Sample> {
    [Sample(a, 200.0), Sample(b, 50.0), Sample(c, -100.0)]
  }

  lemma TwoThenOne(p: Sample, q: Sample, r: Sample, period: PeriodType)
    requires BucketOf(p.ts, period) == BucketOf(q.ts, period) != BucketOf(r.ts, period)
    ensures Chunks([p, q, r], period) == [[p, q], [r]]
  {
    hide BucketOf, Chunks;
    var points := [p, q, r];
    assert points[..0] == [] && points[..1] == [p] && points[..2] == [p, q] && points[..3] == points;
    NoChunks(period);
    ChunksStep(points, 0, period);
    assert Chunks([p], period) == [[p]];
    ChunksStep(points, 1, period);
    assert [[p]][..0] == [] && [p] + [q] == [p, q];
    assert Chunks([p, q], period) == [[p, q]];
    ChunksStep(points, 2, period);
  }

  lemma ThreeSamplesFall(a: DateTime, b: DateTime, c: DateTime)
    ensures Equities(ThreeSamples(a, b, c)) == [200.0, 50.0, -100.0] && Equities([Sample(c, -100.0)]) == [-100.0]
    ensures DeepestDrawdown(50.0, [-100.0]) == 3.0 && DeepestDrawdown(100.0, [200.0, 50.0, -100.0]) == 1.5
  {
    EquitiesAt(ThreeSamples(a, b, c));
    EquitiesAt([Sample(c, -100.0)]);
    OneMoreEquity(50.0, [], -100.0);
    OneMoreEquity(100.0, [], 200.0);
    OneMoreEquity(100.0, [200.0], 50.0);
    OneMoreEquity(100.0, [200.0, 50.0], -100.0);
    assert [] + [-100.0] == [-100.0] && [] + [200.0] == [200.0];
    assert [200.0] + [50.0] == [200.0, 50.0] && [200.0, 50.0] + [-100.0] == [200.0, 50.0, -100.0];
  }

  /** Below zero the claim fails: the second period falls by three times its start, the run only by one and a half. */
  lemma NegativeEquityFallsDeeper(
    a: DateTime, b: DateTime, c: DateTime, period: PeriodType, fills: seq<FillRecord>, signals: seq<SignalRecord>)
    requires BucketOf(a, period) == BucketOf(b, period) != BucketOf(c, period)
    ensures var points := ThreeSamples(a, b, c);
            var entries := Breakdown(period, points, fills, signals, 100.0);
            && |entries| == 2 && entries[1].maxDrawdown == 3.0
            && DeepestDrawdown(100.0, Equities(points)) == 1.5
  {
    hide BucketOf, Chunks, DeepestDrawdown, Equities, InBucket;
    TwoThenOne(Sample(a, 200.0), Sample(b, 50.0), Sample(c, -100.0), period);
    ThreeSamplesFall(a, b, c);
  }
}
