/** The debug trace of a run: what it keeps of every step. */
module RunTraces {
  import opened Market
  import opened Calendar
  import opened RunSpec
  import opened RunLaws
  import opened Traces
  import opened Runner

  /** Nothing was filled or ordered, nothing signalled, and nothing blocked. */
  predicate Uneventful(r: StepRecord) {
    r.fills == [] && r.created == [] && r.signals == 0 && forall o :: o in r.outcomes ==> !o.ruling.Block?
  }

  lemma ActivityIsEventful(r: StepRecord)
    ensures IsActivity(r) <==> !Uneventful(r)
  {
  }

  /** The record of the step with the given index, whether or not it is captured. */
  function RecordOf(r: StepRecord, index: nat): Record {
    Record(index, r.bar.time, r.bar.symbol, r.bar.close, !Uneventful(r))
  }

  predicate Makes(n: nat, m: nat, index: nat) {
    n * m == index
  }

  /** Eventful steps are due for the trace, and of the others every stride-th, unless only activity is wanted. */
  predicate IsDue(c: TraceConfig, r: StepRecord, index: nat) {
    !Uneventful(r) || (!c.activityOnly && exists m :: 0 <= m <= index && Makes(Stride(c), m, index))
  }

  lemma DueIsCaptured(c: TraceConfig, r: StepRecord, index: nat)
    ensures ShouldCapture(c, index, IsActivity(r)) <==> IsDue(c, r, index)
  {
    ActivityIsEventful(r);
    EveryStrideth(Stride(c), index);
    hide Uneventful, IsActivity, Makes;
  }

  lemma EveryStrideth(n: nat, index: nat)
    requires n > 0
    ensures index % n == 0 <==> exists m :: 0 <= m <= index && Makes(n, m, index)
  {
    if index % n == 0 { QuotientMakes(n, index); }
    hide Makes;
    forall m | 0 <= m <= index && Makes(n, m, index) ensures index % n == 0 {
      MadeIsMultiple(n, m, index);
    }
  }

  lemma QuotientMakes(n: nat, index: nat)
    requires n > 0 && index % n == 0
    ensures 0 <= index / n <= index && Makes(n, index / n, index)
  {
    var m := index / n;
    assert index == n * m;
    AtLeastOnce(n, m);
  }

  lemma AtLeastOnce(n: nat, m: nat)
    requires n > 0
    ensures m <= n * m
  {
    assert n * m - m == (n - 1) * m;
  }

  lemma MadeIsMultiple(n: nat, m: nat, index: nat)
    requires n > 0 && Makes(n, m, index)
    ensures index % n == 0
  {
    QuotientIs(index, n, m, 0);
  }

  lemma EveryStepIsDue(c: TraceConfig, r: StepRecord, index: nat)
    requires Stride(c) == 1 && !c.activityOnly
    ensures IsDue(c, r, index)
  {
    assert Makes(1, index, index);
  }

  lemma ItemsGrow(c: TraceConfig, steps: seq<StepRecord>)
    ensures IndexesGrow(TraceItems(c, steps))
    ensures forall k :: 0 <= k < |steps| ==>
              TraceItems(c, steps)[k] ==
                (if IsDue(c, steps[k], k + 1) then Captured(RecordOf(steps[k], k + 1)) else Skipped)
  {
    hide ShouldCapture, IsActivity, Uneventful, IsDue;
    forall k | 0 <= k < |steps|
      ensures TraceItems(c, steps)[k] ==
              (if IsDue(c, steps[k], k + 1) then Captured(RecordOf(steps[k], k + 1)) else Skipped)
    {
      DueIsCaptured(c, steps[k], k + 1);
      ActivityIsEventful(steps[k]);
    }
  }

  lemma {:induction false} UncompressedKeeps(items: seq<Item>)
    requires IndexesGrow(items)
    ensures Strict(Uncompressed(items))
    ensures forall r :: r in Uncompressed(items) <==> InStream(r, items)
  {
    if items != [] {
      var init, last := items[..|items| - 1], items[|items| - 1];
      UncompressedKeeps(init);
      forall r ensures InStream(r, items) <==> InStream(r, init) || last == Captured(r) {
        if InStream(r, init) {
          var k :| 0 <= k < |init| && init[k] == Captured(r);
          assert items[k] == Captured(r);
        }
      }
      forall k | 0 <= k < |Uncompressed(init)| && last.Captured?
        ensures Uncompressed(init)[k].index < last.record.index
      {
        assert Uncompressed(init)[k] in Uncompressed(init);
        var j :| 0 <= j < |init| && init[j] == Captured(Uncompressed(init)[k]);
        assert items[j] == init[j];
      }
    }
  }

  /** Compressed or not, a trace is strictly increasing, made of steps that are due, and keeps every eventful one. */
  lemma TraceKeepsActivity(c: TraceConfig, steps: seq<StepRecord>)
    ensures var trace := Trace(c, steps);
            && Strict(trace)
            && (forall x :: x in trace ==>
                  0 < x.index <= |steps| && x == RecordOf(steps[x.index - 1], x.index)
                    && IsDue(c, steps[x.index - 1], x.index))
            && (forall k :: 0 <= k < |steps| && !Uneventful(steps[k]) ==> RecordOf(steps[k], k + 1) in trace)
            && (!c.compress ==>
                  forall k :: 0 <= k < |steps| && IsDue(c, steps[k], k + 1) ==> RecordOf(steps[k], k + 1) in trace)
  {
    hide Compressed, Uncompressed, IsActivity, TraceItems, Uneventful, IsDue;
    var items, trace := TraceItems(c, steps), Trace(c, steps);
    ItemsGrow(c, steps);
    ItemCount(c, steps);
    CompressionKeepsOrderAndActivity(items);
    UncompressedKeeps(items);
    forall x | x in trace
      ensures 0 < x.index <= |steps| && x == RecordOf(steps[x.index - 1], x.index)
              && IsDue(c, steps[x.index - 1], x.index)
    {
      assert InStream(x, items);
      var k :| 0 <= k < |items| && items[k] == Captured(x);
    }
    forall k | 0 <= k < |steps| && IsDue(c, steps[k], k + 1) && (!c.compress || !Uneventful(steps[k]))
      ensures RecordOf(steps[k], k + 1) in trace
    {
      assert items[k] == Captured(RecordOf(steps[k], k + 1));
      assert InStream(RecordOf(steps[k], k + 1), items);
    }
    forall k | 0 <= k < |steps| && !Uneventful(steps[k]) ensures IsDue(c, steps[k], k + 1) {
      EventfulIsDue(c, steps[k], k + 1);
    }
  }

  lemma EventfulIsDue(c: TraceConfig, r: StepRecord, index: nat)
    requires !Uneventful(r)
    ensures IsDue(c, r, index)
  {
    hide Uneventful;
  }

  lemma ItemCount(c: TraceConfig, steps: seq<StepRecord>)
    ensures |TraceItems(c, steps)| == |steps|
  {
  }

  /** A stretch of uneventful steps that cannot be made longer. */
  predicate QuietStretch(steps: seq<StepRecord>, a: nat, b: nat) {
    && a < b <= |steps| && (forall k :: a <= k < b ==> Uneventful(steps[k]))
    && (a > 0 ==> !Uneventful(steps[a - 1])) && (b < |steps| ==> !Uneventful(steps[b]))
  }

  /** The trace holds the record of the step, under the step's number. */
  predicate Represented(trace: seq<Record>, steps: seq<StepRecord>, k: nat)
    requires k < |steps|
  {
    RecordOf(steps[k], k + 1) in trace
  }

  lemma StretchIsMaximal(c: TraceConfig, steps: seq<StepRecord>, a: nat, b: nat)
    requires Stride(c) == 1 && !c.activityOnly && QuietStretch(steps, a, b)
    ensures a < b <= |steps| == |TraceItems(c, steps)| && MaximalQuiet(TraceItems(c, steps), a, b)
    ensures IndexesGrow(TraceItems(c, steps))
    ensures forall k :: 0 <= k < |steps| && TraceItems(c, steps)[k].Captured? ==>
            TraceItems(c, steps)[k].record.index == k + 1
    ensures forall k :: a <= k < b ==> TraceItems(c, steps)[k] == Captured(RecordOf(steps[k], k + 1))
  {
    hide IsActivity, Uneventful, IsDue;
    ItemsGrow(c, steps);
    hide TraceItems;
    ItemCount(c, steps);
    forall k | 0 <= k < |steps| ensures TraceItems(c, steps)[k] == Captured(RecordOf(steps[k], k + 1)) {
      EveryStepIsDue(c, steps[k], k + 1);
    }
  }

  /**
   * At stride 1 the compressed trace holds at most four records of each quiet stretch, among them its first and last
   * step and steps with its highest and its lowest close.
   */
  lemma StretchIsRepresented(
    c: TraceConfig, steps: seq<StepRecord>, a: nat, b: nat)
    returns (high: nat, low: nat, kept: seq<Record>)
    requires c.compress && Stride(c) == 1 && !c.activityOnly && QuietStretch(steps, a, b)
    ensures var trace := Trace(c, steps);
            && a <= high < b && a <= low < b
            && Represented(trace, steps, a) && Represented(trace, steps, b - 1)
            && Represented(trace, steps, high) && Represented(trace, steps, low)
            && (forall k :: a <= k < b ==> steps[low].bar.close <= steps[k].bar.close <= steps[high].bar.close)
            && |kept| <= 4 && forall x :: x in trace && a < x.index <= b ==> x in kept
  {
    hide Compressed, IsActivity, Uneventful, TraceItems, SpanOf, Selected, AllQuiet, QuietStretch, MaximalQuiet,
      IndexesGrow, RecordOf;
    StretchIsMaximal(c, steps, a, b);
    high, low := StretchExtremes(c, steps, a, b);
    kept := Selected(SpanOf(TraceItems(c, steps)[a..b]));
    StretchSpan(TraceItems(c, steps), a, b);
    StretchIsKept(TraceItems(c, steps), a, b);
  }

  /** The steps that the span of a stretch holds. */
  lemma StretchExtremes(c: TraceConfig, steps: seq<StepRecord>, a: nat, b: nat) returns (high: nat, low: nat)
    requires Stride(c) == 1 && !c.activityOnly && QuietStretch(steps, a, b)
    ensures a < b <= |steps| == |TraceItems(c, steps)| && AllQuiet(TraceItems(c, steps)[a..b])
    ensures a <= high < b && a <= low < b
    ensures var s := SpanOf(TraceItems(c, steps)[a..b]);
            && s.first == RecordOf(steps[a], a + 1) && s.last == RecordOf(steps[b - 1], b)
            && s.high == RecordOf(steps[high], high + 1) && s.low == RecordOf(steps[low], low + 1)
    ensures forall k :: a <= k < b ==> steps[low].bar.close <= steps[k].bar.close <= steps[high].bar.close
  {
    hide IsActivity, Uneventful, IsDue, TraceItems, SpanOf, Selected, AllQuiet, QuietStretch, MaximalQuiet, IndexesGrow,
      RecordOf, InStream;
    StretchRecords(c, steps, a, b);
    StretchIsMaximal(c, steps, a, b);
    StretchSpan(TraceItems(c, steps), a, b);
    var run := TraceItems(c, steps)[a..b];
    var s := SpanOf(run);
    var h := PlaceIn(run, s.high);
    var l := PlaceIn(run, s.low);
    high, low := a + h, a + l;
    assert run[0] == Captured(RecordOf(steps[a], a + 1)) && run[b - 1 - a] == Captured(RecordOf(steps[b - 1], b));
    forall k | a <= k < b ensures s.low.close <= steps[k].bar.close <= s.high.close {
      assert run[k - a] == Captured(RecordOf(steps[k], k + 1));
      assert run[k - a].record.close == steps[k].bar.close by { ClosesOf(steps[k], k + 1); }
    }
    ClosesOf(steps[high], high + 1);
    ClosesOf(steps[low], low + 1);
  }

  lemma PlaceIn(run: seq<Item>, r: Record) returns (h: nat)
    requires InStream(r, run)
    ensures h < |run| && run[h] == Captured(r)
  {
    h :| 0 <= h < |run| && run[h] == Captured(r);
  }

  lemma ClosesOf(r: StepRecord, index: nat)
    ensures RecordOf(r, index).close == r.bar.close
  {
  }

  lemma StretchRecords(c: TraceConfig, steps: seq<StepRecord>, a: nat, b: nat)
    requires Stride(c) == 1 && !c.activityOnly && QuietStretch(steps, a, b)
    ensures |TraceItems(c, steps)| == |steps|
    ensures forall j :: 0 <= j < b - a ==> TraceItems(c, steps)[a..b][j] == Captured(RecordOf(steps[a + j], a + j + 1))
  {
    hide IsActivity, Uneventful, IsDue, TraceItems, QuietStretch, MaximalQuiet, IndexesGrow, RecordOf;
    StretchIsMaximal(c, steps, a, b);
  }

  lemma StretchIsKept(items: seq<Item>, a: nat, b: nat)
    requires IndexesGrow(items) && a < b <= |items| && MaximalQuiet(items, a, b)
    requires forall k :: 0 <= k < |items| && items[k].Captured? ==> items[k].record.index == k + 1
    ensures forall x :: x in Selected(SpanOf(items[a..b])) ==> x in Compressed(items)
    ensures forall x :: x in Compressed(items) && a < x.index <= b ==> x in Selected(SpanOf(items[a..b]))
  {
    hide Compressed, Selected, SpanOf, AllQuiet;
    QuietStretchIsSelected(items, a, b);
    OutsideStretch(items, a, b);
  }

  lemma StretchSpan(items: seq<Item>, a: nat, b: nat)
    requires IndexesGrow(items) && a < b <= |items| && MaximalQuiet(items, a, b)
    ensures AllQuiet(items[a..b])
    ensures var run := items[a..b];
            var s := SpanOf(run);
            && s.first == run[0].record && s.last == run[|run| - 1].record
            && InStream(s.high, run) && InStream(s.low, run)
            && (forall k :: 0 <= k < |run| ==> s.low.close <= run[k].record.close <= s.high.close)
            && |Selected(s)| <= 4 && s.first in Selected(s) && s.high in Selected(s) && s.low in Selected(s)
               && s.last in Selected(s)
  {
    SpanIsRepresentative(items[a..b]);
    SelectedKeeps(items[a..b]);
  }

  /** Records kept from before or after the stretch carry other indexes. */
  lemma OutsideStretch(items: seq<Item>, a: nat, b: nat)
    requires IndexesGrow(items) && a < b <= |items|
    requires forall k :: 0 <= k < |items| && items[k].Captured? ==> items[k].record.index == k + 1
    ensures forall x :: x in Compressed(items[..a]) || x in Compressed(items[b..]) ==> !(a < x.index <= b)
  {
    hide Compressed;
    CompressionKeepsOrderAndActivity(items[..a]);
    CompressionKeepsOrderAndActivity(items[b..]);
    forall x | x in Compressed(items[..a]) ensures x.index <= a {
      var k :| 0 <= k < a && items[..a][k] == Captured(x);
      assert items[k] == Captured(x);
    }
    forall x | x in Compressed(items[b..]) ensures x.index > b {
      var k :| 0 <= k < |items| - b && items[b..][k] == Captured(x);
      assert items[b + k] == Captured(x);
    }
  }

  /**
   * The trace of a run: each of its records is a bar of the run that was due, every bar with a fill, an order, a signal
   * or a blocked intent is in it, and without compression every bar that was due.
   */
  lemma TraceOfRun(cfg: RunConfig, strategy: Strategy, st0: RunState, bars: seq<Bar>, c: TraceConfig)
    requires st0.steps == [] && st0.seen == [] && Run(cfg, strategy, st0, bars).Ok?
    ensures var steps := Run(cfg, strategy, st0, bars).value.steps;
            var trace := Trace(c, steps);
            && |steps| == |bars| && Strict(trace)
            && (forall x :: x in trace ==>
                  && 0 < x.index <= |bars|
                  && x == Record(x.index, bars[x.index - 1].time, bars[x.index - 1].symbol, bars[x.index - 1].close,
                                 !Uneventful(steps[x.index - 1]))
                  && IsDue(c, steps[x.index - 1], x.index))
            && (forall k :: 0 <= k < |bars| && !Uneventful(steps[k]) ==> Represented(trace, steps, k))
            && (!c.compress ==>
                  forall k :: 0 <= k < |bars| && IsDue(c, steps[k], k + 1) ==> Represented(trace, steps, k))
  {
    hide Stepped, CloseGroup, Trace, IsActivity, Uneventful, IsDue;
    StepsFollowBars(cfg, strategy, st0, bars, |bars|);
    if bars != [] {
      CloseKeeps(Stepped(cfg, strategy, st0, bars, |bars|).value, bars[|bars| - 1].time);
    }
    TraceKeepsActivity(c, Run(cfg, strategy, st0, bars).value.steps);
  }
}
