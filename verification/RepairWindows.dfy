/** Merging the windows of bars that have to be fetched again. */
module RepairWindows {
  import opened Market
  import opened Sequences
  import opened Alignment

  /** A window with the findings it answers to. */
  datatype Span = Span(start: Instant, end: Instant, sources: seq<string>)

  // ----- Specification -----

  predicate Precedes(a: Span, b: Span) {
    a.start < b.start || (a.start == b.start && a.end < b.end)
  }

  function Insert(ordered: seq<Span>, w: Span): seq<Span> {
    if ordered == [] || !Precedes(w, ordered[|ordered| - 1]) then ordered + [w]
    else Insert(ordered[..|ordered| - 1], w) + [ordered[|ordered| - 1]]
  }

  /** The stable order by start and end. */
  function Sorted(windows: seq<Span>): seq<Span> {
    if windows == [] then [] else Insert(Sorted(windows[..|windows| - 1]), windows[|windows| - 1])
  }

  function Absorb(merged: seq<Span>, w: Span): seq<Span> {
    if merged == [] then [w] else
      var rest, current := merged[..|merged| - 1], merged[|merged| - 1];
      if w.start <= current.end + SECOND then
        rest + [Span(current.start, if w.end > current.end then w.end else current.end, current.sources + w.sources)]
      else
        merged + [w]
  }

  function Merge(ordered: seq<Span>): seq<Span> {
    if ordered == [] then [] else Absorb(Merge(ordered[..|ordered| - 1]), ordered[|ordered| - 1])
  }

  function Sources(windows: seq<Span>): seq<string> {
    if windows == [] then [] else Sources(windows[..|windows| - 1]) + windows[|windows| - 1].sources
  }

  predicate Covers(windows: seq<Span>, t: Instant) {
    exists k :: 0 <= k < |windows| && windows[k].start <= t <= windows[k].end
  }

  predicate InOrder(windows: seq<Span>) {
    forall i, j :: 0 <= i < j < |windows| ==> !Precedes(windows[j], windows[i])
  }

  /** More than a second lies between the end of a window and the start of any later one. */
  predicate FarApart(windows: seq<Span>) {
    forall i, j :: 0 <= i < j < |windows| ==>
      windows[i].end + SECOND < windows[j].start && windows[i].start <= windows[j].start
  }

  /** The callers make every end whole: the last second of a minute. Starts may carry fractions. */
  predicate EndsOnSecond(w: Span) {
    w.end % SECOND == 0
  }

  /** Every window starts at t at the latest. */
  predicate StartBy(windows: seq<Span>, t: Instant) {
    forall k :: 0 <= k < |windows| ==> windows[k].start <= t
  }

  predicate AllEndOnSeconds(windows: seq<Span>) {
    forall k :: 0 <= k < |windows| ==> EndsOnSecond(windows[k])
  }

  // ----- Sorting -----

  lemma {:induction false} InsertOrders(ordered: seq<Span>, w: Span)
    requires InOrder(ordered)
    ensures InOrder(Insert(ordered, w)) && multiset(Insert(ordered, w)) == multiset(ordered) + multiset{w}
  {
    if ordered != [] && Precedes(w, ordered[|ordered| - 1]) {
      var init, last := ordered[..|ordered| - 1], ordered[|ordered| - 1];
      InsertOrders(init, w);
      assert ordered == init + [last];
      hide Insert;
      LastStaysLast(init, last, Insert(init, w), w);
    }
  }

  lemma LastStaysLast(init: seq<Span>, last: Span, longer: seq<Span>, w: Span)
    requires InOrder(init + [last]) && InOrder(longer) && Precedes(w, last)
    requires multiset(longer) == multiset(init) + multiset{w}
    ensures InOrder(longer + [last])
  {
    var ordered := init + [last];
    forall i | 0 <= i < |longer| ensures !Precedes(last, longer[i]) {
      assert longer[i] in multiset(longer);
      if longer[i] != w {
        assert longer[i] in init;
        var k :| 0 <= k < |init| && init[k] == longer[i];
        assert ordered[k] == longer[i] && ordered[|init|] == last;
      }
    }
  }

  lemma {:induction false} InsertKeepsSources(ordered: seq<Span>, w: Span)
    ensures multiset(Sources(Insert(ordered, w))) == multiset(Sources(ordered)) + multiset(w.sources)
  {
    if ordered != [] && Precedes(w, ordered[|ordered| - 1]) {
      InsertKeepsSources(ordered[..|ordered| - 1], w);
    }
  }

  lemma {:induction false} SortedOrders(windows: seq<Span>)
    ensures InOrder(Sorted(windows)) && multiset(Sorted(windows)) == multiset(windows)
  {
    hide InOrder, Insert;
    if windows == [] {
      NothingIsInOrder();
    } else {
      var init, last := windows[..|windows| - 1], windows[|windows| - 1];
      SortedOrders(init);
      InsertOrders(Sorted(init), last);
      assert windows == init + [last];
    }
  }

  lemma NothingIsInOrder()
    ensures InOrder([])
  {
  }

  lemma {:induction false} SortedKeepsSources(windows: seq<Span>)
    ensures multiset(Sources(Sorted(windows))) == multiset(Sources(windows))
  {
    hide Sources, Insert;
    if windows != [] {
      var init, last := windows[..|windows| - 1], windows[|windows| - 1];
      SortedKeepsSources(init);
      InsertKeepsSources(Sorted(init), last);
      SourcesEnd(windows);
    }
  }

  lemma SourcesEnd(windows: seq<Span>)
    requires windows != []
    ensures Sources(windows) == Sources(windows[..|windows| - 1]) + windows[|windows| - 1].sources
  {
  }

  // ----- Merging -----

  lemma AbsorbSeparates(merged: seq<Span>, w: Span)
    requires FarApart(merged) && StartBy(merged, w.start)
    ensures FarApart(Absorb(merged, w)) && StartBy(Absorb(merged, w), w.start)
  {
    hide Sources;
    if merged != [] && w.start > merged[|merged| - 1].end + SECOND {
      var last := merged[|merged| - 1];
      assert forall i :: 0 <= i < |merged| - 1 ==> merged[i].end + SECOND < last.start <= w.start;
    }
  }

  lemma AbsorbKeepsSources(merged: seq<Span>, w: Span)
    ensures Sources(Absorb(merged, w)) == Sources(merged) + w.sources
    ensures Absorb(merged, w) != []
  {
    hide Sources;
    SourcesOne(merged, w);
    if merged == [] {
      assert [] + [w] == [w];
    } else if w.start <= merged[|merged| - 1].end + SECOND {
      var rest, current := merged[..|merged| - 1], merged[|merged| - 1];
      assert merged == rest + [current];
      SourcesOne(rest, current);
      SourcesOne(rest, Absorb(merged, w)[|merged| - 1]);
    }
  }

  lemma SourcesOne(windows: seq<Span>, w: Span)
    ensures Sources(windows + [w]) == Sources(windows) + w.sources
  {
    assert (windows + [w])[..|windows|] == windows;
  }

  /** Of the windows in order, the merged ones are more than a second apart and keep every source in its place. */
  lemma {:induction false} MergeSeparates(ordered: seq<Span>)
    requires InOrder(ordered)
    ensures FarApart(Merge(ordered)) && Sources(Merge(ordered)) == Sources(ordered)
    ensures ordered != [] ==> StartBy(Merge(ordered), ordered[|ordered| - 1].start)
  {
    hide FarApart;
    if ordered == [] {
      assert FarApart([]) by { NothingIsApart(); }
    } else {
      var init, w := ordered[..|ordered| - 1], ordered[|ordered| - 1];
      MergeSeparates(init);
      if init != [] { assert !Precedes(w, init[|init| - 1]); }
      AbsorbSeparates(Merge(init), w);
      AbsorbKeepsSources(Merge(init), w);
    }
  }

  lemma NothingIsApart()
    ensures FarApart([])
  {
  }

  lemma AbsorbCovers(merged: seq<Span>, w: Span, t: Instant)
    requires AllEndOnSeconds(merged) && StartBy(merged, w.start) && EndsOnSecond(w) && t % SECOND == 0
    ensures Covers(Absorb(merged, w), t) <==> Covers(merged, t) || w.start <= t <= w.end
    ensures AllEndOnSeconds(Absorb(merged, w))
  {
    var after, n := Absorb(merged, w), |merged|;
    if merged == [] || w.start > merged[n - 1].end + SECOND {
      assert after == merged + [w];
      assert Covers(after, t) ==> Covers(merged, t) || w.start <= t <= w.end;
      if Covers(merged, t) {
        var k :| 0 <= k < n && merged[k].start <= t <= merged[k].end;
        assert after[k] == merged[k];
      }
      assert after[n] == w;
    } else {
      var current := merged[n - 1];
      Apart(current.end, t, SECOND);
      assert after[n - 1].start <= t <= after[n - 1].end <==>
        current.start <= t <= current.end || w.start <= t <= w.end;
      if Covers(after, t) {
        var k :| 0 <= k < n && after[k].start <= t <= after[k].end;
        assert k < n - 1 ==> merged[k] == after[k];
      }
      if Covers(merged, t) {
        var k :| 0 <= k < n && merged[k].start <= t <= merged[k].end;
        assert k < n - 1 ==> merged[k] == after[k];
      }
    }
  }

  /** On whole seconds, the merged windows cover exactly what the given ones cover. */
  lemma {:induction false} MergeCovers(ordered: seq<Span>, t: Instant)
    requires InOrder(ordered) && AllEndOnSeconds(ordered) && t % SECOND == 0
    ensures Covers(Merge(ordered), t) <==> Covers(ordered, t)
    ensures AllEndOnSeconds(Merge(ordered))
  {
    if ordered != [] {
      var init, w := ordered[..|ordered| - 1], ordered[|ordered| - 1];
      MergeCovers(init, t);
      MergeSeparates(init);
      if init != [] { assert !Precedes(w, init[|init| - 1]); }
      AbsorbCovers(Merge(init), w, t);
      hide Merge, Absorb, FarApart;
      CoversEnd(ordered, t);
    }
  }

  lemma CoversEnd(windows: seq<Span>, t: Instant)
    requires windows != []
    ensures var init, w := windows[..|windows| - 1], windows[|windows| - 1];
            Covers(windows, t) <==> Covers(init, t) || w.start <= t <= w.end
  {
    var init, n := windows[..|windows| - 1], |windows| - 1;
    if Covers(init, t) {
      var k :| 0 <= k < n && init[k].start <= t <= init[k].end;
      assert windows[k] == init[k];
    }
    if Covers(windows, t) {
      var k :| 0 <= k <= n && windows[k].start <= t <= windows[k].end;
      assert k < n ==> windows[k] == init[k];
    }
  }

  lemma CoversAsElements(windows: seq<Span>, t: Instant)
    ensures Covers(windows, t) <==> exists w :: w in windows && w.start <= t <= w.end
  {
    if Covers(windows, t) {
      var k :| 0 <= k < |windows| && windows[k].start <= t <= windows[k].end;
      assert windows[k] in windows;
    }
  }

  /**
   * Whatever windows are given, in whatever order: the result is sorted with more than a second between neighbours,
   * names every source as often as the input did, and covers exactly the whole seconds that the input covered.
   */
  lemma MergingIsExact(windows: seq<Span>, t: Instant)
    ensures var merged := Merge(Sorted(windows));
            FarApart(merged)
            && multiset(Sources(merged)) == multiset(Sources(windows))
            && (AllEndOnSeconds(windows) && t % SECOND == 0 ==> (Covers(merged, t) <==> Covers(windows, t)))
  {
    hide FarApart, Sources, Merge, Insert, InOrder;
    var ordered := Sorted(windows);
    SortedOrders(windows);
    SortedKeepsSources(windows);
    MergeSeparates(ordered);
    forall w ensures w in windows <==> w in ordered {
      assert w in windows <==> w in multiset(windows);
      assert w in ordered <==> w in multiset(ordered);
    }
    if AllEndOnSeconds(windows) && t % SECOND == 0 {
      forall k | 0 <= k < |ordered| ensures EndsOnSecond(ordered[k]) { assert ordered[k] in windows; }
      MergeCovers(ordered, t);
      CoversAsElements(ordered, t);
      CoversAsElements(windows, t);
    }
  }

  /**
   * A whole end is what it takes: joining a later window to one that covers something leaves the covered whole seconds
   * alone, whatever the later window, exactly when the earlier one ends on a whole second.
   */
  lemma JoiningIsExactIff(a: Span)
    requires a.start <= a.end
    ensures (forall b: Span, t: Instant :: a.start <= b.start <= b.end && t % SECOND == 0 ==>
               (Covers(Absorb([a], b), t) <==> Covers([a, b], t)))
            <==> EndsOnSecond(a)
  {
    if EndsOnSecond(a) {
      forall b: Span, t: Instant | a.start <= b.start <= b.end && t % SECOND == 0
        ensures Covers(Absorb([a], b), t) <==> Covers([a, b], t)
      {
        JoiningWholeEnd(a, b, t);
      }
    } else {
      var t := DropMicros(a.end) + SECOND;
      var b := Span(a.end + SECOND, a.end + SECOND, []);
      NextWholeSecond(a.end);
      CoversEnd([a, b], t);
      CoversEnd([a], t);
      assert [a, b][..1] == [a] && [a][..0] == [];
      assert Absorb([a], b)[0] == Span(a.start, a.end + SECOND, a.sources + []);
    }
  }

  lemma NextWholeSecond(end: Instant)
    requires end % SECOND != 0
    ensures var t := DropMicros(end) + SECOND; t % SECOND == 0 && end < t < end + SECOND
  {
    Multiple(DropMicros(end) + SECOND, SECOND, end / SECOND + 1);
  }

  lemma JoiningWholeEnd(a: Span, b: Span, t: Instant)
    requires a.start <= a.end && EndsOnSecond(a) && a.start <= b.start <= b.end && t % SECOND == 0
    ensures Covers(Absorb([a], b), t) <==> Covers([a, b], t)
  {
    Apart(a.end, t, SECOND);
    CoversEnd([a, b], t);
    CoversEnd([a], t);
    assert [a, b][..1] == [a] && [a][..0] == [];
    var after := Absorb([a], b);
    if |after| == 1 {
      CoversEnd(after, t);
      assert after[..0] == [];
    } else {
      assert after == [a, b];
    }
  }

  // ----- The windows of detected findings -----

  /** A gap from one timestamp to another, or a single timestamp whose row is corrupt or lies in the future. */
  datatype Finding = GapFound(start: Instant, end: Instant, source: string) | RowFound(time: Instant, source: string)

  /** The last second of the minute of t. */
  function MinuteEnd(t: Instant): Instant {
    t - t % MINUTE + 59 * SECOND
  }

  function SpanFor(f: Finding): Span {
    match f
    case GapFound(start, end, source) => Span(start, MinuteEnd(end), [source])
    case RowFound(time, source) => Span(time - time % MINUTE, MinuteEnd(time), [source])
  }

  function Detected(findings: seq<Finding>): seq<Span> {
    if findings == [] then [] else Detected(findings[..|findings| - 1]) + [SpanFor(findings[|findings| - 1])]
  }

  lemma {:induction false} DetectedAt(findings: seq<Finding>)
    ensures |Detected(findings)| == |findings|
    ensures forall k :: 0 <= k < |findings| ==> Detected(findings)[k] == SpanFor(findings[k])
  {
    hide SpanFor;
    if findings != [] { DetectedAt(findings[..|findings| - 1]); }
  }

  lemma MinuteEndIsWhole(t: Instant)
    ensures MinuteEnd(t) % SECOND == 0
  {
    Multiple(MinuteEnd(t), SECOND, 60 * (t / MINUTE) + 59);
  }

  /** A gap asks for every time from its start through the minute of its end, a row for every time of its minute. */
  predicate AsksFor(f: Finding, t: Instant) {
    match f
    case GapFound(start, end, _) => start <= t && t / MINUTE <= end / MINUTE
    case RowFound(time, _) => t / MINUTE == time / MINUTE
  }

  /**
   * Whatever findings there are, starts with fractions included, the merged windows name each finding once, lie more
   * than a second apart, and cover exactly the whole seconds that some finding asks for.
   */
  lemma DetectedRepairIsExact(findings: seq<Finding>, t: Instant)
    requires t % SECOND == 0
    ensures var merged := Merge(Sorted(Detected(findings)));
            && FarApart(merged)
            && multiset(Sources(merged)) ==
               multiset(seq(|findings|, k requires 0 <= k < |findings| => findings[k].source))
            && (Covers(merged, t) <==> exists f :: f in findings && AsksFor(f, t))
  {
    hide *;
    MergingIsExact(Detected(findings), t);
    DetectedEndOnSeconds(findings);
    DetectedSources(findings);
    DetectedCovers(findings, t);
    forall f ensures AsksFor(f, t) <==> SpanFor(f).start <= t <= SpanFor(f).end {
      AsksForItsSpan(f, t);
    }
  }

  lemma AsksForItsSpan(f: Finding, t: Instant)
    requires t % SECOND == 0
    ensures AsksFor(f, t) <==> SpanFor(f).start <= t <= SpanFor(f).end
  {
  }

  lemma DetectedEndOnSeconds(findings: seq<Finding>)
    ensures AllEndOnSeconds(Detected(findings))
  {
    hide Detected, MinuteEnd;
    DetectedAt(findings);
    forall k | 0 <= k < |findings| ensures EndsOnSecond(Detected(findings)[k]) {
      MinuteEndIsWhole(if findings[k].GapFound? then findings[k].end else findings[k].time);
    }
  }

  lemma DetectedCovers(findings: seq<Finding>, t: Instant)
    ensures Covers(Detected(findings), t) <==> exists f :: f in findings && SpanFor(f).start <= t <= SpanFor(f).end
  {
    hide Detected, SpanFor;
    var spans := Detected(findings);
    DetectedAt(findings);
    if Covers(spans, t) {
      var k :| 0 <= k < |spans| && spans[k].start <= t <= spans[k].end;
      assert findings[k] in findings;
    }
  }

  lemma {:induction false} DetectedSources(findings: seq<Finding>)
    ensures Sources(Detected(findings)) == seq(|findings|, k requires 0 <= k < |findings| => findings[k].source)
  {
    hide MinuteEnd;
    if findings != [] {
      DetectedSources(findings[..|findings| - 1]);
      SourcesEnd(Detected(findings));
    }
  }

  // ----- The windows as records -----

  /** A list of findings is an object of its own: copying a record shares it. */
  class SourceList {
    var items: seq<string>

    constructor (items: seq<string>)
      ensures this.items == items
    {
      this.items := items;
    }
  }

  class RepairWindow {
    var start: Instant
    var end: Instant
    var sources: SourceList

    constructor (start: Instant, end: Instant, sources: SourceList)
      ensures this.start == start && this.end == end && this.sources == sources
    {
      this.start := start;
      this.end := end;
      this.sources := sources;
    }

    function Value(): Span
      reads this, sources
    {
      Span(start, end, sources.items)
    }
  }

  function ListsOf(windows: seq<RepairWindow>): seq<SourceList>
    reads windows
  {
    seq(|windows|, i requires 0 <= i < |windows| reads windows => windows[i].sources)
  }

  function Lists(windows: seq<RepairWindow>): set<SourceList>
    reads windows
  {
    set w | w in windows :: w.sources
  }

  lemma ListsAgree(windows: seq<RepairWindow>)
    ensures forall l :: l in ListsOf(windows) <==> l in Lists(windows)
    ensures forall k :: 0 <= k < |windows| ==> ListsOf(windows)[k] == windows[k].sources
  {
    forall l | l in Lists(windows) ensures l in ListsOf(windows) {
      var k :| 0 <= k < |windows| && windows[k].sources == l;
      assert ListsOf(windows)[k] == l;
    }
  }

  function Values(windows: seq<RepairWindow>): seq<Span>
    reads windows, Lists(windows)
  {
    seq(|windows|, i requires 0 <= i < |windows| reads windows, Lists(windows) => windows[i].Value())
  }

  /** Where a window goes: before the windows that it precedes at the end. */
  function Place(ordered: seq<Span>, w: Span): (p: nat)
    ensures p <= |ordered|
  {
    if ordered == [] || !Precedes(w, ordered[|ordered| - 1]) then |ordered| else Place(ordered[..|ordered| - 1], w)
  }

  lemma {:induction false} InsertAtPlace(ordered: seq<Span>, w: Span)
    ensures var p := Place(ordered, w); Insert(ordered, w) == ordered[..p] + [w] + ordered[p..]
  {
    if ordered != [] && Precedes(w, ordered[|ordered| - 1]) {
      var init, last := ordered[..|ordered| - 1], ordered[|ordered| - 1];
      InsertAtPlace(init, w);
      assert init[Place(init, w)..] + [last] == ordered[Place(init, w)..];
    }
  }

  lemma Spliced(ordered: seq<RepairWindow>, w: RepairWindow, p: nat)
    requires p <= |ordered|
    ensures var longer := ordered[..p] + [w] + ordered[p..];
            Values(longer) == Values(ordered)[..p] + [w.Value()] + Values(ordered)[p..]
            && ListsOf(longer) == ListsOf(ordered)[..p] + [w.sources] + ListsOf(ordered)[p..]
  {
  }

  /** A record whose list is not among theirs can join the records anywhere. */
  lemma SplicedIsDistinct(ordered: seq<RepairWindow>, w: RepairWindow, p: nat)
    requires p <= |ordered| && Distinct(ListsOf(ordered)) && w.sources !in ListsOf(ordered)
    ensures Distinct(ListsOf(ordered[..p] + [w] + ordered[p..]))
    ensures forall l :: l in ListsOf(ordered[..p] + [w] + ordered[p..]) <==> l in ListsOf(ordered) || l == w.sources
  {
    Spliced(ordered, w, p);
    hide ListsOf;
    var lists := ListsOf(ordered);
    assert forall k :: 0 <= k < |lists| ==> lists[k] in lists;
    assert lists == lists[..p] + lists[p..];
  }

  /** `sorted` on the records themselves. */
  method SortRecords(windows: seq<RepairWindow>) returns (ordered: seq<RepairWindow>)
    requires Distinct(ListsOf(windows))
    ensures Values(ordered) == Sorted(Values(windows)) && |ordered| == |windows|
    ensures Distinct(ListsOf(ordered)) && Lists(ordered) == Lists(windows)
    ensures Values(windows) == old(Values(windows)) && Lists(windows) == old(Lists(windows))
  {
    hide Insert, Place, Precedes;
    ghost var given, lists := Values(windows), ListsOf(windows);
    ordered := [];
    var k := 0;
    assert Values(ordered) == [] == Sorted([]);
    while k < |windows|
      invariant 0 <= k <= |windows| && |ordered| == k
      invariant Values(ordered) == Sorted(given[..k])
      invariant Distinct(ListsOf(ordered)) && forall l :: l in ListsOf(ordered) <==> l in lists[..k]
    {
      var w := windows[k];
      var p := Place(Values(ordered), w.Value());
      assert lists[k] == w.sources && given[k] == w.Value();
      Spliced(ordered, w, p);
      InsertAtPlace(Values(ordered), w.Value());
      SplicedIsDistinct(ordered, w, p);
      SortedStep(given, k);
      assert lists[..k + 1] == lists[..k] + [w.sources];
      ordered := ordered[..p] + [w] + ordered[p..];
      k := k + 1;
    }
    assert given[..k] == given && lists[..k] == lists;
    assert Values(ordered) == Sorted(given) && given == Values(windows);
    ListsAgree(ordered);
    ListsAgree(windows);
  }

  lemma SortedStep(windows: seq<Span>, k: nat)
    requires k < |windows|
    ensures Sorted(windows[..k + 1]) == Insert(Sorted(windows[..k]), windows[k])
  {
    assert windows[..k + 1][..k] == windows[..k];
  }

  method AbsorbRecord(merged: seq<RepairWindow>, window: RepairWindow, ghost rest: seq<RepairWindow>)
    returns (after: seq<RepairWindow>)
    requires |merged| > 0 && Distinct(merged) && window !in merged
    requires Distinct(ListsOf(merged)) && window.sources !in ListsOf(merged)
    requires merged[|merged| - 1] !in rest && merged[|merged| - 1].sources !in ListsOf(rest)
    modifies merged[|merged| - 1], merged[|merged| - 1].sources
    ensures Values(rest) == old(Values(rest))
    ensures Values(after) == Absorb(old(Values(merged)), old(window.Value()))
    ensures ListsOf(merged) == old(ListsOf(merged))
    ensures merged <= after && forall i :: |merged| <= i < |after| ==> fresh(after[i])
    ensures Distinct(after)
    ensures ListsOf(after) == if |after| == |merged| then ListsOf(merged) else ListsOf(merged) + [window.sources]
  {
    var current := merged[|merged| - 1];
    ghost var before, later := Values(merged), Values(rest);
    assert forall j :: 0 <= j < |rest| ==> ListsOf(rest)[j] == rest[j].sources && rest[j].Value() == later[j];
    assert forall i :: 0 <= i < |merged| ==> ListsOf(merged)[i] == merged[i].sources;
    if window.start <= current.end + SECOND {
      if window.end > current.end {
        current.end := window.end;
      }
      current.sources.items := current.sources.items + window.sources.items;
      after := merged;
      assert Values(after)[..|merged| - 1] == before[..|merged| - 1];
    } else {
      var next := new RepairWindow(window.start, window.end, window.sources);
      after := merged + [next];
      assert Values(after) == before + [window.Value()];
    }
  }

  /** The merged lists are those of some of the first k records, each taken once. */
  predicate Picked(kept: seq<SourceList>, lists: seq<SourceList>, origins: seq<nat>, k: nat) {
    && |origins| == |kept| && k <= |lists| && Distinct(origins)
    && forall i :: 0 <= i < |kept| ==> origins[i] < k && kept[i] == lists[origins[i]]
  }

  lemma PickedIsDistinct(kept: seq<SourceList>, lists: seq<SourceList>, origins: seq<nat>, k: nat)
    requires Picked(kept, lists, origins, k) && Distinct(lists)
    ensures Distinct(kept) && forall j :: k <= j < |lists| ==> lists[j] !in kept
    ensures forall l :: l in kept ==> l in lists
  {
  }

  lemma PickedExtends(kept: seq<SourceList>, lists: seq<SourceList>, origins: seq<nat>, k: nat)
    requires Picked(kept, lists, origins, k) && k < |lists|
    ensures Picked(kept, lists, origins, k + 1) && Picked(kept + [lists[k]], lists, origins + [k], k + 1)
  {
  }

  /** The records not yet reached share nothing with the ones merged so far. */
  lemma RestIsApart(merged: seq<RepairWindow>, ordered: seq<RepairWindow>, origins: seq<nat>, k: nat)
    requires Picked(ListsOf(merged), ListsOf(ordered), origins, k) && Distinct(ListsOf(ordered))
    ensures Distinct(ListsOf(merged))
    ensures forall l :: l in Lists(ordered[k..]) ==> l !in ListsOf(merged)
    ensures forall l :: l in ListsOf(merged) ==> l in Lists(ordered)
    ensures forall i :: 0 <= i < |merged| ==> merged[i].sources in Lists(ordered) - Lists(ordered[k..])
  {
    var lists := ListsOf(ordered);
    ListsAgree(merged);
    PickedIsDistinct(ListsOf(merged), lists, origins, k);
    ListsAgree(ordered);
    ListsAgree(ordered[k..]);
    assert ListsOf(ordered[k..]) == lists[k..];
  }

  lemma FirstOfRest(ordered: seq<RepairWindow>, given: seq<Span>, k: nat)
    requires k < |ordered| == |given| && Values(ordered[k..]) == given[k..]
    ensures ordered[k].Value() == given[k] && Values(ordered[k + 1..]) == given[k + 1..]
    ensures ordered[k].sources == ListsOf(ordered)[k] && ordered[k].sources in Lists(ordered[k..])
    ensures Lists(ordered[k + 1..]) <= Lists(ordered[k..])
  {
    assert ordered[k..][0] == ordered[k];
    assert Values(ordered[k..])[0] == ordered[k].Value();
    assert ordered[k..][1..] == ordered[k + 1..];
    assert Values(ordered[k + 1..]) == Values(ordered[k..])[1..];
  }

  method CopyFirst(ordered: seq<RepairWindow>) returns (first: RepairWindow)
    requires |ordered| > 0
    ensures fresh(first)
    ensures Values([first]) == Merge(Values(ordered)[..1]) && Distinct([first])
    ensures Picked(ListsOf([first]), ListsOf(ordered), [0], 1)
    ensures Values(ordered[1..]) == Values(ordered)[1..] && |Values(ordered)| == |ListsOf(ordered)| == |ordered|
    ensures Values(ordered) == old(Values(ordered)) && Lists(ordered) == old(Lists(ordered))
            && ListsOf(ordered) == old(ListsOf(ordered))
  {
    ghost var given := Values(ordered);
    first := new RepairWindow(ordered[0].start, ordered[0].end, ordered[0].sources);
    assert Values(ordered) == given;
    MergeOfOne(given[0]);
    assert Values([first]) == [given[0]] == given[..1];
  }

  method MergeOrdered(ordered: seq<RepairWindow>) returns (merged: seq<RepairWindow>)
    requires |ordered| > 0 && Distinct(ListsOf(ordered))
    modifies Lists(ordered)
    ensures Values(merged) == Merge(old(Values(ordered)))
    ensures forall i :: 0 <= i < |merged| ==> fresh(merged[i])
    ensures forall l :: l in ListsOf(merged) ==> l in Lists(ordered)
  {
    hide Lists, ListsOf, Values, Absorb, Merge, Picked, Distinct;
    ghost var given, lists, allowed := Values(ordered), ListsOf(ordered), Lists(ordered);
    var first := CopyFirst(ordered);
    merged := [first];
    ghost var origins: seq<nat> := [0];
    var k := 1;
    while k < |ordered|
      invariant 1 <= k <= |ordered| && |merged| > 0 && Distinct(merged)
      invariant ListsOf(ordered) == lists && Lists(ordered) == allowed
      invariant Picked(ListsOf(merged), lists, origins, k)
      invariant forall i :: 0 <= i < |merged| ==> fresh(merged[i])
      invariant Values(ordered[k..]) == given[k..]
      invariant Values(merged) == Merge(given[..k])
    {
      var count := |merged|;
      RestIsApart(merged, ordered, origins, k);
      PickedExtends(ListsOf(merged), lists, origins, k);
      MergeStep(given, k);
      FirstOfRest(ordered, given, k);
      assert forall j :: 0 <= j < |ordered| ==> ordered[j] != merged[count - 1];
      ghost var rest := ordered[k + 1..];
      assert merged[count - 1] !in rest && merged[count - 1].sources !in Lists(rest);
      ListsAgree(rest);
      merged := AbsorbRecord(merged, ordered[k], rest);
      if |merged| > count {
        origins := origins + [k];
      }
      k := k + 1;
    }
    RestIsApart(merged, ordered, origins, k);
    assert given[..k] == given;
  }

  /**
   * Merges in place: the last merged record's end and its list of findings grow. The lists still belong to the given
   * records, so theirs grow too; their bounds do not change.
   */
  method MergeWindows(windows: seq<RepairWindow>) returns (merged: seq<RepairWindow>)
    requires Distinct(ListsOf(windows))
    modifies Lists(windows)
    ensures Values(merged) == Merge(Sorted(old(Values(windows))))
    ensures forall i :: 0 <= i < |merged| ==> fresh(merged[i])
    ensures forall l :: l in ListsOf(merged) ==> l in Lists(windows)
  {
    hide Values, Lists, ListsOf, Merge, Sorted, Distinct;
    if windows == [] {
      merged := [];
      NothingMerges(windows, merged);
      return;
    }
    var ordered := SortRecords(windows);
    merged := MergeOrdered(ordered);
  }

  lemma NothingMerges(windows: seq<RepairWindow>, merged: seq<RepairWindow>)
    requires windows == [] && merged == []
    ensures Values(merged) == Merge(Sorted(Values(windows))) && ListsOf(merged) == []
  {
  }

  lemma MergeStep(ordered: seq<Span>, k: nat)
    requires k < |ordered|
    ensures Merge(ordered[..k + 1]) == Absorb(Merge(ordered[..k]), ordered[k])
  {
    assert ordered[..k + 1][..k] == ordered[..k];
  }

  lemma MergeOfOne(w: Span)
    ensures Merge([w]) == [w]
  {
    assert [w][..0] == [];
    assert Merge([]) == [];
  }
}
