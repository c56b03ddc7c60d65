/** Debug traces: which steps are captured, and how quiet stretches are thinned out. */
module Traces {
  import opened Wrappers
  import opened Market
  import opened Sequences
  import opened Streaming

  datatype Record = Record(index: nat, time: Instant, symbol: Symbol, close: real, activity: bool)

  datatype TraceConfig = TraceConfig(stride: Option<nat>, activityOnly: bool, compress: bool)

  /** A step without activity is captured on every stride-th index, unless only activity is wanted. */
  predicate ShouldCapture(c: TraceConfig, index: nat, activity: bool) {
    activity || (!c.activityOnly && index % Stride(c) == 0)
  }

  function Stride(c: TraceConfig): (n: nat)
    ensures n > 0
  {
    if c.stride.None? || c.stride.value == 0 then 1 else c.stride.value
  }

  /** What the emitter sees: one item per step, captured or not. */
  datatype Item = Captured(record: Record) | Skipped

  predicate Quiet(x: Item) {
    x.Captured? && !x.record.activity
  }

  predicate AllQuiet(items: seq<Item>) {
    forall k :: 0 <= k < |items| ==> Quiet(items[k])
  }

  // ----- One quiet stretch -----

  datatype Span = Span(first: Record, high: Record, low: Record, last: Record)

  function SpanOf(run: seq<Item>): Span
    requires run != [] && AllQuiet(run)
  {
    var r := run[|run| - 1].record;
    if |run| == 1 then Span(r, r, r, r) else Widened(SpanOf(run[..|run| - 1]), r)
  }

  function Widened(s: Span, r: Record): Span {
    Span(s.first, if r.close > s.high.close then r else s.high, if r.close < s.low.close then r else s.low, r)
  }

  /** Insertion after every record whose index is not larger. */
  function InsertByIndex(s: seq<Record>, r: Record): seq<Record> {
    if s == [] then [r]
    else if s[|s| - 1].index <= r.index then s + [r]
    else InsertByIndex(s[..|s| - 1], r) + [s[|s| - 1]]
  }

  function SortByIndex(s: seq<Record>): seq<Record> {
    if s == [] then [] else InsertByIndex(SortByIndex(s[..|s| - 1]), s[|s| - 1])
  }

  function Indexes(s: seq<Record>): set<nat> {
    set r | r in s :: r.index
  }

  /** The first record of each index. */
  function FirstPerIndex(s: seq<Record>): seq<Record> {
    if s == [] then []
    else
      var init, last := s[..|s| - 1], s[|s| - 1];
      if last.index in Indexes(init) then FirstPerIndex(init) else FirstPerIndex(init) + [last]
  }

  function Selected(s: Span): seq<Record> {
    FirstPerIndex(SortByIndex([s.first, s.high, s.low, s.last]))
  }

  predicate Ordered(s: seq<Record>) {
    forall a, b :: 0 <= a < b < |s| ==> s[a].index <= s[b].index
  }

  predicate Strict(s: seq<Record>) {
    forall a, b :: 0 <= a < b < |s| ==> s[a].index < s[b].index
  }

  lemma {:induction false} InsertAdds(s: seq<Record>, r: Record)
    ensures |InsertByIndex(s, r)| == |s| + 1
    ensures forall x :: x in InsertByIndex(s, r) <==> x in s || x == r
  {
    if s != [] && s[|s| - 1].index > r.index {
      var init, last := s[..|s| - 1], s[|s| - 1];
      InsertAdds(init, r);
      assert s == init + [last];
    }
  }

  lemma {:induction false} InsertKeepsOrder(s: seq<Record>, r: Record)
    requires Ordered(s)
    ensures Ordered(InsertByIndex(s, r)) && |InsertByIndex(s, r)| == |s| + 1
    ensures forall x :: x in InsertByIndex(s, r) <==> x in s || x == r
  {
    InsertAdds(s, r);
    if s != [] && s[|s| - 1].index > r.index {
      var init, last := s[..|s| - 1], s[|s| - 1];
      InsertKeepsOrder(init, r);
      var inserted := InsertByIndex(init, r);
      assert InsertByIndex(s, r) == inserted + [last];
      hide InsertByIndex;
      AppendKeepsOrder(inserted, last);
    } else {
      AppendKeepsOrder(s, r);
    }
  }

  lemma AppendKeepsOrder(s: seq<Record>, r: Record)
    requires Ordered(s) && forall x :: x in s ==> x.index <= r.index
    ensures Ordered(s + [r])
  {
    forall a | 0 <= a < |s| ensures s[a].index <= r.index { assert s[a] in s; }
  }

  lemma {:induction false} SortOrders(s: seq<Record>)
    ensures Ordered(SortByIndex(s)) && |SortByIndex(s)| == |s|
    ensures forall x :: x in SortByIndex(s) <==> x in s
  {
    if s != [] {
      var init, last := s[..|s| - 1], s[|s| - 1];
      assert s == init + [last];
      SortOrders(init);
      InsertKeepsOrder(SortByIndex(init), last);
    }
  }

  lemma NothingSeen()
    ensures FirstPerIndex([]) == [] && Indexes([]) == {}
  {
  }

  lemma FirstOfAppend(s: seq<Record>, r: Record)
    ensures FirstPerIndex(s + [r]) == FirstPerIndex(s) + if r.index in Indexes(s) then [] else [r]
    ensures Indexes(s + [r]) == Indexes(s) + {r.index}
  {
    assert (s + [r])[..|s|] == s;
    IndexesOfAppend(s, r);
  }

  lemma {:induction false} FirstPerIndexKeepsIndexes(s: seq<Record>)
    ensures Indexes(FirstPerIndex(s)) == Indexes(s)
  {
    if s == [] {
      NothingSeen();
    } else {
      var init, last := s[..|s| - 1], s[|s| - 1];
      hide Indexes, FirstPerIndex;
      FirstPerIndexKeepsIndexes(init);
      assert s == init + [last];
      FirstOfAppend(init, last);
      FirstOfAppend(FirstPerIndex(init), last);
    }
  }

  lemma {:induction false} FirstPerIndexThins(s: seq<Record>)
    requires Ordered(s)
    ensures Strict(FirstPerIndex(s)) && |FirstPerIndex(s)| <= |s|
    ensures forall x :: x in FirstPerIndex(s) ==> x in s
    ensures Indexes(FirstPerIndex(s)) == Indexes(s)
  {
    FirstPerIndexKeepsIndexes(s);
    hide Indexes, Strict;
    if s == [] {
      NothingIsStrict();
    } else {
      var init, last := s[..|s| - 1], s[|s| - 1];
      FirstPerIndexThins(init);
      hide FirstPerIndex;
      assert s == init + [last];
      FirstOfAppend(init, last);
      if last.index !in Indexes(init) {
        forall x | x in FirstPerIndex(init) ensures x.index < last.index {
          NewIndexIsLarger(s, x);
        }
        StrictAppend(FirstPerIndex(init), last);
      }
    }
  }

  lemma NothingIsStrict()
    ensures Strict([])
  {
  }

  lemma StrictAppend(s: seq<Record>, r: Record)
    requires Strict(s) && forall x :: x in s ==> x.index < r.index
    ensures Strict(s + [r])
  {
  }

  lemma NewIndexIsLarger(s: seq<Record>, x: Record)
    requires Ordered(s) && s != [] && x in s[..|s| - 1] && s[|s| - 1].index !in Indexes(s[..|s| - 1])
    ensures x.index < s[|s| - 1].index
  {
    assert x.index in Indexes(s[..|s| - 1]);
    var k :| 0 <= k < |s| - 1 && s[..|s| - 1][k] == x;
    assert s[k].index <= s[|s| - 1].index;
  }

  lemma IndexesOfAppend(s: seq<Record>, r: Record)
    ensures Indexes(s + [r]) == Indexes(s) + {r.index}
  {
    forall i ensures i in Indexes(s + [r]) <==> i in Indexes(s) || i == r.index {
      if i in Indexes(s) {
        var x :| x in s && x.index == i;
        assert x in s + [r];
      }
      assert r in s + [r];
    }
  }

  // ----- The whole stream -----

  predicate IndexesGrow(items: seq<Item>) {
    forall a, b :: 0 <= a < b < |items| && items[a].Captured? && items[b].Captured? ==>
      items[a].record.index < items[b].record.index
  }

  /** The length of the quiet stretch a stream begins with. */
  function QuietPrefix(items: seq<Item>): (n: nat)
    ensures n <= |items| && AllQuiet(items[..n]) && (n < |items| ==> !Quiet(items[n]))
  {
    if items == [] || !Quiet(items[0]) then 0 else
      var n := QuietPrefix(items[1..]);
      assert forall k :: 0 < k <= n ==> items[k] == items[1..][k - 1];
      n + 1
  }

  /** A stream starts with a maximal quiet stretch, or with one other item. */
  function HeadLength(items: seq<Item>): (n: nat)
    requires items != []
    ensures 0 < n <= |items|
  {
    if Quiet(items[0]) then
      var n := QuietPrefix(items);
      assert n > 0;
      n
    else 1
  }

  function HeadKept(items: seq<Item>): seq<Record>
    requires items != []
  {
    if Quiet(items[0]) then Selected(SpanOf(items[..HeadLength(items)]))
    else if items[0].Captured? then [items[0].record]
    else []
  }

  /** Activity is kept as it is; each maximal quiet stretch is reduced to its selected records. */
  function Compressed(items: seq<Item>): seq<Record>
    decreases |items|
  {
    if items == [] then [] else HeadKept(items) + Compressed(items[HeadLength(items)..])
  }

  function Uncompressed(items: seq<Item>): seq<Record> {
    if items == [] then []
    else Uncompressed(items[..|items| - 1]) + if items[|items| - 1].Captured? then [items[|items| - 1].record] else []
  }

  predicate InStream(r: Record, items: seq<Item>) {
    exists k :: 0 <= k < |items| && items[k] == Captured(r)
  }

  /** The first, last, highest and lowest record of a quiet stretch are among those selected, and at most four are. */
  lemma {:induction false} SpanIsRepresentative(run: seq<Item>)
    requires run != [] && AllQuiet(run)
    ensures var s := SpanOf(run);
            && s.first == run[0].record && s.last == run[|run| - 1].record
            && InStream(s.high, run) && InStream(s.low, run)
            && forall k :: 0 <= k < |run| ==> s.low.close <= run[k].record.close <= s.high.close
  {
    var last := run[|run| - 1];
    assert last == Captured(last.record);
    if |run| > 1 {
      var init := run[..|run| - 1];
      SpanIsRepresentative(init);
      var h :| 0 <= h < |init| && init[h] == Captured(SpanOf(init).high);
      var l :| 0 <= l < |init| && init[l] == Captured(SpanOf(init).low);
      assert run[h] == init[h] && run[l] == init[l];
      forall k | 0 <= k < |run| ensures SpanOf(run).low.close <= run[k].record.close <= SpanOf(run).high.close {
        if k < |init| {
          assert run[k] == init[k];
        }
      }
    }
  }

  /** Of several records with the same highest or lowest close the span holds the first. */
  lemma {:induction false} FirstExtremesWin(run: seq<Item>) returns (h: nat, l: nat)
    requires run != [] && AllQuiet(run)
    ensures h < |run| && run[h].record == SpanOf(run).high
            && forall k :: 0 <= k < h ==> run[k].record.close < run[h].record.close
    ensures l < |run| && run[l].record == SpanOf(run).low
            && forall k :: 0 <= k < l ==> run[k].record.close > run[l].record.close
  {
    var m := |run| - 1;
    h, l := m, m;
    if m > 0 {
      var init := run[..m];
      SpanIsRepresentative(init);
      assert forall k :: 0 <= k < m ==> run[k] == init[k];
      var i, j := FirstExtremesWin(init);
      if run[m].record.close <= run[i].record.close { h := i; }
      if run[m].record.close >= run[j].record.close { l := j; }
    }
  }

  lemma SelectedKeeps(run: seq<Item>)
    requires run != [] && AllQuiet(run) && IndexesGrow(run)
    ensures var sel, s := Selected(SpanOf(run)), SpanOf(run);
            && Strict(sel) && 0 < |sel| <= 4
            && s.first in sel && s.high in sel && s.low in sel && s.last in sel
            && forall r :: r in sel ==> InStream(r, run)
  {
    hide SpanOf, FirstPerIndex, SortByIndex;
    SpanIsRepresentative(run);
    var s := SpanOf(run);
    var four := [s.first, s.high, s.low, s.last];
    assert run[0] == Captured(s.first) && run[|run| - 1] == Captured(s.last);
    assert forall x :: x in four ==> x in [s.first, s.high, s.low, s.last];
    SortOrders(four);
    FirstPerIndexThins(SortByIndex(four));
    forall x | x in four ensures x in Selected(s) && InStream(x, run) {
      SelectedByIndex(run, four, x);
    }
  }

  lemma SelectedByIndex(run: seq<Item>, four: seq<Record>, x: Record)
    requires IndexesGrow(run) && x in four && forall y :: y in four ==> InStream(y, run)
    ensures x in FirstPerIndex(SortByIndex(four))
  {
    SortOrders(four);
    FirstPerIndexThins(SortByIndex(four));
    assert x.index in Indexes(SortByIndex(four));
    var y :| y in FirstPerIndex(SortByIndex(four)) && y.index == x.index;
    SameIndexSameRecord(run, x, y);
  }

  lemma SameIndexSameRecord(items: seq<Item>, x: Record, y: Record)
    requires IndexesGrow(items) && InStream(x, items) && InStream(y, items) && x.index == y.index
    ensures x == y
  {
    var a :| 0 <= a < |items| && items[a] == Captured(x);
    var b :| 0 <= b < |items| && items[b] == Captured(y);
  }

  /** The compressed trace is a strictly index-increasing selection of the captured records that keeps all activity. */
  lemma {:induction false} CompressionKeepsOrderAndActivity(items: seq<Item>)
    requires IndexesGrow(items)
    ensures Strict(Compressed(items))
    ensures forall r :: r in Compressed(items) ==> InStream(r, items)
    ensures forall r :: InStream(r, items) && r.activity ==> r in Compressed(items)
    decreases |items|
  {
    if items != [] {
      var n := HeadLength(items);
      var head, tail, kept := items[..n], items[n..], HeadKept(items);
      assert IndexesGrow(head) && IndexesGrow(tail);
      CompressionKeepsOrderAndActivity(tail);
      if Quiet(items[0]) {
        SelectedKeeps(head);
      } else if items[0].Captured? {
        assert head[0] == Captured(items[0].record);
      }
      SplitStream(items, n);
      assert forall r :: r in kept ==> InStream(r, head);
      StrictAcross(items, n, kept, Compressed(tail));
      forall r | InStream(r, items) && r.activity ensures r in Compressed(items) {
        if InStream(r, head) {
          var k :| 0 <= k < |head| && head[k] == Captured(r);
        }
      }
    }
  }

  lemma SplitStream(items: seq<Item>, n: nat)
    requires n <= |items|
    ensures forall r :: InStream(r, items) <==> InStream(r, items[..n]) || InStream(r, items[n..])
  {
    forall r ensures InStream(r, items) <==> InStream(r, items[..n]) || InStream(r, items[n..]) {
      if InStream(r, items) {
        var k :| 0 <= k < |items| && items[k] == Captured(r);
        if k < n { assert items[..n][k] == Captured(r); } else { assert items[n..][k - n] == Captured(r); }
      }
    }
  }

  lemma StrictAcross(items: seq<Item>, n: nat, a: seq<Record>, b: seq<Record>)
    requires n <= |items| && IndexesGrow(items) && Strict(a) && Strict(b)
    requires forall r :: r in a ==> InStream(r, items[..n])
    requires forall r :: r in b ==> InStream(r, items[n..])
    ensures Strict(a + b)
  {
    forall x, y | x in a && y in b ensures x.index < y.index {
      var j :| 0 <= j < n && items[..n][j] == Captured(x);
      var k :| 0 <= k < |items| - n && items[n..][k] == Captured(y);
      assert items[j] == Captured(x) && items[n + k] == Captured(y);
    }
  }

  predicate MaximalQuiet(items: seq<Item>, a: nat, b: nat)
    requires a < b <= |items|
  {
    && AllQuiet(items[a..b])
    && (a > 0 ==> !Quiet(items[a - 1]))
    && (b < |items| ==> !Quiet(items[b]))
  }

  lemma {:induction false} QuietPrefixIs(items: seq<Item>, n: nat)
    requires n <= |items| && AllQuiet(items[..n]) && (n < |items| ==> !Quiet(items[n]))
    ensures QuietPrefix(items) == n
  {
    if n > 0 {
      assert items[0] == items[..n][0];
      var rest := items[1..][..n - 1];
      forall k | 0 <= k < n - 1 ensures Quiet(rest[k]) {
        assert rest[k] == items[..n][k + 1];
      }
      QuietPrefixIs(items[1..], n - 1);
    }
  }

  lemma HeadCarries(a: seq<Item>, b: seq<Item>)
    requires a != [] && (b != [] ==> !Quiet(a[|a| - 1]) || !Quiet(b[0]))
    ensures HeadLength(a + b) == HeadLength(a) && HeadKept(a + b) == HeadKept(a)
  {
    hide Selected, SpanOf;
    if Quiet(a[0]) {
      var n := QuietPrefix(a);
      assert (a + b)[..n] == a[..n];
      assert a[..n][n - 1] == a[n - 1];
      assert n < |a| ==> (a + b)[n] == a[n];
      QuietPrefixIs(a + b, n);
    }
  }

  /** Streams compress independently unless a quiet stretch runs across the seam. */
  lemma {:induction false} CompressedConcat(a: seq<Item>, b: seq<Item>)
    requires a != [] && b != [] ==> !Quiet(a[|a| - 1]) || !Quiet(b[0])
    ensures Compressed(a + b) == Compressed(a) + Compressed(b)
    decreases |a|
  {
    hide HeadLength, HeadKept, Quiet, Compressed;
    CompressedUnfolds(a);
    if a == [] {
      assert a + b == b;
    } else {
      HeadCarries(a, b);
      CompressedUnfolds(a + b);
      var n := HeadLength(a);
      var rest := a[n..];
      assert (a + b)[n..] == rest + b;
      assert rest != [] ==> rest[|rest| - 1] == a[|a| - 1];
      CompressedConcat(rest, b);
      assert HeadKept(a) + (Compressed(rest) + Compressed(b)) == HeadKept(a) + Compressed(rest) + Compressed(b);
    }
  }

  lemma CompressedUnfolds(items: seq<Item>)
    ensures Compressed(items) == if items == [] then [] else HeadKept(items) + Compressed(items[HeadLength(items)..])
  {
  }

  lemma CompressedQuiet(run: seq<Item>)
    requires run != [] && AllQuiet(run)
    ensures Compressed(run) == Selected(SpanOf(run))
  {
    assert run[..|run|] == run && run[|run|..] == [];
    QuietPrefixIs(run, |run|);
  }

  /** Of each maximal quiet stretch the compressed trace keeps exactly the selection, between what surrounds it. */
  lemma QuietStretchIsSelected(items: seq<Item>, a: nat, b: nat)
    requires a < b <= |items| && MaximalQuiet(items, a, b)
    ensures Compressed(items) == Compressed(items[..a]) + Selected(SpanOf(items[a..b])) + Compressed(items[b..])
  {
    hide Compressed, Selected, SpanOf, AllQuiet;
    var run := items[a..b];
    assert items == items[..a] + run + items[b..];
    assert a > 0 ==> items[..a][a - 1] == items[a - 1];
    assert b < |items| ==> items[b..][0] == items[b];
    CompressedQuiet(run);
    CompressedConcat(items[..a], run);
    CompressedConcat(items[..a] + run, items[b..]);
  }

  // ----- The classes -----

  class QuietTraceCompressionSpan {
    var first: Record
    var high: Record
    var low: Record
    var last: Record

    function View(): Span
      reads this
    {
      Span(first, high, low, last)
    }

    constructor (r: Record)
      ensures View() == Span(r, r, r, r)
    {
      first, high, low, last := r, r, r, r;
    }

    method Add(r: Record)
      modifies this
      ensures View() == Widened(old(View()), r)
    {
      last := r;
      if r.close > high.close {
        high := r;
      }
      if r.close < low.close {
        low := r;
      }
    }

    method SelectedRecords() returns (selected: seq<Record>)
      ensures selected == Selected(View())
    {
      hide SortByIndex, FirstPerIndex, Indexes;
      var ordered := SortByIndex([first, high, low, last]);
      selected := [];
      var seenIndexes: set<nat> := {};
      var k := 0;
      NothingSeen();
      while k < |ordered|
        invariant 0 <= k <= |ordered|
        invariant selected == FirstPerIndex(ordered[..k]) && seenIndexes == Indexes(ordered[..k])
      {
        var r := ordered[k];
        assert ordered[..k + 1] == ordered[..k] + [r];
        FirstOfAppend(ordered[..k], r);
        if r.index !in seenIndexes {
          seenIndexes := seenIndexes + {r.index};
          selected := selected + [r];
        }
        k := k + 1;
      }
      assert ordered[..k] == ordered;
    }
  }

  /** The emitter of a run: compresses quiet stretches as they pass, or not, and feeds a list or else a sink. */
  class TraceEmitter {
    const compress: bool
    const collect: bool
    const sink: ChunkedSink?<Record>
    var span: QuietTraceCompressionSpan?
    var collected: seq<Record>
    var count: nat
    ghost var emitted: seq<Record>
    /** Everything fed in, and how much of it lies before the open stretch. */
    ghost var fed: seq<Item>
    ghost var settled: nat

    ghost predicate SinkInStep()
      reads this, sink
    {
      && count == |emitted| && collected == (if collect then emitted else [])
      && (sink != null ==> sink.Valid() && sink.Contents() == if collect then [] else emitted)
    }

    ghost predicate Valid()
      reads this, span, sink
    {
      && SinkInStep()
      && if !compress then span == null && emitted == Uncompressed(fed)
         else
           && settled <= |fed| && emitted == Compressed(fed[..settled])
           && AllQuiet(fed[settled..])
           && (span == null <==> settled == |fed|)
           && (span != null ==> span.View() == SpanOf(fed[settled..]))
           && (0 < settled < |fed| ==> !Quiet(fed[settled - 1]))
           && (span == null && fed != [] ==> !Quiet(fed[|fed| - 1]))
    }

    constructor (compress: bool, collect: bool, sink: ChunkedSink?<Record>)
      requires sink != null ==> sink.Valid() && sink.Contents() == []
      ensures Valid() && fed == [] && span == null
      ensures this.compress == compress && this.collect == collect && this.sink == sink
    {
      this.compress, this.collect, this.sink := compress, collect, sink;
      span := null;
      collected, count := [], 0;
      emitted, fed, settled := [], [], 0;
    }

    method Emit(r: Record)
      requires SinkInStep()
      modifies this`emitted, this`collected, this`count, sink
      ensures SinkInStep() && emitted == old(emitted) + [r]
    {
      emitted := emitted + [r];
      count := count + 1;
      if collect {
        collected := collected + [r];
      } else if sink != null {
        sink.Push(r);
      }
    }

    method EmitAll(records: seq<Record>)
      requires SinkInStep()
      modifies this`emitted, this`collected, this`count, sink
      ensures SinkInStep() && emitted == old(emitted) + records
    {
      hide TraceEmitter.SinkInStep;
      var k := 0;
      while k < |records|
        invariant 0 <= k <= |records| && SinkInStep() && emitted == old(emitted) + records[..k]
      {
        Emit(records[k]);
        k := k + 1;
      }
      assert records[..k] == records;
    }

    method FlushQuietSpan()
      requires Valid()
      modifies this, sink
      ensures span == null && fed == old(fed) && SinkInStep()
      ensures emitted == if compress then Compressed(fed) else Uncompressed(fed)
      ensures compress ==> settled == |fed|
    {
      hide Compressed, SpanOf, Selected;
      if span == null {
        assert fed[..|fed|] == fed;
        return;
      }
      var records := span.SelectedRecords();
      assert fed == fed[..settled] + fed[settled..];
      CompressedQuiet(fed[settled..]);
      CompressedConcat(fed[..settled], fed[settled..]);
      EmitAll(records);
      span := null;
      settled := |fed|;
    }

    /** A quiet record opens a stretch or widens the open one. */
    method FeedQuiet(x: Item)
      requires Valid() && compress && Quiet(x)
      modifies this, span
      ensures Valid() && fed == old(fed) + [x]
      ensures span == old(span) || fresh(span)
    {
      hide Compressed;
      ghost var before := fed;
      fed := fed + [x];
      assert fed[..settled] == before[..settled];
      if span == null {
        span := new QuietTraceCompressionSpan(x.record);
        assert fed[settled..] == [x];
      } else {
        span.Add(x.record);
        assert fed[settled..] == before[settled..] + [x];
        assert fed[settled..][..|fed| - settled - 1] == before[settled..];
      }
    }

    method Feed(x: Item)
      requires Valid()
      modifies this, span, sink
      ensures Valid() && fed == old(fed) + [x]
      ensures span == null || span == old(span) || fresh(span)
    {
      hide Compressed, Uncompressed, SpanOf, AllQuiet, Concat;
      if compress && x.Captured? && !x.record.activity {
        FeedQuiet(x);
        return;
      }
      FlushQuietSpan();
      ghost var before := fed;
      if x.Captured? {
        Emit(x.record);
      }
      fed := fed + [x];
      LoudAppends(before, x, compress);
      if compress {
        settled := |fed|;
        assert fed[..settled] == fed && fed[settled..] == [];
      }
    }
  }

  /** A record that does not continue a quiet stretch is appended as it is. */
  lemma LoudAppends(before: seq<Item>, x: Item, compress: bool)
    requires compress ==> !Quiet(x)
    ensures var kept := if x.Captured? then [x.record] else [];
            && Uncompressed(before + [x]) == Uncompressed(before) + kept
            && (compress ==> Compressed(before + [x]) == Compressed(before) + kept)
    ensures AllQuiet([])
  {
    assert (before + [x])[..|before|] == before;
    if compress {
      CompressedConcat(before, [x]);
      CompressedSingle(x);
    }
  }

  lemma CompressedSingle(x: Item)
    requires !Quiet(x)
    ensures Compressed([x]) == if x.Captured? then [x.record] else []
  {
    assert [x][1..] == [];
  }
}
