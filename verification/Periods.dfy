/** The breakdown of a run by year, quarter or month. */
module Periods {
  import opened Market
  import opened Sequences
  import opened Calendar
  import opened Performance

  datatype PeriodType = Year | Quarter | Month

  /** The fields of a period key: the year, and the quarter or month where there is one. */
  type Bucket = seq<int>

  /** What the breakdown reads of a performance point. */
  datatype Sample = Sample(ts: DateTime, equity: real)

  datatype FillRecord = FillRecord(time: DateTime, price: real, qty: real, fee: real, slippage: real)

  datatype SignalRecord = SignalRecord(time: DateTime)

  datatype Entry = Entry(
    period: PeriodType,
    periodStart: DateTime,
    periodEnd: DateTime,
    startEquity: real,
    endEquity: real,
    totalReturn: real,
    maxDrawdown: real,
    turnover: real,
    feeCost: real,
    slippageCost: real,
    signalCount: nat,
    fillCount: nat)

  // ----- Buckets -----

  function BucketOf(ts: DateTime, period: PeriodType): Bucket {
    match period
    case Year => [ts.year]
    case Quarter => [ts.year, (ts.month - 1) / 3 + 1]
    case Month => [ts.year, ts.month]
  }

  function BucketStart(bucket: Bucket, period: PeriodType): DateTime
    requires |bucket| == if period.Year? then 1 else 2
  {
    match period
    case Year => DateTime(bucket[0], 1, 1, 0)
    case Quarter => DateTime(bucket[0], (bucket[1] - 1) * 3 + 1, 1, 0)
    case Month => DateTime(bucket[0], bucket[1], 1, 0)
  }

  function MonthsIn(period: PeriodType): int {
    match period
    case Year => 12
    case Quarter => 3
    case Month => 1
  }

  /** The number of the period, counted from the year 0. */
  function PeriodIndex(ts: DateTime, period: PeriodType): int {
    MonthIndex(ts) / MonthsIn(period)
  }

  lemma IndexFromFields(ts: DateTime, period: PeriodType)
    requires 1 <= ts.month <= 12
    ensures PeriodIndex(ts, period) ==
            match period
            case Year => ts.year
            case Quarter => 4 * ts.year + (ts.month - 1) / 3
            case Month => 12 * ts.year + ts.month - 1
  {
    match period
    case Year => QuotientIs(MonthIndex(ts), 12, ts.year, ts.month - 1);
    case Quarter => QuotientIs(MonthIndex(ts), 3, 4 * ts.year + (ts.month - 1) / 3, (ts.month - 1) % 3);
    case Month => QuotientIs(MonthIndex(ts), 1, MonthIndex(ts), 0);
  }

  lemma SameBucketIffSameIndex(a: DateTime, b: DateTime, period: PeriodType)
    requires 1 <= a.month <= 12 && 1 <= b.month <= 12
    ensures BucketOf(a, period) == BucketOf(b, period) <==> PeriodIndex(a, period) == PeriodIndex(b, period)
  {
    IndexFromFields(a, period);
    IndexFromFields(b, period);
    hide PeriodIndex;
    SameFields(a, b, period);
  }

  lemma SameFields(a: DateTime, b: DateTime, period: PeriodType)
    ensures BucketOf(a, period) == BucketOf(b, period) <==>
            a.year == b.year && match period
                                case Year => true
                                case Quarter => (a.month - 1) / 3 == (b.month - 1) / 3
                                case Month => a.month == b.month
  {
    var x, y := BucketOf(a, period), BucketOf(b, period);
    assert x == y ==> x[0] == y[0];
    assert !period.Year? && x == y ==> x[1] == y[1];
  }

  /** Later timestamps never fall into earlier periods. */
  lemma PeriodsFollowTime(a: DateTime, b: DateTime, period: PeriodType)
    requires Proper(a) && Proper(b) && Moment(a) <= Moment(b)
    ensures PeriodIndex(a, period) <= PeriodIndex(b, period)
  {
    MomentsOrderMonths(a, b);
  }

  /** A bucket starts with the first moment that falls into it. */
  lemma BucketStartsFirst(ts: DateTime, period: PeriodType)
    requires Proper(ts)
    ensures var start := BucketStart(BucketOf(ts, period), period);
            Proper(start) && BucketOf(start, period) == BucketOf(ts, period) && Moment(start) <= Moment(ts)
  {
    var start := BucketStart(BucketOf(ts, period), period);
    assert 28 <= DaysInMonth(start.year, start.month);
    hide DaysInMonth, DaysBeforeYear, IsLeap;
    assert MonthIndex(start) <= MonthIndex(ts);
    if MonthIndex(start) < MonthIndex(ts) {
      hide Moment, MonthIndex;
      LaterMonthIsLater(start, ts);
    } else {
      assert start.year == ts.year && start.month == ts.month;
    }
  }

  // ----- Grouping -----

  function InBucket<T>(records: seq<T>, timeOf: T -> DateTime, period: PeriodType, bucket: Bucket): seq<T> {
    if records == [] then [] else
      var last := records[|records| - 1];
      InBucket(records[..|records| - 1], timeOf, period, bucket) +
        if BucketOf(timeOf(last), period) == bucket then [last] else []
  }

  function Grouped<T>(groups: map<Bucket, seq<T>>, bucket: Bucket): seq<T> {
    if bucket in groups then groups[bucket] else []
  }

  method GroupByPeriod<T>(
    records: seq<T>, timeOf: T -> DateTime, period: PeriodType)
    returns (groups: map<Bucket, seq<T>>)
    ensures forall bucket :: Grouped(groups, bucket) == InBucket(records, timeOf, period, bucket)
  {
    groups := map[];
    var k := 0;
    while k < |records|
      invariant 0 <= k <= |records|
      invariant forall bucket :: Grouped(groups, bucket) == InBucket(records[..k], timeOf, period, bucket)
    {
      assert records[..k + 1][..k] == records[..k];
      var bucket := BucketOf(timeOf(records[k]), period);
      groups := groups[bucket := Grouped(groups, bucket) + [records[k]]];
      k := k + 1;
    }
    assert records[..k] == records;
  }

  /** The points cut wherever the bucket changes. */
  function Chunks(points: seq<Sample>, period: PeriodType): (chunks: seq<seq<Sample>>)
    ensures forall k :: 0 <= k < |chunks| ==> chunks[k] != []
  {
    if points == [] then [] else
      var chunks, p := Chunks(points[..|points| - 1], period), points[|points| - 1];
      if chunks != [] && ChunkBucket(chunks[|chunks| - 1], period) == BucketOf(p.ts, period)
      then chunks[..|chunks| - 1] + [chunks[|chunks| - 1] + [p]]
      else chunks + [[p]]
  }

  function ChunkBucket(chunk: seq<Sample>, period: PeriodType): Bucket
    requires chunk != []
  {
    BucketOf(chunk[0].ts, period)
  }

  function Equities(points: seq<Sample>): seq<real> {
    if points == [] then [] else Equities(points[..|points| - 1]) + [points[|points| - 1].equity]
  }

  // ----- Entries -----

  function FillTime(f: FillRecord): DateTime {
    f.time
  }

  function SignalTime(s: SignalRecord): DateTime {
    s.time
  }

  function RecordedNotional(f: FillRecord): real {
    f.price * f.qty
  }

  function RecordedFee(f: FillRecord): real {
    f.fee
  }

  function RecordedSlippage(f: FillRecord): real {
    f.slippage
  }

  function PeriodReturn(start: real, end: real): real {
    if start == 0.0 then 0.0 else (end - start) / start
  }

  function EntryOf(
    period: PeriodType, chunk: seq<Sample>, start: real, fills: seq<FillRecord>, signals: seq<SignalRecord>,
    initialCash: real): Entry
    requires chunk != []
  {
    var end := chunk[|chunk| - 1];
    Entry(
      period, BucketStart(ChunkBucket(chunk, period), period), end.ts, start, end.equity,
      PeriodReturn(start, end.equity),
      DeepestDrawdown(start, Equities(chunk)),
      if initialCash > 0.0 then Sum(fills, RecordedNotional) / initialCash else 0.0,
      Sum(fills, RecordedFee), Sum(fills, RecordedSlippage), |signals|, |fills|)
  }

  method BuildEntry(
    period: PeriodType, chunk: seq<Sample>, start: real, fills: seq<FillRecord>, signals: seq<SignalRecord>,
    initialCash: real)
    returns (entry: Entry)
    requires chunk != []
    ensures entry == EntryOf(period, chunk, start, fills, signals, initialCash)
  {
    hide PeakOf, DeepestDrawdown, Equities, Sum;
    var end := chunk[|chunk| - 1];
    var peak, deepest := start, 0.0;
    NothingSummed(start);
    var k := 0;
    while k < |chunk|
      invariant 0 <= k <= |chunk|
      invariant peak == PeakOf(start, Equities(chunk[..k])) && deepest == DeepestDrawdown(start, Equities(chunk[..k]))
    {
      EquitiesStep(chunk, k);
      OneMoreEquity(start, Equities(chunk[..k]), chunk[k].equity);
      DeepestIsNatural(start, Equities(chunk[..k]));
      peak := Max(peak, chunk[k].equity);
      if peak > 0.0 {
        deepest := Max(deepest, (peak - chunk[k].equity) / peak);
      }
      k := k + 1;
    }
    assert chunk[..k] == chunk;
    var notional, fees, slippage := 0.0, 0.0, 0.0;
    var j := 0;
    while j < |fills|
      invariant 0 <= j <= |fills|
      invariant notional == Sum(fills[..j], RecordedNotional)
      invariant fees == Sum(fills[..j], RecordedFee) && slippage == Sum(fills[..j], RecordedSlippage)
    {
      assert fills[..j + 1] == fills[..j] + [fills[j]];
      SumOne(fills[..j], fills[j], RecordedNotional);
      SumOne(fills[..j], fills[j], RecordedFee);
      SumOne(fills[..j], fills[j], RecordedSlippage);
      notional := notional + fills[j].price * fills[j].qty;
      fees := fees + fills[j].fee;
      slippage := slippage + fills[j].slippage;
      j := j + 1;
    }
    assert fills[..j] == fills;
    entry := Entry(
      period, BucketStart(ChunkBucket(chunk, period), period), end.ts, start, end.equity,
      if start == 0.0 then 0.0 else (end.equity - start) / start, deepest,
      if initialCash > 0.0 then notional / initialCash else 0.0, fees, slippage, |signals|, |fills|);
  }

  lemma NothingSummed(start: real)
    ensures Equities([]) == [] && PeakOf(start, []) == start && DeepestDrawdown(start, []) == 0.0
    ensures forall f: FillRecord -> real :: Sum([], f) == 0.0
  {
  }

  lemma EquitiesStep(points: seq<Sample>, k: nat)
    requires k < |points|
    ensures Equities(points[..k + 1]) == Equities(points[..k]) + [points[k].equity]
  {
    assert points[..k + 1][..k] == points[..k];
  }

  // ----- The breakdown -----

  /** The equity a chunk starts from: the end of the one before, or the initial cash. */
  function StartOf(chunks: seq<seq<Sample>>, k: nat, initialCash: real): real
    requires k <= |chunks| && forall i :: 0 <= i < |chunks| ==> chunks[i] != []
  {
    if k == 0 then initialCash else chunks[k - 1][|chunks[k - 1]| - 1].equity
  }

  function EntryAt(
    period: PeriodType, chunks: seq<seq<Sample>>, k: nat, fills: seq<FillRecord>, signals: seq<SignalRecord>,
    initialCash: real): Entry
    requires k < |chunks| && forall i :: 0 <= i < |chunks| ==> chunks[i] != []
  {
    var bucket := ChunkBucket(chunks[k], period);
    EntryOf(period, chunks[k], StartOf(chunks, k, initialCash), InBucket(fills, FillTime, period, bucket),
            InBucket(signals, SignalTime, period, bucket), initialCash)
  }

  function Entries(
    period: PeriodType, chunks: seq<seq<Sample>>, n: nat, fills: seq<FillRecord>, signals: seq<SignalRecord>,
    initialCash: real): seq<Entry>
    requires n <= |chunks| && forall i :: 0 <= i < |chunks| ==> chunks[i] != []
  {
    seq(n, k requires 0 <= k < n => EntryAt(period, chunks, k, fills, signals, initialCash))
  }

  function Breakdown(
    period: PeriodType, points: seq<Sample>, fills: seq<FillRecord>, signals: seq<SignalRecord>, initialCash: real)
    : seq<Entry>
  {
    var chunks := Chunks(points, period);
    Entries(period, chunks, |chunks|, fills, signals, initialCash)
  }

  /** A chunk's entry does not change while later chunks grow. */
  lemma EntriesStay(
    period: PeriodType, a: seq<seq<Sample>>, b: seq<seq<Sample>>, n: nat, fills: seq<FillRecord>,
    signals: seq<SignalRecord>, initialCash: real)
    requires n <= |a| && n <= |b| && a[..n] == b[..n]
    requires forall i :: 0 <= i < |a| ==> a[i] != []
    requires forall i :: 0 <= i < |b| ==> b[i] != []
    ensures Entries(period, a, n, fills, signals, initialCash) == Entries(period, b, n, fills, signals, initialCash)
    ensures StartOf(a, n, initialCash) == StartOf(b, n, initialCash)
  {
    hide EntryOf, InBucket, ChunkBucket;
    assert forall k :: 0 <= k < n ==> a[k] == a[..n][k] == b[k];
  }

  lemma ChunksStep(points: seq<Sample>, k: nat, period: PeriodType)
    requires k < |points|
    ensures var chunks, longer := Chunks(points[..k], period), Chunks(points[..k + 1], period);
            longer == if chunks != [] && ChunkBucket(chunks[|chunks| - 1], period) == BucketOf(points[k].ts, period)
                      then chunks[..|chunks| - 1] + [chunks[|chunks| - 1] + [points[k]]]
                      else chunks + [[points[k]]]
  {
    assert points[..k + 1][..k] == points[..k];
  }

  method BuildPeriodBreakdown(
    period: PeriodType, points: seq<Sample>, fills: seq<FillRecord>, signals: seq<SignalRecord>, initialCash: real)
    returns (entries: seq<Entry>)
    ensures entries == Breakdown(period, points, fills, signals, initialCash)
  {
    hide EntryOf, BucketOf, InBucket, Chunks, Entries, FillTime, SignalTime;
    entries := [];
    if points == [] {
      NoChunks(period);
      NoEntries(period, [], fills, signals, initialCash);
      return;
    }
    var fillsByBucket := GroupByPeriod(fills, FillTime, period);
    var signalsByBucket := GroupByPeriod(signals, SignalTime, period);
    var baseline := initialCash;
    var bucket := BucketOf(points[0].ts, period);
    var current := [points[0]];
    var k := 1;
    NoChunks(period);
    NoEntries(period, [current], fills, signals, initialCash);
    ChunksStep(points, 0, period);
    ghost var chunks := [[points[0]]];
    while k < |points|
      invariant 1 <= k <= |points|
      invariant chunks == Chunks(points[..k], period) && chunks != []
      invariant current == chunks[|chunks| - 1] && ChunkBucket(current, period) == bucket
      invariant baseline == StartOf(chunks, |chunks| - 1, initialCash)
      invariant entries == Entries(period, chunks, |chunks| - 1, fills, signals, initialCash)
    {
      var p := points[k];
      var b := BucketOf(p.ts, period);
      ChunksStep(points, k, period);
      ghost var longer := Chunks(points[..k + 1], period);
      if b != bucket {
        EntriesStay(period, chunks, longer, |chunks|, fills, signals, initialCash);
        EntriesGrow(period, chunks, |chunks| - 1, fills, signals, initialCash);
        var entry :=
          BuildEntry(period, current, baseline, Grouped(fillsByBucket, bucket), Grouped(signalsByBucket, bucket),
              initialCash);
        entries := entries + [entry];
        baseline := current[|current| - 1].equity;
        bucket := b;
        current := [];
      } else {
        EntriesStay(period, chunks, longer, |chunks| - 1, fills, signals, initialCash);
      }
      current := current + [p];
      chunks := longer;
      k := k + 1;
    }
    assert points[..k] == points;
    EntriesGrow(period, chunks, |chunks| - 1, fills, signals, initialCash);
    var entry :=
      BuildEntry(period, current, baseline, Grouped(fillsByBucket, bucket), Grouped(signalsByBucket, bucket),
          initialCash);
    entries := entries + [entry];
  }

  lemma EntriesGrow(
    period: PeriodType, chunks: seq<seq<Sample>>, n: nat, fills: seq<FillRecord>, signals: seq<SignalRecord>,
    initialCash: real)
    requires n < |chunks| && forall i :: 0 <= i < |chunks| ==> chunks[i] != []
    ensures Entries(period, chunks, n + 1, fills, signals, initialCash) ==
            Entries(period, chunks, n, fills, signals, initialCash) +
              [EntryAt(period, chunks, n, fills, signals, initialCash)]
  {
    hide EntryAt;
  }

  lemma NoEntries(
    period: PeriodType, chunks: seq<seq<Sample>>, fills: seq<FillRecord>, signals: seq<SignalRecord>,
    initialCash: real)
    requires forall i :: 0 <= i < |chunks| ==> chunks[i] != []
    ensures Entries(period, chunks, 0, fills, signals, initialCash) == []
  {
  }

  lemma NoChunks(period: PeriodType)
    ensures Chunks([], period) == []
  {
  }

  // ----- What the entries amount to -----

  predicate InTimeOrder(points: seq<Sample>) {
    && (forall k :: 0 <= k < |points| ==> Proper(points[k].ts))
    && (forall i, j :: 0 <= i < j < |points| ==> Moment(points[i].ts) <= Moment(points[j].ts))
  }

  /** The chunks are the points in order. */
  lemma {:induction false} ChunksPartition(points: seq<Sample>, period: PeriodType)
    ensures Concat(Chunks(points, period)) == points
  {
    hide BucketOf, Concat;
    ConcatGrows<Sample>([], []);
    if points != [] {
      var init, p := points[..|points| - 1], points[|points| - 1];
      ChunksPartition(init, period);
      var chunks := Chunks(init, period);
      ConcatGrows(chunks, [p]);
      if chunks != [] {
        ConcatGrows(chunks[..|chunks| - 1], chunks[|chunks| - 1]);
        ConcatGrows(chunks[..|chunks| - 1], chunks[|chunks| - 1] + [p]);
        assert chunks == chunks[..|chunks| - 1] + [chunks[|chunks| - 1]];
      }
    }
  }

  predicate OneBucket(chunk: seq<Sample>, period: PeriodType) {
    chunk != [] && forall k :: 0 <= k < |chunk| ==> BucketOf(chunk[k].ts, period) == ChunkBucket(chunk, period)
  }

  /** Every point lies in the bucket of its chunk, chunks take their points from the list, and neighbours differ. */
  predicate WellCut(chunks: seq<seq<Sample>>, points: seq<Sample>, period: PeriodType) {
    && (forall k :: 0 <= k < |chunks| ==> OneBucket(chunks[k], period))
    && (forall k :: 0 <= k < |chunks| ==> FirstIsIn(chunks[k], points))
    && (forall k :: 0 < k < |chunks| ==> Differ(chunks[k - 1], chunks[k], period))
  }

  predicate FirstIsIn(chunk: seq<Sample>, points: seq<Sample>) {
    chunk != [] && chunk[0] in points
  }

  predicate Differ(a: seq<Sample>, b: seq<Sample>, period: PeriodType) {
    a != [] && b != [] && ChunkBucket(a, period) != ChunkBucket(b, period)
  }

  lemma {:induction false} ChunksAreBuckets(points: seq<Sample>, period: PeriodType)
    ensures WellCut(Chunks(points, period), points, period)
  {
    hide BucketOf, WellCut;
    if points == [] {
      NothingToCut(period);
    } else {
      var init, p := points[..|points| - 1], points[|points| - 1];
      ChunksAreBuckets(init, period);
      assert points == init + [p];
      var chunks := Chunks(init, period);
      if chunks != [] && ChunkBucket(chunks[|chunks| - 1], period) == BucketOf(p.ts, period) {
        CutGrows(chunks, init, p, period);
      } else {
        CutBegins(chunks, init, p, period);
      }
    }
  }

  lemma NothingToCut(period: PeriodType)
    ensures WellCut([], [], period)
  {
  }

  lemma CutGrows(chunks: seq<seq<Sample>>, init: seq<Sample>, p: Sample, period: PeriodType)
    requires WellCut(chunks, init, period) && chunks != [] && chunks[|chunks| - 1] != []
    requires ChunkBucket(chunks[|chunks| - 1], period) == BucketOf(p.ts, period)
    ensures WellCut(chunks[..|chunks| - 1] + [chunks[|chunks| - 1] + [p]], init + [p], period)
  {
    hide BucketOf, OneBucket;
    var n := |chunks|;
    GrownBucket(chunks[n - 1], p, period);
    var longer := chunks[..n - 1] + [chunks[n - 1] + [p]];
    forall k | 0 <= k < n ensures FirstIsIn(longer[k], init + [p]) {
      assert FirstIsIn(chunks[k], init) && longer[k][0] == chunks[k][0];
    }
    forall k | 0 < k < n ensures Differ(longer[k - 1], longer[k], period) {
      assert Differ(chunks[k - 1], chunks[k], period);
    }
  }

  lemma CutBegins(chunks: seq<seq<Sample>>, init: seq<Sample>, p: Sample, period: PeriodType)
    requires WellCut(chunks, init, period)
    requires chunks != [] ==>
             chunks[|chunks| - 1] != [] && ChunkBucket(chunks[|chunks| - 1], period) != BucketOf(p.ts, period)
    ensures WellCut(chunks + [[p]], init + [p], period)
  {
    hide BucketOf, OneBucket;
    SingleBucket(p, period);
    var longer := chunks + [[p]];
    forall k | 0 <= k < |longer| ensures FirstIsIn(longer[k], init + [p]) {
      assert k < |chunks| ==> FirstIsIn(chunks[k], init);
    }
    forall k | 0 < k < |longer| ensures Differ(longer[k - 1], longer[k], period) {
      assert k < |chunks| ==> Differ(chunks[k - 1], chunks[k], period);
    }
  }

  lemma SingleBucket(p: Sample, period: PeriodType)
    ensures OneBucket([p], period)
  {
    hide BucketOf;
  }

  lemma GrownBucket(chunk: seq<Sample>, p: Sample, period: PeriodType)
    requires OneBucket(chunk, period) && ChunkBucket(chunk, period) == BucketOf(p.ts, period)
    ensures OneBucket(chunk + [p], period) && ChunkBucket(chunk + [p], period) == ChunkBucket(chunk, period)
  {
    hide BucketOf;
  }

  /** Each chunk belongs to a later period than the ones before it. */
  predicate PeriodsAscend(chunks: seq<seq<Sample>>, period: PeriodType) {
    && (forall k :: 0 <= k < |chunks| ==> chunks[k] != [])
    && forall i, j :: 0 <= i < j < |chunks| ==>
       PeriodIndex(chunks[i][0].ts, period) < PeriodIndex(chunks[j][0].ts, period)
  }

  lemma AscentGrows(chunks: seq<seq<Sample>>, p: Sample, period: PeriodType)
    requires PeriodsAscend(chunks, period) && chunks != []
    ensures PeriodsAscend(chunks[..|chunks| - 1] + [chunks[|chunks| - 1] + [p]], period)
  {
    hide PeriodIndex;
    var longer := chunks[..|chunks| - 1] + [chunks[|chunks| - 1] + [p]];
    assert forall k :: 0 <= k < |longer| ==> longer[k] != [] && longer[k][0] == chunks[k][0];
  }

  lemma AscentContinues(chunks: seq<seq<Sample>>, p: Sample, period: PeriodType)
    requires PeriodsAscend(chunks, period)
    requires chunks != [] ==> PeriodIndex(chunks[|chunks| - 1][0].ts, period) < PeriodIndex(p.ts, period)
    ensures PeriodsAscend(chunks + [[p]], period)
  {
    hide PeriodIndex;
    var longer := chunks + [[p]];
    assert forall k :: 0 <= k < |chunks| ==> longer[k][0] == chunks[k][0];
  }

  /** With the points in time order no bucket appears twice. */
  lemma {:induction false} ChunksAscend(points: seq<Sample>, period: PeriodType)
    requires InTimeOrder(points)
    ensures PeriodsAscend(Chunks(points, period), period)
  {
    hide BucketOf, PeriodIndex, PeriodsAscend;
    if points == [] {
      NothingAscends(period);
    } else {
      var init, p := points[..|points| - 1], points[|points| - 1];
      ChunksAscend(init, period);
      var chunks := Chunks(init, period);
      if chunks != [] && ChunkBucket(chunks[|chunks| - 1], period) == BucketOf(p.ts, period) {
        AscentGrows(chunks, p, period);
      } else {
        if chunks != [] { NewBucketIsLater(init, p, period); }
        AscentContinues(chunks, p, period);
      }
    }
  }

  lemma NothingAscends(period: PeriodType)
    ensures PeriodsAscend([], period)
  {
  }

  lemma NewBucketIsLater(init: seq<Sample>, p: Sample, period: PeriodType)
    requires InTimeOrder(init + [p]) && Chunks(init, period) != []
    requires ChunkBucket(Chunks(init, period)[|Chunks(init, period)| - 1], period) != BucketOf(p.ts, period)
    ensures PeriodIndex(Chunks(init, period)[|Chunks(init, period)| - 1][0].ts, period) < PeriodIndex(p.ts, period)
  {
    hide BucketOf, PeriodIndex, Moment, DaysInMonth, Chunks;
    ChunksAreBuckets(init, period);
    var chunks, points := Chunks(init, period), init + [p];
    var last := chunks[|chunks| - 1][0];
    assert FirstIsIn(chunks[|chunks| - 1], init);
    var k :| 0 <= k < |init| && init[k] == last;
    assert points[k] == last && points[|init|] == p;
    PeriodsFollowTime(last.ts, p.ts, period);
    SameBucketIffSameIndex(last.ts, p.ts, period);
  }

  /** Entries chain: each starts from the equity where the one before ended, the first from the initial cash. */
  lemma EntriesChain(
    period: PeriodType, points: seq<Sample>, fills: seq<FillRecord>, signals: seq<SignalRecord>, initialCash: real)
    ensures var entries := Breakdown(period, points, fills, signals, initialCash);
            && (entries == [] <==> points == [])
            && (entries != [] ==> entries[0].startEquity == initialCash
                                  && entries[|entries| - 1].endEquity == points[|points| - 1].equity
                                  && entries[|entries| - 1].periodEnd == points[|points| - 1].ts)
            && (forall k :: 0 < k < |entries| ==> entries[k].startEquity == entries[k - 1].endEquity)
  {
    hide BucketOf, InBucket, EntryOf, Chunks;
    ChunksEnd(points, period);
    var chunks := Chunks(points, period);
    forall k | 0 <= k < |chunks| ensures
      var e := EntryAt(period, chunks, k, fills, signals, initialCash);
      var end := chunks[k][|chunks[k]| - 1];
      e.startEquity == StartOf(chunks, k, initialCash) && e.endEquity == end.equity && e.periodEnd == end.ts
    {
      EntryBounds(period, chunks, k, fills, signals, initialCash);
    }
  }

  lemma EntryBounds(
    period: PeriodType, chunks: seq<seq<Sample>>, k: nat, fills: seq<FillRecord>, signals: seq<SignalRecord>,
    initialCash: real)
    requires k < |chunks| && forall i :: 0 <= i < |chunks| ==> chunks[i] != []
    ensures var e, end := EntryAt(period, chunks, k, fills, signals, initialCash), chunks[k][|chunks[k]| - 1];
            e.startEquity == StartOf(chunks, k, initialCash) && e.endEquity == end.equity && e.periodEnd == end.ts
  {
    hide BucketOf, InBucket, DeepestDrawdown, Equities, PeriodReturn, Sum;
  }

  lemma ChunksEnd(points: seq<Sample>, period: PeriodType)
    ensures var chunks := Chunks(points, period);
            if points == [] then chunks == []
            else chunks != [] && chunks[|chunks| - 1][|chunks[|chunks| - 1]| - 1] == points[|points| - 1]
  {
    hide BucketOf;
  }

  /**
   * What an entry says of its period: it begins with the first moment that falls into the period and ends with the last
   * point, and its drawdown is the deepest fall of its own points from the highest equity since its start.
   */
  lemma EntryDescribesItsPeriod(
    period: PeriodType, points: seq<Sample>, fills: seq<FillRecord>, signals: seq<SignalRecord>, initialCash: real,
    k: nat)
    requires InTimeOrder(points) && k < |Breakdown(period, points, fills, signals, initialCash)|
    ensures var e, chunk := Breakdown(period, points, fills, signals, initialCash)[k], Chunks(points, period)[k];
            && e.period == period && Proper(e.periodStart) && e.periodEnd == chunk[|chunk| - 1].ts
            && PeriodIndex(e.periodStart, period) == PeriodIndex(e.periodEnd, period)
            && (forall d :: Proper(d) && PeriodIndex(d, period) == PeriodIndex(e.periodEnd, period) ==>
                  Moment(e.periodStart) <= Moment(d))
            && IsDeepest(e.startEquity, Equities(chunk), e.maxDrawdown)
            && (initialCash <= 0.0 ==> e.turnover == 0.0)
  {
    hide Proper, Moment, PeriodIndex, BucketOf, BucketStart, Chunks, InBucket, DeepestDrawdown, IsDeepest, Equities,
      Sum, PeriodReturn, InTimeOrder;
    var e, chunk := Breakdown(period, points, fills, signals, initialCash)[k], Chunks(points, period)[k];
    DeepestIsDeepest(e.startEquity, Equities(chunk));
    EndsAreProper(points, period, k);
    PeriodStartIsFirst(chunk[0].ts, period);
    var last := chunk[|chunk| - 1].ts;
    SameIndexIfSameBucket(chunk[0].ts, last, period);
  }

  lemma EndsAreProper(points: seq<Sample>, period: PeriodType, k: nat)
    requires InTimeOrder(points) && k < |Chunks(points, period)|
    ensures var chunk := Chunks(points, period)[k];
            && Proper(chunk[0].ts) && Proper(chunk[|chunk| - 1].ts)
            && BucketOf(chunk[|chunk| - 1].ts, period) == BucketOf(chunk[0].ts, period)
  {
    hide Proper, Moment, Chunks, BucketOf;
    ChunksAreBuckets(points, period);
    ChunksPartition(points, period);
    var chunks := Chunks(points, period);
    var chunk := chunks[k];
    assert OneBucket(chunk, period);
    forall p | p in chunk ensures Proper(p.ts) { InConcat(chunks, k, p); }
    assert chunk[0] in chunk && chunk[|chunk| - 1] in chunk;
  }

  lemma {:induction false} InConcat(chunks: seq<seq<Sample>>, k: nat, p: Sample)
    requires k < |chunks| && p in chunks[k]
    ensures p in Concat(chunks)
  {
    if k < |chunks| - 1 { InConcat(chunks[..|chunks| - 1], k, p); }
  }

  lemma SameIndexIfSameBucket(a: DateTime, b: DateTime, period: PeriodType)
    requires Proper(a) && Proper(b)
    ensures BucketOf(a, period) == BucketOf(b, period) <==> PeriodIndex(a, period) == PeriodIndex(b, period)
  {
    SameBucketIffSameIndex(a, b, period);
  }

  lemma PeriodStartIsFirst(ts: DateTime, period: PeriodType)
    requires Proper(ts)
    ensures var start := BucketStart(BucketOf(ts, period), period);
            && Proper(start) && PeriodIndex(start, period) == PeriodIndex(ts, period)
            && forall d :: Proper(d) && PeriodIndex(d, period) == PeriodIndex(ts, period) ==> Moment(start) <= Moment(d)
  {
    var start := BucketStart(BucketOf(ts, period), period);
    hide Moment, PeriodIndex, BucketStart, DaysInMonth;
    BucketStartsFirst(ts, period);
    SameIndexIfSameBucket(start, ts, period);
    forall d | Proper(d) && PeriodIndex(d, period) == PeriodIndex(ts, period) ensures Moment(start) <= Moment(d) {
      SameIndexIfSameBucket(d, ts, period);
      BucketStartsFirst(d, period);
    }
  }

  function Compounded(entries: seq<Entry>): real {
    if entries == [] then 1.0 else Compounded(entries[..|entries| - 1]) * (1.0 + entries[|entries| - 1].totalReturn)
  }

  function Growth(from: real, to: real): real
    requires from != 0.0
  {
    to / from
  }

  /** Entries that start where the one before ended, none of them at zero. */
  predicate Chained(entries: seq<Entry>) {
    && (forall k :: 0 < k < |entries| ==> entries[k].startEquity == entries[k - 1].endEquity)
    && (forall k :: 0 <= k < |entries| ==>
          entries[k].startEquity != 0.0
            && entries[k].totalReturn == PeriodReturn(entries[k].startEquity, entries[k].endEquity))
  }

  /** Returns that chain compound to the ratio of the last equity to the first. */
  lemma {:induction false} ChainedReturnsCompound(entries: seq<Entry>)
    requires entries != [] && Chained(entries)
    ensures entries[0].startEquity != 0.0
    ensures Compounded(entries) == Growth(entries[0].startEquity, entries[|entries| - 1].endEquity)
  {
    hide Growth, PeriodReturn;
    var init, last := entries[..|entries| - 1], entries[|entries| - 1];
    if init == [] {
      assert Compounded(init) == 1.0;
      OwnGrowth(last.startEquity, last.endEquity);
    } else {
      ChainedReturnsCompound(init);
      GrowthCompounds(entries[0].startEquity, last.startEquity, last.endEquity);
    }
  }

  lemma GrowthCompounds(first: real, start: real, end: real)
    requires first != 0.0 && start != 0.0
    ensures Growth(first, start) * (1.0 + PeriodReturn(start, end)) == Growth(first, end)
  {
    var q := (end - start) / start;
    assert q * start == end - start;
    assert start * (1.0 + q) == end;
    assert start / first * (1.0 + q) == start * (1.0 + q) / first;
  }

  lemma OwnGrowth(start: real, end: real)
    requires start != 0.0
    ensures 1.0 + PeriodReturn(start, end) == Growth(start, end)
  {
    var q, r := (end - start) / start, end / start;
    assert q * start == end - start && r * start == end;
    var d := 1.0 + q - r;
    assert d * start == 0.0;
  }

  /** When no entry starts from zero, the period returns compound to the return of the whole run. */
  lemma ReturnsCompound(
    period: PeriodType, points: seq<Sample>, fills: seq<FillRecord>, signals: seq<SignalRecord>, initialCash: real)
    requires points != []
    requires forall e :: e in Breakdown(period, points, fills, signals, initialCash) ==> e.startEquity != 0.0
    ensures initialCash != 0.0
    ensures Compounded(Breakdown(period, points, fills, signals, initialCash)) ==
            points[|points| - 1].equity / initialCash
  {
    var entries := Breakdown(period, points, fills, signals, initialCash);
    EntriesChain(period, points, fills, signals, initialCash);
    hide BucketOf, InBucket, DeepestDrawdown, Equities, PeriodReturn, Compounded, Chunks;
    assert forall k :: 0 <= k < |entries| ==> entries[k] in entries;
    ChainedReturnsCompound(entries);
  }
}
