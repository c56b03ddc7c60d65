/** What the entries of a breakdown add up to, and how deep they can fall. */
module PeriodTotals {
  import opened Sequences
  import opened Calendar
  import opened Performance
  import opened Periods

  // ----- Sums over the entries -----

  function BucketsOf(chunks: seq<seq<Sample>>, period: PeriodType): seq<Bucket>
    requires forall i :: 0 <= i < |chunks| ==> chunks[i] != []
  {
    seq(|chunks|, i requires 0 <= i < |chunks| => ChunkBucket(chunks[i], period))
  }

  /** The records whose bucket is one of the given ones. */
  function Counted<T>(records: seq<T>, timeOf: T -> DateTime, period: PeriodType, buckets: seq<Bucket>): seq<T> {
    if records == [] then [] else
      var last := records[|records| - 1];
      Counted(records[..|records| - 1], timeOf, period, buckets) +
        if BucketOf(timeOf(last), period) in buckets then [last] else []
  }

  function SumByBucket<T>(
    records: seq<T>, timeOf: T -> DateTime, period: PeriodType, buckets: seq<Bucket>, f: T -> real): real {
    if buckets == [] then 0.0 else
      SumByBucket(records, timeOf, period, buckets[..|buckets| - 1], f)
      + Sum(InBucket(records, timeOf, period, buckets[|buckets| - 1]), f)
  }

  lemma OneMoreInBucket<T>(records: seq<T>, timeOf: T -> DateTime, period: PeriodType, bucket: Bucket, f: T -> real)
    requires records != []
    ensures var init, x := records[..|records| - 1], records[|records| - 1];
            Sum(InBucket(records, timeOf, period, bucket), f) ==
            Sum(InBucket(init, timeOf, period, bucket), f) + if BucketOf(timeOf(x), period) == bucket then f(x) else 0.0
  {
    hide BucketOf;
    var init, x := records[..|records| - 1], records[|records| - 1];
    var mine := InBucket(init, timeOf, period, bucket);
    assert InBucket(records, timeOf, period, bucket) ==
      if BucketOf(timeOf(x), period) == bucket then mine + [x] else mine;
    hide InBucket, Sum;
    SumOne(mine, x, f);
  }

  /** One more record adds its own amount to the bucket it falls into, if that is among them. */
  lemma {:induction false} OneMoreRecord<T>(
    records: seq<T>, timeOf: T -> DateTime, period: PeriodType, buckets: seq<Bucket>, f: T -> real)
    requires records != [] && Distinct(buckets)
    ensures var init, x := records[..|records| - 1], records[|records| - 1];
            SumByBucket(records, timeOf, period, buckets, f) ==
            SumByBucket(init, timeOf, period, buckets, f) + if BucketOf(timeOf(x), period) in buckets then f(x) else 0.0
  {
    hide BucketOf, InBucket, Sum;
    if buckets != [] {
      var rest, b := buckets[..|buckets| - 1], buckets[|buckets| - 1];
      OneMoreRecord(records, timeOf, period, rest, f);
      OneMoreInBucket(records, timeOf, period, b, f);
      LastBucket(buckets, BucketOf(timeOf(records[|records| - 1]), period));
    }
  }

  lemma LastBucket(buckets: seq<Bucket>, b: Bucket)
    requires buckets != [] && Distinct(buckets)
    ensures var rest, last := buckets[..|buckets| - 1], buckets[|buckets| - 1];
            && (b in buckets <==> b in rest || b == last) && (b in rest ==> b != last)
  {
    assert buckets == buckets[..|buckets| - 1] + [buckets[|buckets| - 1]];
  }

  /** Distinct buckets split the records they cover. */
  lemma {:induction false} BucketsSplit<T>(
    records: seq<T>, timeOf: T -> DateTime, period: PeriodType, buckets: seq<Bucket>, f: T -> real)
    requires Distinct(buckets)
    ensures SumByBucket(records, timeOf, period, buckets, f) == Sum(Counted(records, timeOf, period, buckets), f)
  {
    hide BucketOf;
    if records == [] {
      NothingToSum(timeOf, period, buckets, f);
    } else {
      var init, x := records[..|records| - 1], records[|records| - 1];
      OneMoreRecord(records, timeOf, period, buckets, f);
      BucketsSplit(init, timeOf, period, buckets, f);
      SumOne(Counted(init, timeOf, period, buckets), x, f);
      var taken := Counted(init, timeOf, period, buckets);
      assert Counted(records, timeOf, period, buckets) ==
        if BucketOf(timeOf(x), period) in buckets then taken + [x] else taken;
    }
  }

  lemma {:induction false} NothingToSum<T>(
    timeOf: T -> DateTime, period: PeriodType, buckets: seq<Bucket>, f: T -> real)
    ensures SumByBucket([], timeOf, period, buckets, f) == 0.0
  {
    if buckets != [] {
      NothingToSum(timeOf, period, buckets[..|buckets| - 1], f);
    }
  }

  lemma {:induction false} AllCounted<T>(
    records: seq<T>, timeOf: T -> DateTime, period: PeriodType, buckets: seq<Bucket>)
    requires forall r :: r in records ==> BucketOf(timeOf(r), period) in buckets
    ensures Counted(records, timeOf, period, buckets) == records
  {
    hide BucketOf;
    if records != [] {
      AllCounted(records[..|records| - 1], timeOf, period, buckets);
    }
  }

  /** Each entry's g is the sum of f over the records of its bucket. */
  ghost predicate TakesOwn<T>(
    period: PeriodType, chunks: seq<seq<Sample>>, fills: seq<FillRecord>, signals: seq<SignalRecord>,
    initialCash: real, g: Entry -> real, records: seq<T>, timeOf: T -> DateTime, f: T -> real)
    requires forall i :: 0 <= i < |chunks| ==> chunks[i] != []
  {
    forall k :: 0 <= k < |chunks| ==> g(EntryAt(period, chunks, k, fills, signals, initialCash)) ==
                                      Sum(InBucket(records, timeOf, period, ChunkBucket(chunks[k], period)), f)
  }

  /** An amount that each entry takes from its own records adds up bucket by bucket. */
  lemma {:induction false} EntriesSumBuckets<T>(
    period: PeriodType, chunks: seq<seq<Sample>>, n: nat, fills: seq<FillRecord>, signals: seq<SignalRecord>,
    initialCash: real, g: Entry -> real, records: seq<T>, timeOf: T -> DateTime, f: T -> real)
    requires n <= |chunks| && forall i :: 0 <= i < |chunks| ==> chunks[i] != []
    requires TakesOwn(period, chunks, fills, signals, initialCash, g, records, timeOf, f)
    ensures Sum(Entries(period, chunks, n, fills, signals, initialCash), g) ==
            SumByBucket(records, timeOf, period, BucketsOf(chunks, period)[..n], f)
  {
    hide EntryAt, InBucket, ChunkBucket;
    if n == 0 {
      NoEntries(period, chunks, fills, signals, initialCash);
    } else {
      EntriesSumBuckets(period, chunks, n - 1, fills, signals, initialCash, g, records, timeOf, f);
      EntriesGrow(period, chunks, n - 1, fills, signals, initialCash);
      SumOne(Entries(period, chunks, n - 1, fills, signals, initialCash),
          EntryAt(period, chunks, n - 1, fills, signals, initialCash), g);
      hide Entries, Sum;
      var buckets := BucketsOf(chunks, period);
      assert buckets[..n][..n - 1] == buckets[..n - 1];
    }
  }

  lemma BucketsAreDistinct(points: seq<Sample>, period: PeriodType)
    requires InTimeOrder(points)
    ensures Distinct(BucketsOf(Chunks(points, period), period))
  {
    ChunksAscend(points, period);
    ChunksAreBuckets(points, period);
    hide Chunks, BucketOf, PeriodIndex;
    var chunks := Chunks(points, period);
    forall i, j | 0 <= i < j < |chunks| ensures ChunkBucket(chunks[i], period) != ChunkBucket(chunks[j], period) {
      assert FirstIsIn(chunks[i], points) && FirstIsIn(chunks[j], points);
      SameBucketIffSameIndex(chunks[i][0].ts, chunks[j][0].ts, period);
    }
  }

  function FeeCostOf(e: Entry): real {
    e.feeCost
  }

  function SlippageCostOf(e: Entry): real {
    e.slippageCost
  }

  function FillCountOf(e: Entry): real {
    e.fillCount as real
  }

  function TurnoverOf(e: Entry): real {
    e.turnover
  }

  function SignalCountOf(e: Entry): real {
    e.signalCount as real
  }

  function One<T>(r: T): real {
    1.0
  }

  lemma {:induction false} CountIsSum<T>(records: seq<T>)
    ensures Sum(records, One) == |records| as real
  {
    if records != [] {
      CountIsSum(records[..|records| - 1]);
    }
  }

  function Scaled<T>(f: T -> real, d: real): T -> real
    requires d != 0.0
  {
    x => f(x) / d
  }

  lemma {:induction false} SumScales<T>(records: seq<T>, f: T -> real, d: real)
    requires d != 0.0
    ensures Sum(records, Scaled(f, d)) == Sum(records, f) / d
  {
    if records != [] {
      var init, x := records[..|records| - 1], records[|records| - 1];
      SumScales(init, f, d);
      SplitQuotient(Sum(init, f), f(x), d);
    }
  }

  lemma SplitQuotient(a: real, b: real, d: real)
    requires d != 0.0
    ensures (a + b) / d == a / d + b / d
  {
    var p, q, r := (a + b) / d, a / d, b / d;
    assert p * d == a + b && q * d == a && r * d == b;
    var e := p - q - r;
    assert e * d == 0.0;
  }

  /** The fills that some period of the breakdown takes in. */
  function FillsTaken(period: PeriodType, points: seq<Sample>, fills: seq<FillRecord>): seq<FillRecord> {
    Counted(fills, FillTime, period, BucketsOf(Chunks(points, period), period))
  }

  /** The signals that some period of the breakdown counts. */
  function SignalsTaken(period: PeriodType, points: seq<Sample>, signals: seq<SignalRecord>): seq<SignalRecord> {
    Counted(signals, SignalTime, period, BucketsOf(Chunks(points, period), period))
  }

  lemma AmountAddsUp<T>(
    period: PeriodType, points: seq<Sample>, fills: seq<FillRecord>, signals: seq<SignalRecord>, initialCash: real,
    g: Entry -> real, records: seq<T>, timeOf: T -> DateTime, f: T -> real)
    requires InTimeOrder(points)
    requires TakesOwn(period, Chunks(points, period), fills, signals, initialCash, g, records, timeOf, f)
    ensures Sum(Breakdown(period, points, fills, signals, initialCash), g) ==
            Sum(Counted(records, timeOf, period, BucketsOf(Chunks(points, period), period)), f)
  {
    hide Chunks, EntryAt, InBucket, ChunkBucket, Sum, Entries, Counted, SumByBucket, BucketsOf, TakesOwn;
    var chunks := Chunks(points, period);
    EntriesSumBuckets(period, chunks, |chunks|, fills, signals, initialCash, g, records, timeOf, f);
    BucketsAreDistinct(points, period);
    var buckets := BucketsOf(chunks, period);
    BucketCount(chunks, period);
    assert buckets[..|chunks|] == buckets;
    BucketsSplit(records, timeOf, period, buckets, f);
  }

  lemma BucketCount(chunks: seq<seq<Sample>>, period: PeriodType)
    requires forall i :: 0 <= i < |chunks| ==> chunks[i] != []
    ensures |BucketsOf(chunks, period)| == |chunks|
  {
  }

  /**
   * With points in time order nothing is counted twice: fees, slippage, turnover and fill counts of the entries add up
   * to those of the fills whose period has a point, and signal counts to the signals whose period has one.
   */
  lemma TotalsAddUp(
    period: PeriodType, points: seq<Sample>, fills: seq<FillRecord>, signals: seq<SignalRecord>, initialCash: real)
    requires InTimeOrder(points)
    ensures var entries, taken :=
            Breakdown(period, points, fills, signals, initialCash), FillsTaken(period, points, fills);
            && Sum(entries, FeeCostOf) == Sum(taken, RecordedFee)
            && Sum(entries, SlippageCostOf) == Sum(taken, RecordedSlippage)
            && Sum(entries, FillCountOf) == |taken| as real
            && Sum(entries, SignalCountOf) == |SignalsTaken(period, points, signals)| as real
            && (initialCash > 0.0 ==> Sum(entries, TurnoverOf) == Sum(taken, RecordedNotional) / initialCash)
  {
    hide Chunks, InBucket, ChunkBucket, Sum, Entries, Counted, BucketsOf, DeepestDrawdown, Equities, PeriodReturn,
      BucketStart, Breakdown, InTimeOrder;
    var chunks, taken := Chunks(points, period), FillsTaken(period, points, fills);
    AmountAddsUp(period, points, fills, signals, initialCash, FeeCostOf, fills, FillTime, RecordedFee);
    AmountAddsUp(period, points, fills, signals, initialCash, SlippageCostOf, fills, FillTime, RecordedSlippage);
    forall k | 0 <= k < |chunks|
      ensures FillCountOf(EntryAt(period, chunks, k, fills, signals, initialCash)) ==
              Sum(InBucket(fills, FillTime, period, ChunkBucket(chunks[k], period)), One)
    {
      CountIsSum(InBucket(fills, FillTime, period, ChunkBucket(chunks[k], period)));
    }
    AmountAddsUp(period, points, fills, signals, initialCash, FillCountOf, fills, FillTime, One);
    CountIsSum(taken);
    SignalsAddUp(period, points, fills, signals, initialCash);
    if initialCash > 0.0 {
      forall k | 0 <= k < |chunks|
        ensures TurnoverOf(EntryAt(period, chunks, k, fills, signals, initialCash)) ==
                Sum(InBucket(fills, FillTime, period, ChunkBucket(chunks[k], period)),
                    Scaled(RecordedNotional, initialCash))
      {
        SumScales(InBucket(fills, FillTime, period, ChunkBucket(chunks[k], period)), RecordedNotional, initialCash);
      }
      AmountAddsUp(period, points, fills, signals, initialCash, TurnoverOf, fills, FillTime,
          Scaled(RecordedNotional, initialCash));
      SumScales(taken, RecordedNotional, initialCash);
    }
  }

  lemma SignalsAddUp(
    period: PeriodType, points: seq<Sample>, fills: seq<FillRecord>, signals: seq<SignalRecord>, initialCash: real)
    requires InTimeOrder(points)
    ensures Sum(Breakdown(period, points, fills, signals, initialCash), SignalCountOf) ==
            |SignalsTaken(period, points, signals)| as real
  {
    hide Chunks, InBucket, ChunkBucket, Sum, Entries, Counted, BucketsOf, DeepestDrawdown, Equities, PeriodReturn,
      BucketStart, Breakdown, InTimeOrder;
    var chunks := Chunks(points, period);
    forall k | 0 <= k < |chunks|
      ensures SignalCountOf(EntryAt(period, chunks, k, fills, signals, initialCash)) ==
              Sum(InBucket(signals, SignalTime, period, ChunkBucket(chunks[k], period)), One)
    {
      CountIsSum(InBucket(signals, SignalTime, period, ChunkBucket(chunks[k], period)));
    }
    AmountAddsUp(period, points, fills, signals, initialCash, SignalCountOf, signals, SignalTime, One);
    CountIsSum(SignalsTaken(period, points, signals));
  }

  /** When every fill falls into a period that has a point, the entries take in all of them. */
  lemma EveryFillIsTaken(period: PeriodType, points: seq<Sample>, fills: seq<FillRecord>)
    requires forall f :: f in fills ==> exists p :: p in points && BucketOf(p.ts, period) == BucketOf(f.time, period)
    ensures FillsTaken(period, points, fills) == fills
  {
    hide Chunks, BucketOf;
    var buckets := BucketsOf(Chunks(points, period), period);
    forall f | f in fills ensures BucketOf(FillTime(f), period) in buckets {
      var p :| p in points && BucketOf(p.ts, period) == BucketOf(f.time, period);
      PointHasChunk(points, p, period);
    }
    AllCounted(fills, FillTime, period, buckets);
  }

  lemma PointHasChunk(points: seq<Sample>, p: Sample, period: PeriodType)
    requires p in points
    ensures BucketOf(p.ts, period) in BucketsOf(Chunks(points, period), period)
  {
    hide Chunks, BucketOf;
    var chunks := Chunks(points, period);
    ChunksPartition(points, period);
    ChunksAreBuckets(points, period);
    var k := ChunkHolding(chunks, p);
    assert OneBucket(chunks[k], period);
    assert BucketsOf(chunks, period)[k] == BucketOf(p.ts, period);
  }

  lemma {:induction false} ChunkHolding(chunks: seq<seq<Sample>>, p: Sample) returns (k: nat)
    requires p in Concat(chunks)
    ensures k < |chunks| && p in chunks[k]
  {
    k := |chunks| - 1;
    if p !in chunks[k] {
      k := ChunkHolding(chunks[..k], p);
    }
  }
}
