/** Market context over time: the forward cursor against the scan, and the loader's prior row plus window. */
module Cursor {
  import opened Wrappers
  import opened Market
  import opened Calendar

  /** A row with the number its value field holds, if any. */
  datatype Row = Row(time: Instant, value: Option<real>)

  /** The length of the longest run of leading rows that are not after t. */
  function UpTo(rows: seq<Row>, t: Instant): (n: nat)
    ensures n <= |rows|
    ensures forall k :: 0 <= k < n ==> rows[k].time <= t
    ensures n < |rows| ==> rows[n].time > t
  {
    if rows == [] || rows[0].time > t then 0 else
      var n := UpTo(rows[1..], t);
      assert forall k :: 0 < k <= n ==> rows[k] == rows[1..][k - 1];
      n + 1
  }

  function Latest(rows: seq<Row>, t: Instant): Option<Row> {
    var n := UpTo(rows, t);
    if n == 0 then None else Some(rows[n - 1])
  }

  predicate Sorted(rows: seq<Row>) {
    forall a, b :: 0 <= a < b < |rows| ==> rows[a].time <= rows[b].time
  }

  /** On sorted rows the latest row is the last of all rows not after t. */
  lemma LatestIsLatest(rows: seq<Row>, t: Instant)
    requires Sorted(rows)
    ensures Latest(rows, t).Some? <==> exists k :: 0 <= k < |rows| && rows[k].time <= t
    ensures forall k :: 0 <= k < |rows| && rows[k].time <= t ==> rows[k].time <= Latest(rows, t).value.time <= t
  {
    var n := UpTo(rows, t);
    assert n > 0 ==> rows[n - 1].time <= t;
  }

  lemma {:induction false} UpToIs(rows: seq<Row>, t: Instant, n: nat)
    requires n <= |rows| && (forall k :: 0 <= k < n ==> rows[k].time <= t) && (n < |rows| ==> rows[n].time > t)
    ensures UpTo(rows, t) == n
  {
    if n > 0 {
      UpToIs(rows[1..], t, n - 1);
    }
  }

  lemma {:induction false} UpToMonotone(rows: seq<Row>, t: Instant, u: Instant)
    requires t <= u
    ensures UpTo(rows, t) <= UpTo(rows, u)
  {
    if rows != [] && rows[0].time <= t {
      UpToMonotone(rows[1..], t, u);
    }
  }

  method LatestRowBeforeOrAt(rows: seq<Row>, t: Instant) returns (latest: Option<Row>)
    ensures latest == Latest(rows, t)
  {
    latest := None;
    var k := 0;
    while k < |rows|
      invariant 0 <= k <= |rows|
      invariant forall j :: 0 <= j < k ==> rows[j].time <= t
      invariant latest == if k == 0 then None else Some(rows[k - 1])
    {
      if rows[k].time > t {
        break;
      }
      latest := Some(rows[k]);
      k := k + 1;
    }
    UpToIs(rows, t, k);
  }

  // ----- The cursor -----

  datatype Dataset =
    | FundingRate
    | OpenInterest
    | MarkPrice
    | IndexPrice
    | GlobalLongShortAccountRatio
    | TopTraderLongShortAccountRatio
    | TopTraderLongShortPositionRatio
    | TakerLongShortRatio

  const DATASETS: seq<Dataset> := [
    FundingRate, OpenInterest, MarkPrice, IndexPrice, GlobalLongShortAccountRatio,
    TopTraderLongShortAccountRatio, TopTraderLongShortPositionRatio, TakerLongShortRatio]

  type Series = Dataset -> seq<Row>

  /** The naive context: the latest row of every dataset that has one. */
  function ContextAt(series: Series, t: Instant): map<Dataset, Row> {
    map d: Dataset | Latest(series(d), t).Some? :: Latest(series(d), t).value
  }

  /** What the cursor holds for a dataset of which it has read n rows. */
  predicate Holds(latestValues: map<Dataset, Row>, d: Dataset, rows: seq<Row>, n: nat) {
    n <= |rows| && if n == 0 then d !in latestValues else d in latestValues && latestValues[d] == rows[n - 1]
  }

  function Position(positions: map<Dataset, nat>, d: Dataset): nat {
    if d in positions then positions[d] else 0
  }

  // ----- Derived fields -----

  datatype Version = BarsOnly | PerpContext | BreakoutContext

  datatype DerivedFields = DerivedFields(
    minutesToNextFunding: Option<int>,
    oiChange: Option<real>,
    priceChange: Option<real>,
    weakPriceOiPush: Option<bool>)

  datatype Context = Context(latest: map<Dataset, Row>, derived: DerivedFields)

  const NOTHING_DERIVED := DerivedFields(None, None, None, None)

  /** How far back the breakout context compares. */
  const CONTEXT_WINDOW: int := 4 * HOUR

  /** The relative change of the latest value against the one a window earlier. */
  function ChangeOver(rows: seq<Row>, t: Instant): Option<real> {
    var latest, prior := Latest(rows, t), Latest(rows, t - CONTEXT_WINDOW);
    if latest.None? || prior.None? || prior.value.value.GetOr(0.0) == 0.0 then None
    else Some((latest.value.value.GetOr(0.0) - prior.value.value.GetOr(0.0)) / prior.value.value.GetOr(0.0))
  }

  function DerivedAt(version: Version, series: Series, t: Instant): DerivedFields {
    if !version.BreakoutContext? then NOTHING_DERIVED else
      var oi := ChangeOver(series(OpenInterest), t);
      var mark := ChangeOver(series(MarkPrice), t);
      var price := if mark.None? then ChangeOver(series(IndexPrice), t) else mark;
      DerivedFields(Some(MinutesToNextFunding(t)), oi, price,
                    if oi.Some? && price.Some? then Some(oi.value > Abs(price.value)) else None)
  }

  /** Funding is due at 00:00, 08:00 and 16:00 UTC. */
  function NextFunding(minute: Instant): Instant {
    var midnight := minute - minute % MICROS_PER_DAY;
    var nextHour := (minute % MICROS_PER_DAY / HOUR / 8 + 1) * 8;
    if nextHour >= 24 then midnight + MICROS_PER_DAY else midnight + nextHour * HOUR
  }

  function MinutesToNextFunding(t: Instant): int {
    var normalized := t - t % MINUTE;
    (NextFunding(normalized) - normalized) / MINUTE
  }

  lemma NextFundingFollows(minute: Instant)
    ensures var funding := NextFunding(minute);
            funding % (8 * HOUR) == 0 && funding - 8 * HOUR <= minute < funding
  {
    var days, rest := minute / MICROS_PER_DAY, minute % MICROS_PER_DAY;
    var third := rest / HOUR / 8;
    assert NextFunding(minute) == 8 * HOUR * (3 * days + third + 1);
    QuotientIs(NextFunding(minute), 8 * HOUR, 3 * days + third + 1, 0);
  }

  lemma WholeMinutesBetween(a: int, b: int)
    requires a % MINUTE == 0 && b % MINUTE == 0 && a < b <= a + 8 * HOUR
    ensures var m := (b - a) / MINUTE; 0 < m <= 480 && a + m * MINUTE == b
  {
  }

  /** The minutes lead from the current minute to the first funding time after t. */
  lemma NextFundingIsNext(t: Instant)
    ensures var m := MinutesToNextFunding(t);
            var funding := t - t % MINUTE + m * MINUTE;
            0 < m <= 480 && funding % (8 * HOUR) == 0 && funding - 8 * HOUR <= t < funding
  {
    var minute := t - t % MINUTE;
    NextFundingFollows(minute);
    hide NextFunding;
    var funding := NextFunding(minute);
    QuotientIs(minute, MINUTE, t / MINUTE, 0);
    QuotientIs(funding, MINUTE, 480 * (funding / (8 * HOUR)), 0);
    WholeMinutesBetween(minute, funding);
    MinuteFits(t, funding);
  }

  lemma MinuteFits(t: int, b: int)
    requires b % MINUTE == 0 && t - t % MINUTE < b
    ensures t < b
  {
  }

  /** A change of c takes the earlier value to the later one. */
  lemma ChangeIsRelative(rows: seq<Row>, t: Instant)
    requires ChangeOver(rows, t).Some?
    ensures Latest(rows, t).Some? && Latest(rows, t - CONTEXT_WINDOW).Some?
    ensures var now, before :=
            Latest(rows, t).value.value.GetOr(0.0), Latest(rows, t - CONTEXT_WINDOW).value.value.GetOr(0.0);
            now == before * (1.0 + ChangeOver(rows, t).value)
  {
    hide Latest;
    var now, before := Latest(rows, t).value.value.GetOr(0.0), Latest(rows, t - CONTEXT_WINDOW).value.value.GetOr(0.0);
    var c := (now - before) / before;
    assert c * before == now - before;
  }

  /** There is a change exactly if both times have a row and the earlier one a value that is not zero. */
  lemma ChangeExistsIff(rows: seq<Row>, t: Instant)
    ensures ChangeOver(rows, t).Some? <==>
              && Latest(rows, t).Some? && Latest(rows, t - 4 * HOUR).Some?
              && Latest(rows, t - 4 * HOUR).value.value.Some? && Latest(rows, t - 4 * HOUR).value.value.value != 0.0
  {
    hide Latest;
  }

  /**
   * Only the breakout version derives anything. Its price change is that of the mark price, or of the index price if
   * there is none; and open interest is said to push past a weak price exactly if both changes are there and open
   * interest grew by more than the price moved either way.
   */
  lemma DerivedFieldsMean(version: Version, series: Series, t: Instant)
    ensures var d := DerivedAt(version, series, t);
            if !version.BreakoutContext? then d == DerivedFields(None, None, None, None)
            else
              && d.minutesToNextFunding.Some?
              && d.oiChange == ChangeOver(series(OpenInterest), t)
              && (ChangeOver(series(MarkPrice), t).Some? ==> d.priceChange == ChangeOver(series(MarkPrice), t))
              && (ChangeOver(series(MarkPrice), t).None? ==> d.priceChange == ChangeOver(series(IndexPrice), t))
              && (d.weakPriceOiPush.Some? <==> d.oiChange.Some? && d.priceChange.Some?)
              && (d.weakPriceOiPush == Some(true) <==>
                   && d.oiChange.Some? && d.priceChange.Some?
                   && -d.oiChange.value < d.priceChange.value < d.oiChange.value)
  {
    hide ChangeOver;
  }

  /** Rows of every dataset, followed by rows that all lie after t. */
  ghost predicate ExtendedAfter(series: Series, longer: Series, t: Instant) {
    forall d: Dataset :: series(d) <= longer(d) && forall k :: |series(d)| <= k < |longer(d)| ==> longer(d)[k].time > t
  }

  lemma LaterRowsAreUnseen(rows: seq<Row>, longer: seq<Row>, t: Instant, u: Instant)
    requires rows <= longer && u <= t && forall k :: |rows| <= k < |longer| ==> longer[k].time > t
    ensures Latest(longer, u) == Latest(rows, u)
  {
    UpToIs(longer, u, UpTo(rows, u));
  }

  /** The context at t, derived fields included, depends on nothing that comes after t. */
  lemma ContextLooksBack(version: Version, series: Series, longer: Series, t: Instant)
    requires ExtendedAfter(series, longer, t)
    ensures ContextAt(longer, t) == ContextAt(series, t)
            && DerivedAt(version, longer, t) == DerivedAt(version, series, t)
  {
    hide Latest, MinutesToNextFunding;
    forall d: Dataset ensures Latest(longer(d), t) == Latest(series(d), t)
                              && Latest(longer(d), t - CONTEXT_WINDOW) == Latest(series(d), t - CONTEXT_WINDOW)
    {
      LaterRowsAreUnseen(series(d), longer(d), t, t);
      LaterRowsAreUnseen(series(d), longer(d), t, t - CONTEXT_WINDOW);
    }
  }

  method PercentageChangeOverWindow(rows: seq<Row>, t: Instant) returns (change: Option<real>)
    ensures change == ChangeOver(rows, t)
  {
    hide Latest;
    var latest := LatestRowBeforeOrAt(rows, t);
    var prior := LatestRowBeforeOrAt(rows, t - CONTEXT_WINDOW);
    if latest.None? || prior.None? {
      return None;
    }
    var now, before := latest.value.value.GetOr(0.0), prior.value.value.GetOr(0.0);
    if before == 0.0 {
      return None;
    }
    change := Some((now - before) / before);
  }

  // ----- The class -----

  class PerpContextCursor {
    const version: Version
    const series: Series
    var positions: map<Dataset, nat>
    var latestValues: map<Dataset, Row>
    /** The latest decision time so far. */
    ghost var clock: Option<Instant>

    ghost predicate Valid()
      reads this
    {
      forall d: Dataset ::
        && Holds(latestValues, d, series(d), Position(positions, d))
        && Position(positions, d) == if clock.None? then 0 else UpTo(series(d), clock.value)
    }

    constructor (version: Version, series: Series)
      ensures Valid() && this.version == version && this.series == series && clock == None
    {
      this.version, this.series := version, series;
      positions, latestValues, clock := map[], map[], None;
    }

    /** Moves one dataset forward; rows are never visited twice. */
    method Advance(d: Dataset, t: Instant)
      requires Holds(latestValues, d, series(d), Position(positions, d)) && Position(positions, d) <= UpTo(series(d), t)
      modifies this`positions, this`latestValues
      ensures forall e: Dataset ::
                Position(positions, e) == if e == d then UpTo(series(d), t) else Position(old(positions), e)
      ensures Holds(latestValues, d, series(d), UpTo(series(d), t))
      ensures forall e, n :: e != d && Holds(old(latestValues), e, series(e), n) ==>
              Holds(latestValues, e, series(e), n)
    {
      hide UpTo;
      var rows := series(d);
      var index := if d in positions then positions[d] else 0;
      while index < |rows| && rows[index].time <= t
        invariant Position(old(positions), d) <= index <= |rows| && positions == old(positions)
        invariant forall k :: 0 <= k < index ==> rows[k].time <= t
        invariant forall e :: e != d ==>
                  (e in latestValues <==> e in old(latestValues))
                    && (e in latestValues ==> latestValues[e] == old(latestValues)[e])
        invariant Holds(latestValues, d, rows, index)
      {
        latestValues := latestValues[d := rows[index]];
        index := index + 1;
      }
      UpToIs(rows, t, index);
      positions := positions[d := index];
    }

    method BuildDerivedFields(t: Instant) returns (derived: DerivedFields)
      ensures derived == DerivedAt(version, series, t)
    {
      hide ChangeOver, MinutesToNextFunding;
      derived := NOTHING_DERIVED;
      if !version.BreakoutContext? {
        return;
      }
      var oi := PercentageChangeOverWindow(series(OpenInterest), t);
      var price := PercentageChangeOverWindow(series(MarkPrice), t);
      if price.None? {
        price := PercentageChangeOverWindow(series(IndexPrice), t);
      }
      derived := DerivedFields(Some(MinutesToNextFunding(t)), oi, price, None);
      if oi.Some? && price.Some? {
        derived := derived.(weakPriceOiPush := Some(oi.value > Abs(price.value)));
      }
    }

    /** For decision times that never go back, the cursor shows what a scan from the start would, row order or not. */
    method At(t: Instant) returns (context: Option<Context>)
      requires Valid() && (clock.Some? ==> clock.value <= t)
      modifies this
      ensures Valid() && clock == Some(t)
      ensures context == if ContextAt(series, t) == map[] then None
                         else Some(Context(ContextAt(series, t), DerivedAt(version, series, t)))
      ensures forall d: Dataset :: Position(old(positions), d) <= Position(positions, d) <= |series(d)|
    {
      hide UpTo, Position, Holds, ContextAt, DerivedAt;
      ghost var before := positions;
      forall d: Dataset ensures Position(before, d) <= UpTo(series(d), t) {
        if clock.Some? {
          UpToMonotone(series(d), clock.value, t);
        }
      }
      var k := 0;
      while k < |DATASETS|
        invariant 0 <= k <= |DATASETS| && clock == old(clock)
        invariant forall d: Dataset :: Holds(latestValues, d, series(d), Position(positions, d))
        invariant forall d: Dataset ::
                    Position(positions, d) == if d in DATASETS[..k] then UpTo(series(d), t) else Position(before, d)
      {
        Advance(DATASETS[k], t);
        AdvancedOne(k);
        k := k + 1;
      }
      clock := Some(t);
      EveryDataset();
      ContextIs(latestValues, series, positions, t);
      context := None;
      if latestValues != map[] {
        var derived := BuildDerivedFields(t);
        context := Some(Context(latestValues, derived));
      }
    }
  }

  lemma AdvancedOne(k: nat)
    requires k < |DATASETS|
    ensures forall d :: d in DATASETS[..k + 1] <==> d in DATASETS[..k] || d == DATASETS[k]
  {
    assert DATASETS[..k + 1] == DATASETS[..k] + [DATASETS[k]];
  }

  lemma EveryDataset()
    ensures forall d: Dataset :: d in DATASETS
    ensures DATASETS[..|DATASETS|] == DATASETS
  {
    forall d: Dataset ensures d in DATASETS {
      assert d == DATASETS[0] || d == DATASETS[1] || d == DATASETS[2] || d == DATASETS[3] || d == DATASETS[4]
        || d == DATASETS[5]
          || d == DATASETS[6] || d == DATASETS[7];
    }
  }

  lemma ContextIs(latestValues: map<Dataset, Row>, series: Series, positions: map<Dataset, nat>, t: Instant)
    requires forall d: Dataset ::
             Holds(latestValues, d, series(d), Position(positions, d)) && Position(positions, d) == UpTo(series(d), t)
    ensures latestValues == ContextAt(series, t)
  {
    hide UpTo;
  }

  // ----- The loader -----

  function InWindow(table: seq<Row>, start: Instant, end: Instant): seq<Row> {
    if table == [] then []
    else
      InWindow(table[..|table| - 1], start, end)
      + if start <= table[|table| - 1].time <= end then [table[|table| - 1]] else []
  }

  /** The one row right before the window, if there is any. */
  function PriorRow(table: seq<Row>, start: Instant): seq<Row> {
    if table == [] then []
    else if table[|table| - 1].time < start then [table[|table| - 1]]
    else PriorRow(table[..|table| - 1], start)
  }

  function Loaded(table: seq<Row>, start: Instant, end: Instant): seq<Row> {
    PriorRow(table, start) + InWindow(table, start, end)
  }

  predicate StrictlySorted(rows: seq<Row>) {
    forall a, b :: 0 <= a < b < |rows| ==> rows[a].time < rows[b].time
  }

  lemma {:induction false} LoadedMembers(table: seq<Row>, start: Instant, end: Instant)
    ensures forall r :: r in Loaded(table, start, end) ==> r in table
    ensures forall r :: r in InWindow(table, start, end) ==> start <= r.time
    ensures (forall r :: r in table ==> r.time < start) ==> InWindow(table, start, end) == []
  {
    if table != [] {
      var init, last := table[..|table| - 1], table[|table| - 1];
      assert last in table && forall r :: r in init ==> r in table;
      LoadedMembers(init, start, end);
    }
  }

  lemma NothingLoaded(start: Instant, end: Instant)
    ensures Loaded([], start, end) == []
  {
  }

  lemma LoadedAppend(init: seq<Row>, last: Row, start: Instant, end: Instant)
    ensures InWindow(init + [last], start, end) == InWindow(init, start, end) +
            if start <= last.time <= end then [last] else []
    ensures PriorRow(init + [last], start) == if last.time < start then [last] else PriorRow(init, start)
  {
    assert (init + [last])[..|init|] == init;
  }

  lemma LatestAppend(rows: seq<Row>, last: Row, t: Instant)
    ensures Latest(rows + [last], t) ==
            if UpTo(rows, t) == |rows| && last.time <= t then Some(last) else Latest(rows, t)
  {
    hide UpTo;
    var n := UpTo(rows, t);
    UpToIs(rows + [last], t, if n == |rows| && last.time <= t then |rows| + 1 else n);
  }

  /** For decision times inside the window, one prior row plus the window answers like the whole table. */
  lemma {:induction false} PriorRowSuffices(table: seq<Row>, start: Instant, end: Instant, t: Instant)
    requires StrictlySorted(table) && start <= t <= end
    ensures Latest(Loaded(table, start, end), t) == Latest(table, t)
  {
    hide UpTo, Latest, InWindow, PriorRow;
    if table == [] {
      NothingLoaded(start, end);
    } else {
      var init, last := table[..|table| - 1], table[|table| - 1];
      assert table == init + [last];
      PriorRowSuffices(init, start, end, t);
      LoadedMembers(init, start, end);
      LoadedAppend(init, last, start, end);
      LatestAppend(init, last, t);
      var loaded := Loaded(init, start, end);
      forall r | r in init ensures r.time < last.time {}
      if last.time < start {
        UpToIs(init, t, |init|);
        LatestAppend([], last, t);
        UpToIs([], t, 0);
        assert Loaded(table, start, end) == [] + [last];
      } else if last.time <= end {
        assert Loaded(table, start, end) == loaded + [last];
        LatestAppend(loaded, last, t);
        if last.time <= t {
          UpToIs(init, t, |init|);
          UpToIs(loaded, t, |loaded|);
        }
      } else {
        assert Loaded(table, start, end) == loaded;
      }
    }
  }

  // ----- Lookups before the window -----

  /** What the loaded rows can answer: lookups inside the window, and earlier ones that no row left out comes after. */
  predicate Reaches(table: seq<Row>, start: Instant, u: Instant) {
    start <= u || Latest(table, u).None? || forall r :: r in table ==> !(u < r.time < start)
  }

  lemma {:induction false} PriorRowIs(table: seq<Row>, start: Instant, n: nat)
    requires n <= |table|
    requires forall k :: 0 <= k < |table| ==> (table[k].time < start <==> k < n)
    ensures PriorRow(table, start) == if n == 0 then [] else [table[n - 1]]
  {
    if |table| > n {
      PriorRowIs(table[..|table| - 1], start, n);
    }
  }

  /** The number of leading rows before the window. */
  lemma RowsBefore(table: seq<Row>, start: Instant) returns (n: nat)
    requires StrictlySorted(table)
    ensures n <= |table| && forall k :: 0 <= k < |table| ==> (table[k].time < start <==> k < n)
  {
    n := UpTo(table, start - 1);
  }

  lemma LatestOfPrior(prior: seq<Row>, rows: seq<Row>, u: Instant)
    requires |prior| <= 1 && forall r :: r in rows ==> u < r.time
    ensures Latest(prior + rows, u) == if prior != [] && prior[0].time <= u then Some(prior[0]) else None
  {
    var n := if prior != [] && prior[0].time <= u then 1 else 0;
    forall k | n <= k < |prior + rows| ensures (prior + rows)[k].time > u {
      if k >= |prior| { assert rows[k - |prior|] in rows; }
    }
    UpToIs(prior + rows, u, n);
  }

  /** With m rows not after u, and n rows before the window, nothing is left out in between exactly when m is n. */
  lemma NothingBetween(table: seq<Row>, start: Instant, u: Instant, m: nat, n: nat)
    requires m <= n <= |table| && u < start && m == UpTo(table, u)
    requires StrictlySorted(table) && forall k :: 0 <= k < |table| ==> (table[k].time < start <==> k < n)
    ensures Reaches(table, start, u) <==> m == 0 || m == n
  {
    hide UpTo;
    if m < n { assert table[n - 1] in table && (m < n - 1 ==> table[m].time < table[n - 1].time); }
    forall r | r in table && u < r.time < start ensures m < n {
      var k :| 0 <= k < |table| && table[k] == r;
    }
  }

  lemma AtLeast(table: seq<Row>, m: nat, k: nat)
    requires StrictlySorted(table) && m <= k < |table|
    ensures table[m].time <= table[k].time
  {
  }

  lemma LoadedBefore(table: seq<Row>, start: Instant, end: Instant, u: Instant)
    requires StrictlySorted(table) && u < start
    ensures Latest(Loaded(table, start, end), u) == if Reaches(table, start, u) then Latest(table, u) else None
  {
    var m := UpTo(table, u);
    var n := RowsBefore(table, start);
    hide InWindow, PriorRow, UpTo, Reaches;
    assert m > 0 ==> table[m - 1].time < start;
    NothingBetween(table, start, u, m, n);
    PriorRowIs(table, start, n);
    LoadedMembers(table, start, end);
    LatestOfPrior(PriorRow(table, start), InWindow(table, start, end), u);
    if m < n { AtLeast(table, m, n - 1); }
  }

  /** The loaded rows answer like the table exactly there; elsewhere they show nothing where the table has a row. */
  lemma PriorRowSufficesIff(table: seq<Row>, start: Instant, end: Instant, u: Instant)
    requires StrictlySorted(table) && u <= end
    ensures Latest(Loaded(table, start, end), u) == Latest(table, u) <==> Reaches(table, start, u)
    ensures Latest(Loaded(table, start, end), u) == if Reaches(table, start, u) then Latest(table, u) else None
  {
    hide Loaded, Latest;
    if start <= u {
      PriorRowSuffices(table, start, end, u);
    } else {
      LoadedBefore(table, start, end, u);
    }
  }

  function LoadedSeries(series: Series, start: Instant, end: Instant): Series {
    d => Loaded(series(d), start, end)
  }

  /** The context over the loaded rows is the one over the tables exactly when every dataset's rows reach back to t. */
  lemma LoadedContextIff(series: Series, start: Instant, end: Instant, t: Instant)
    requires t <= end && forall d: Dataset :: StrictlySorted(series(d))
    ensures ContextAt(LoadedSeries(series, start, end), t) == ContextAt(series, t) <==>
            forall d: Dataset :: Reaches(series(d), start, t)
  {
    hide Latest, Loaded, Reaches, StrictlySorted;
    var loaded := LoadedSeries(series, start, end);
    forall d: Dataset
      ensures Latest(loaded(d), t) == Latest(series(d), t) <==> Reaches(series(d), start, t)
    {
      PriorRowSufficesIff(series(d), start, end, t);
    }
    if ContextAt(loaded, t) == ContextAt(series, t) {
      forall d: Dataset ensures Latest(loaded(d), t) == Latest(series(d), t) {
        assert d in ContextAt(loaded, t) <==> d in ContextAt(series, t);
        if d in ContextAt(series, t) { assert ContextAt(loaded, t)[d] == ContextAt(series, t)[d]; }
      }
    }
  }

  /** A change is lost exactly when the table has one and the loaded rows do not reach a comparison window back. */
  lemma LoadedChangeIff(table: seq<Row>, start: Instant, end: Instant, t: Instant)
    requires StrictlySorted(table) && t <= end
    ensures ChangeOver(Loaded(table, start, end), t) == ChangeOver(table, t) <==>
            ChangeOver(table, t).None? || Reaches(table, start, t - CONTEXT_WINDOW)
  {
    hide Latest, Loaded, StrictlySorted;
    PriorRowSufficesIff(table, start, end, t);
    PriorRowSufficesIff(table, start, end, t - CONTEXT_WINDOW);
  }

  /** The derived fields need the rows of the three series to reach a comparison window back as well. */
  lemma LoadedDerivedFields(version: Version, series: Series, start: Instant, end: Instant, t: Instant)
    requires t <= end && forall d: Dataset :: StrictlySorted(series(d))
    requires forall d :: d in {OpenInterest, MarkPrice, IndexPrice} ==>
             ChangeOver(series(d), t).None? || Reaches(series(d), start, t - CONTEXT_WINDOW)
    ensures DerivedAt(version, LoadedSeries(series, start, end), t) == DerivedAt(version, series, t)
  {
    hide ChangeOver, Loaded, Reaches, StrictlySorted, MinutesToNextFunding;
    LoadedChangeIff(series(OpenInterest), start, end, t);
    LoadedChangeIff(series(MarkPrice), start, end, t);
    LoadedChangeIff(series(IndexPrice), start, end, t);
  }
}
