/** The proleptic Gregorian calendar, as far as month arithmetic and period buckets need it. */
module Calendar {
  import opened Market

  /** A UTC timestamp by its fields; `micros` is the time of day. */
  datatype DateTime = DateTime(year: int, month: int, day: int, micros: int)

  predicate IsLeap(y: int) {
    y % 4 == 0 && (y % 100 != 0 || y % 400 == 0)
  }

  function DaysInMonth(y: int, m: int): (n: int)
    ensures 28 <= n <= 31
  {
    if m == 2 then (if IsLeap(y) then 29 else 28)
    else if m == 4 || m == 6 || m == 9 || m == 11 then 30
    else 31
  }

  predicate Proper(d: DateTime) {
    1 <= d.month <= 12 && 1 <= d.day <= DaysInMonth(d.year, d.month) && 0 <= d.micros < MICROS_PER_DAY
  }

  function DaysBeforeYear(y: int): int {
    (y - 1) * 365 + (y - 1) / 4 - (y - 1) / 100 + (y - 1) / 400
  }

  function DaysBeforeMonth(y: int, m: int): int
    requires 1 <= m <= 12
    decreases m
  {
    if m == 1 then 0 else DaysBeforeMonth(y, m - 1) + DaysInMonth(y, m - 1)
  }

  /** Months counted from the year 0, and the ordinal of the day before each. */
  function MonthIndex(d: DateTime): int {
    d.year * 12 + d.month - 1
  }

  function MonthStart(index: int): int {
    DaysBeforeYear(index / 12) + DaysBeforeMonth(index / 12, index % 12 + 1)
  }

  function MonthLength(index: int): int {
    DaysInMonth(index / 12, index % 12 + 1)
  }

  function Ordinal(d: DateTime): int
    requires 1 <= d.month <= 12
  {
    DaysBeforeYear(d.year) + DaysBeforeMonth(d.year, d.month) + d.day
  }

  /** Microseconds since 0001-01-01T00:00 minus one day; only differences matter. */
  function Moment(d: DateTime): Instant
    requires 1 <= d.month <= 12
  {
    Ordinal(d) * MICROS_PER_DAY + d.micros
  }

  /** Moves by whole months, keeping the day unless the month is too short. */
  function AddMonths(d: DateTime, months: int): DateTime {
    var index := d.month - 1 + months;
    var year, month := d.year + index / 12, index % 12 + 1;
    var length := DaysInMonth(year, month);
    DateTime(year, month, if d.day < length then d.day else length, d.micros)
  }

  // ----- Month arithmetic -----

  lemma NextQuotient(y: int, n: int)
    requires n > 0
    ensures y / n == (y - 1) / n + if y % n == 0 then 1 else 0
  {
    var q, r := (y - 1) / n, (y - 1) % n;
    assert y - 1 == n * q + r;
    if r == n - 1 {
      assert y == n * (q + 1);
      QuotientIs(y, n, q + 1, 0);
    } else {
      QuotientIs(y, n, q, r + 1);
    }
  }

  lemma QuotientIs(x: int, n: int, q: int, r: int)
    requires n > 0 && x == n * q + r && 0 <= r < n
    ensures x / n == q && x % n == r
  {
    var p := x / n;
    assert x == n * p + x % n;
    if p > q {
      Spread(n, q, p);
    } else if p < q {
      Spread(n, p, q);
    }
  }

  lemma Spread(n: int, a: int, b: int)
    requires n > 0 && a < b
    ensures n * a + n <= n * b
  {
    var c := b - a - 1;
    assert n * c >= 0;
    assert n * b == n * a + n + n * c;
  }

  lemma YearLength(y: int)
    ensures DaysBeforeYear(y + 1) == DaysBeforeYear(y) + if IsLeap(y) then 366 else 365
  {
    NextQuotient(y, 4);
    NextQuotient(y, 100);
    NextQuotient(y, 400);
    if y % 400 == 0 {
      QuotientIs(y, 100, 4 * (y / 400), 0);
    }
    if y % 100 == 0 {
      QuotientIs(y, 4, 25 * (y / 100), 0);
    }
  }

  lemma MonthsOfYear(y: int)
    ensures DaysBeforeMonth(y, 12) + DaysInMonth(y, 12) == if IsLeap(y) then 366 else 365
  {
    hide IsLeap;
    assert DaysBeforeMonth(y, 3) == 31 + DaysInMonth(y, 2);
    assert DaysBeforeMonth(y, 5) == DaysBeforeMonth(y, 3) + 61;
    assert DaysBeforeMonth(y, 7) == DaysBeforeMonth(y, 5) + 61;
    assert DaysBeforeMonth(y, 9) == DaysBeforeMonth(y, 7) + 62;
    assert DaysBeforeMonth(y, 11) == DaysBeforeMonth(y, 9) + 61;
    assert DaysBeforeMonth(y, 12) == DaysBeforeMonth(y, 11) + 30;
  }

  /** Each month starts where the previous one ends. */
  lemma MonthFollows(index: int)
    ensures MonthStart(index + 1) == MonthStart(index) + MonthLength(index)
  {
    hide DaysBeforeYear, DaysInMonth, IsLeap;
    var y, m := index / 12, index % 12 + 1;
    if m == 12 {
      assert (index + 1) / 12 == y + 1 && (index + 1) % 12 == 0;
      YearLength(y);
      MonthsOfYear(y);
    } else {
      assert (index + 1) / 12 == y && (index + 1) % 12 == m;
    }
  }

  lemma {:induction false} MonthsAreLong(index: int, k: nat)
    ensures MonthStart(index + k) >= MonthStart(index) + 28 * k
  {
    hide MonthStart;
    if k > 0 {
      MonthsAreLong(index, k - 1);
      MonthFollows(index + k - 1);
      assert index + (k - 1) + 1 == index + k;
    }
  }

  lemma MonthParts(d: DateTime)
    requires 1 <= d.month <= 12
    ensures MonthIndex(d) / 12 == d.year && MonthIndex(d) % 12 == d.month - 1
    ensures Ordinal(d) == MonthStart(MonthIndex(d)) + d.day
    ensures MonthLength(MonthIndex(d)) == DaysInMonth(d.year, d.month)
  {
    hide DaysBeforeYear, DaysBeforeMonth, DaysInMonth;
  }

  lemma AddMonthsParts(d: DateTime, k: int)
    requires Proper(d)
    ensures Proper(AddMonths(d, k)) && MonthIndex(AddMonths(d, k)) == MonthIndex(d) + k
            && AddMonths(d, k).micros == d.micros
    ensures AddMonths(d, k).day ==
            if d.day < MonthLength(MonthIndex(d) + k) then d.day else MonthLength(MonthIndex(d) + k)
  {
    hide DaysBeforeYear, DaysBeforeMonth, DaysInMonth;
    MonthParts(d);
    var index := d.month - 1 + k;
    assert index == 12 * (index / 12) + index % 12;
    MonthParts(AddMonths(d, k));
  }

  lemma AddMonthsMovesDays(d: DateTime, k: nat)
    requires Proper(d)
    ensures Proper(AddMonths(d, k)) && Ordinal(AddMonths(d, k)) >= Ordinal(d) + 28 * k
  {
    hide DaysBeforeYear, DaysBeforeMonth, DaysInMonth, MonthStart, MonthLength, AddMonths, Ordinal, MonthIndex;
    var later, index := AddMonths(d, k), MonthIndex(d);
    AddMonthsParts(d, k);
    MonthParts(d);
    MonthParts(later);
    MonthsAreLong(index, k);
    MonthsAreLong(index + 1, k);
    MonthFollows(index);
    MonthFollows(index + k);
    assert index + 1 + k == index + k + 1;
  }

  /** Adding k months moves at least 28 days forward for each of them, even when the day is clamped. */
  lemma AddMonthsMovesForward(d: DateTime, k: nat)
    requires Proper(d)
    ensures Proper(AddMonths(d, k))
    ensures Moment(AddMonths(d, k)) >= Moment(d) + 28 * k * MICROS_PER_DAY
    ensures (Moment(AddMonths(d, k)) - Moment(d)) % MICROS_PER_DAY == 0
  {
    hide DaysBeforeYear, DaysBeforeMonth, DaysInMonth, AddMonths, Ordinal, MonthLength, MonthIndex;
    AddMonthsMovesDays(d, k);
    AddMonthsParts(d, k);
    assert Moment(AddMonths(d, k)) - Moment(d) == (Ordinal(AddMonths(d, k)) - Ordinal(d)) * MICROS_PER_DAY;
  }

  lemma LaterMonthIsLater(a: DateTime, b: DateTime)
    requires Proper(a) && Proper(b) && MonthIndex(a) < MonthIndex(b)
    ensures Moment(a) < Moment(b)
  {
    hide DaysBeforeYear, DaysBeforeMonth, DaysInMonth, MonthStart, MonthLength, Ordinal, MonthIndex;
    MonthParts(a);
    MonthParts(b);
    MonthFollows(MonthIndex(a));
    MonthsAreLong(MonthIndex(a) + 1, MonthIndex(b) - MonthIndex(a) - 1);
    assert Ordinal(a) < Ordinal(b) by { ProperDays(a); ProperDays(b); }
    assert Moment(b) - Moment(a) == (Ordinal(b) - Ordinal(a)) * MICROS_PER_DAY + b.micros - a.micros;
  }

  lemma ProperDays(d: DateTime)
    requires Proper(d)
    ensures 1 <= d.day <= MonthLength(MonthIndex(d))
  {
    hide DaysInMonth;
    MonthParts(d);
  }

  /** Moments order timestamps by month first. */
  lemma MomentsOrderMonths(a: DateTime, b: DateTime)
    requires Proper(a) && Proper(b) && Moment(a) <= Moment(b)
    ensures MonthIndex(a) <= MonthIndex(b)
  {
    hide MonthIndex, Moment;
    if MonthIndex(b) < MonthIndex(a) {
      LaterMonthIsLater(b, a);
    }
  }
}
