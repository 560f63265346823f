/** Calendar dates, and month addition as the code writes it twice: once for
    billing cycles and once for partner reports. */
module Calendar {
  import opened Prelude

  datatype Date = Date(year: int, month: int, day: int)

  /** A moment is a date and a second of that day. */
  datatype Moment = Moment(date: Date, second: int)

  predicate Leap(y: int) { y % 4 == 0 && (y % 100 != 0 || y % 400 == 0) }

  function DaysInMonth(y: int, m: int): int
  {
    if m == 2 then (if Leap(y) then 29 else 28)
    else if m == 4 || m == 6 || m == 9 || m == 11 then 30
    else 31
  }

  predicate Valid(d: Date)
  {
    1 <= d.month <= 12 && 1 <= d.day <= DaysInMonth(d.year, d.month)
  }

  predicate ValidMoment(t: Moment) { Valid(t.date) && 0 <= t.second < 86400 }

  // ---- The proleptic Gregorian day number, which is how dates compare and subtract ----

  function DaysBeforeYear(y: int): int
  {
    (y - 1) * 365 + (y - 1) / 4 - (y - 1) / 100 + (y - 1) / 400
  }

  function DaysBeforeMonth(y: int, m: int): int
  {
    if m <= 1 then 0 else DaysBeforeMonth(y, m - 1) + DaysInMonth(y, m - 1)
  }

  function Ord(d: Date): int
  {
    DaysBeforeYear(d.year) + DaysBeforeMonth(d.year, d.month) + d.day
  }

  function Instant(t: Moment): int
  {
    Ord(t.date) * 86400 + t.second
  }

  /** Number of whole months since year zero: 12 per year, January first. */
  function MonthIndex(d: Date): int { d.year * 12 + d.month - 1 }

  predicate Before(a: Date, b: Date)
  {
    MonthIndex(a) < MonthIndex(b) || (MonthIndex(a) == MonthIndex(b) && a.day < b.day)
  }

  // ---- Month addition ----

  /** Billing cycles: same day next month, clamped to that month's length. */
  function AddMonth(d: Date): (r: Date)
    ensures Valid(d) ==> Valid(r)
  {
    var year := if d.month == 12 then d.year + 1 else d.year;
    var month := if d.month == 12 then 1 else d.month + 1;
    Date(year, month, Min(d.day, DaysInMonth(year, month)))
  }

  /** Partner reports: any number of months, forwards or backwards. */
  function AddMonths(d: Date, months: int): Date
  {
    var index := d.month - 1 + months;
    var year := d.year + index / 12;
    var month := index % 12 + 1;
    Date(year, month, Min(d.day, DaysInMonth(year, month)))
  }

  function AddMonthMoment(t: Moment): Moment { Moment(AddMonth(t.date), t.second) }

  function FirstOfMonth(d: Date): Date { d.(day := 1) }

  lemma AddMonthAgrees(d: Date)
    requires Valid(d)
    ensures Valid(AddMonth(d))
    ensures AddMonth(d) == AddMonths(d, 1)
  {
  }

  lemma AddMonthsIndex(d: Date, months: int)
    requires Valid(d)
    ensures Valid(AddMonths(d, months))
    ensures MonthIndex(AddMonths(d, months)) == MonthIndex(d) + months
  {
  }

  lemma YearLength(y: int)
    ensures DaysBeforeYear(y + 1) - DaysBeforeYear(y) == if Leap(y) then 366 else 365
  {
    StepOfQuotient(y, 4);
    StepOfQuotient(y, 100);
    StepOfQuotient(y, 400);
    CenturyIsFourfold(y);
    assert y + 1 - 1 == y;
    assert DaysBeforeYear(y + 1) == y * 365 + y / 4 - y / 100 + y / 400;
  }

  lemma CenturyIsFourfold(y: int)
    ensures y % 100 == 0 ==> y % 4 == 0
    ensures y % 400 == 0 ==> y % 100 == 0
  {
    if y % 100 == 0 { assert y == 4 * (25 * (y / 100)); }
    if y % 400 == 0 { assert y == 100 * (4 * (y / 400)); }
  }

  lemma StepOfQuotient(y: int, k: int)
    requires k == 4 || k == 100 || k == 400
    ensures y / k == (y - 1) / k + if y % k == 0 then 1 else 0
  {
  }

  lemma MonthsOfYear(y: int)
    ensures DaysBeforeMonth(y, 13) == if Leap(y) then 366 else 365
  {
    assert DaysBeforeMonth(y, 1) == 0;
    assert DaysBeforeMonth(y, 2) == 31;
    assert DaysBeforeMonth(y, 4) == DaysBeforeMonth(y, 3) + 31 == 62 + DaysInMonth(y, 2);
    assert DaysBeforeMonth(y, 6) == DaysBeforeMonth(y, 5) + 31 == 123 + DaysInMonth(y, 2);
    assert DaysBeforeMonth(y, 8) == DaysBeforeMonth(y, 7) + 31 == 184 + DaysInMonth(y, 2);
    assert DaysBeforeMonth(y, 10) == DaysBeforeMonth(y, 9) + 30 == 245 + DaysInMonth(y, 2);
    assert DaysBeforeMonth(y, 12) == DaysBeforeMonth(y, 11) + 30 == 306 + DaysInMonth(y, 2);
  }

  /** Day number of the first of the month with a given index. */
  function MonthStart(index: int): int
  {
    DaysBeforeYear(index / 12) + DaysBeforeMonth(index / 12, index % 12 + 1)
  }

  lemma MonthStartStep(index: int)
    ensures MonthStart(index + 1) == MonthStart(index) + DaysInMonth(index / 12, index % 12 + 1)
  {
    if index % 12 == 11 {
      assert (index + 1) / 12 == index / 12 + 1;
      YearLength(index / 12);
      MonthsOfYear(index / 12);
    }
  }

  lemma {:induction false} MonthStartMonotone(i: int, j: int)
    requires i <= j
    ensures MonthStart(j) >= MonthStart(i) + 28 * (j - i)
    decreases j - i
  {
    if i < j {
      MonthStartMonotone(i, j - 1);
      MonthStartStep(j - 1);
    }
  }

  lemma OrdFromMonth(d: Date)
    requires Valid(d)
    ensures Ord(d) == MonthStart(MonthIndex(d)) + d.day
  {
    assert MonthIndex(d) / 12 == d.year && MonthIndex(d) % 12 == d.month - 1;
  }

  /** Day numbers order dates exactly as calendars do. */
  lemma OrdOrder(a: Date, b: Date)
    requires Valid(a) && Valid(b)
    ensures Ord(a) < Ord(b) <==> Before(a, b)
    ensures Ord(a) == Ord(b) <==> a == b
  {
    hide Ord, MonthStart, DaysInMonth;
    OrdFromMonth(a);
    OrdFromMonth(b);
    var i, j := MonthIndex(a), MonthIndex(b);
    if i < j {
      MonthStartStep(i);
      MonthStartMonotone(i + 1, j);
      assert i / 12 == a.year && i % 12 + 1 == a.month;
    } else if j < i {
      MonthStartStep(j);
      MonthStartMonotone(j + 1, i);
      assert j / 12 == b.year && j % 12 + 1 == b.month;
    }
  }

  /** A cycle is 28 to 31 days long, whatever day it starts on. */
  lemma CycleLength(d: Date)
    requires Valid(d)
    ensures Valid(AddMonth(d))
    ensures 28 <= Ord(AddMonth(d)) - Ord(d) <= 31
  {
    hide Ord, MonthStart, Leap;
    OrdFromMonth(d);
    AddMonthAgrees(d);
    AddMonthsIndex(d, 1);
    OrdFromMonth(AddMonth(d));
    MonthStartStep(MonthIndex(d));
    assert MonthIndex(d) / 12 == d.year && MonthIndex(d) % 12 + 1 == d.month;
  }

  lemma AddMonthsMonotone(a: Date, b: Date, months: int)
    requires Valid(a) && Valid(b) && Ord(a) <= Ord(b)
    ensures Valid(AddMonths(a, months)) && Valid(AddMonths(b, months))
    ensures Ord(AddMonths(a, months)) <= Ord(AddMonths(b, months))
  {
    AddMonthsIndex(a, months);
    AddMonthsIndex(b, months);
    OrdOrder(a, b);
    OrdOrder(b, a);
    OrdOrder(AddMonths(b, months), AddMonths(a, months));
    if MonthIndex(a) == MonthIndex(b) {
      assert AddMonths(a, months).year == AddMonths(b, months).year;
    }
  }

  /** Adding in two stages is never later than adding at once, and lands on the
      same day exactly when the month in between is long enough to hold it. */
  lemma TwoStages(d: Date, a: int, b: int)
    requires Valid(d)
    ensures Valid(AddMonths(d, a)) && Valid(AddMonths(AddMonths(d, a), b)) && Valid(AddMonths(d, a + b))
    ensures Ord(AddMonths(AddMonths(d, a), b)) <= Ord(AddMonths(d, a + b))
    ensures AddMonths(AddMonths(d, a), b) == AddMonths(d, a + b)
       <==> AddMonths(d, a + b).day <= DaysInMonth(AddMonths(d, a).year, AddMonths(d, a).month)
  {
    AddMonthsIndex(d, a);
    AddMonthsIndex(AddMonths(d, a), b);
    AddMonthsIndex(d, a + b);
    var two, one := AddMonths(AddMonths(d, a), b), AddMonths(d, a + b);
    assert MonthIndex(two) == MonthIndex(one);
    assert two.year == one.year && two.month == one.month;
    OrdFromMonth(two);
    OrdFromMonth(one);
  }

  /** The end of the n-th cycle counted from d. */
  function Roll(d: Date, n: nat): Date
  {
    if n == 0 then d else AddMonth(Roll(d, n - 1))
  }

  function MonthLength(index: int): int { DaysInMonth(index / 12, index % 12 + 1) }

  /** The day a run of cycles has reached is the start day cut to the shortest month it crossed. */
  lemma {:induction false} RollDay(d: Date, n: nat)
    requires Valid(d)
    ensures Valid(Roll(d, n)) && MonthIndex(Roll(d, n)) == MonthIndex(d) + n
    ensures Roll(d, n).day <= d.day
    ensures forall m :: MonthIndex(d) < m <= MonthIndex(d) + n ==> Roll(d, n).day <= MonthLength(m)
    ensures Roll(d, n).day == d.day
         || exists m :: MonthIndex(d) < m <= MonthIndex(d) + n && Roll(d, n).day == MonthLength(m)
  {
    hide Leap, AddMonths;
    if n > 0 {
      RollDay(d, n - 1);
      var last := Roll(d, n - 1);
      AddMonthAgrees(last);
      AddMonthsIndex(last, 1);
      assert MonthIndex(AddMonth(last)) / 12 == AddMonth(last).year;
      assert Roll(d, n).day == Min(last.day, MonthLength(MonthIndex(d) + n));
    }
  }

  /** Closing n cycles in a row ends where adding n months would exactly when no
      month crossed on the way is too short for the final day; in particular
      always for cycles that start on the 28th or earlier. */
  lemma RollIsAddMonths(d: Date, n: nat)
    requires Valid(d) && n > 0
    ensures Roll(d, n) == AddMonths(d, n)
       <==> forall m :: MonthIndex(d) < m <= MonthIndex(d) + n ==> AddMonths(d, n).day <= MonthLength(m)
    ensures d.day <= 28 ==> Roll(d, n) == AddMonths(d, n)
  {
    RollDay(d, n);
    AddMonthsIndex(d, n);
    var rolled, added := Roll(d, n), AddMonths(d, n);
    assert rolled.year == added.year && rolled.month == added.month;
    assert MonthIndex(added) / 12 == added.year && MonthIndex(added) % 12 + 1 == added.month;
    assert added.day == Min(d.day, MonthLength(MonthIndex(d) + n));
    assert rolled.day <= added.day;
  }

  /** "Same day next month" drifts: a cycle opened on the 31st of January 2025
      is closed on the 28th of March, not the 31st. */
  lemma CycleDayDrifts()
    ensures var first := Date(2025, 1, 31);
            Valid(first) && Roll(first, 2) == Date(2025, 3, 28) != AddMonths(first, 2)
  {
    var first := Date(2025, 1, 31);
    assert Roll(first, 1) == AddMonth(Roll(first, 0)) == Date(2025, 2, 28);
    assert Roll(first, 2) == AddMonth(Date(2025, 2, 28));
  }

  // ---- The partner report's month series ----

  datatype SeriesRow = SeriesRow(month: int, amount: int)

  /** One row per calendar month, ending with the month of `now`. The loop's
      cursor keeps the time of day of `now`, so comparing dates decides it. */
  method MonthlyAccrualSeries(now: Date, months: int, byMonth: map<int, int>) returns (series: seq<SeriesRow>)
    requires Valid(now)
    ensures |series| == Max(months, 0)
    ensures forall i :: 0 <= i < |series| ==>
              && series[i].month == MonthIndex(now) - (months - 1) + i
              && series[i].amount == if series[i].month in byMonth then byMonth[series[i].month] else 0
  {
    AddMonthsIndex(now, -(months - 1));
    var since := FirstOfMonth(AddMonths(now, -(months - 1)));
    series := [];
    var cursor := since;
    OrdOrder(now, cursor);
    while Ord(cursor) <= Ord(now)
      invariant Valid(cursor) && cursor.day == 1
      invariant MonthIndex(cursor) == MonthIndex(now) - (months - 1) + |series|
      invariant |series| <= Max(months, 0)
      invariant Ord(cursor) <= Ord(now) <==> MonthIndex(cursor) <= MonthIndex(now)
      invariant forall i :: 0 <= i < |series| ==>
                  && series[i].month == MonthIndex(now) - (months - 1) + i
                  && series[i].amount == if series[i].month in byMonth then byMonth[series[i].month] else 0
      decreases MonthIndex(now) - MonthIndex(cursor)
    {
      var key := MonthIndex(cursor);
      series := series + [SeriesRow(key, if key in byMonth then byMonth[key] else 0)];
      AddMonthsIndex(cursor, 1);
      cursor := AddMonths(cursor, 1);
      OrdOrder(now, cursor);
    }
  }
}
