/** The proleptic Gregorian calendar in one fixed time zone, to the microsecond. */
module Calendar {
  import opened Arithmetic
  import opened Units

  datatype Date = Date(year: int, month: int, day: int)

  datatype Moment = Moment(date: Date, timeOfDay: int)

  predicate IsLeap(year: int) {
    year % 4 == 0 && (year % 100 != 0 || year % 400 == 0)
  }

  function MonthLength(year: int, month: int): (days: int)
    ensures 28 <= days <= 31
  {
    if month == 2 then if IsLeap(year) then 29 else 28
    else if month == 4 || month == 6 || month == 9 || month == 11 then 30
    else 31
  }

  predicate ValidDate(d: Date) {
    1 <= d.year && 1 <= d.month <= 12 && 1 <= d.day <= MonthLength(d.year, d.month)
  }

  predicate ValidMoment(m: Moment) {
    ValidDate(m.date) && 0 <= m.timeOfDay < DAY
  }

  /** Months counted from the start of year 0. */
  function MonthIndex(d: Date): int {
    d.year * 12 + d.month - 1
  }

  /** Days before the first of a month. */
  function MonthStart(index: nat): nat {
    if index == 0 then 0 else MonthStart(index - 1) + MonthDays(index - 1)
  }

  function MonthDays(index: nat): (days: int)
    ensures 28 <= days <= 31
  {
    MonthLength(index / 12, index % 12 + 1)
  }

  function Ordinal(d: Date): int
    requires ValidDate(d)
  {
    MonthStart(MonthIndex(d)) + d.day - 1
  }

  /** A moment as one number; moments are compared through it. */
  function Instant(m: Moment): int
    requires ValidMoment(m)
  {
    Ordinal(m.date) * DAY + m.timeOfDay
  }

  function NextDay(d: Date): Date {
    if d.day < MonthLength(d.year, d.month) then Date(d.year, d.month, d.day + 1)
    else if d.month < 12 then Date(d.year, d.month + 1, 1)
    else Date(d.year + 1, 1, 1)
  }

  lemma MonthStartNext(d: Date)
    requires ValidDate(d)
    ensures MonthDays(MonthIndex(d)) == MonthLength(d.year, d.month)
    ensures MonthStart(MonthIndex(d) + 1) == MonthStart(MonthIndex(d)) + MonthLength(d.year, d.month)
  {
    assert MonthIndex(d) / 12 == d.year && MonthIndex(d) % 12 + 1 == d.month;
  }

  /** The first of the month after the date's. */
  lemma NextMonthOrdinal(d: Date, next: Date)
    requires ValidDate(d) && 1 <= next.year && 1 <= next.month <= 12 && next.day == 1
    requires MonthIndex(next) == MonthIndex(d) + 1
    ensures ValidDate(next) && Ordinal(next) == Ordinal(d) + MonthLength(d.year, d.month) - d.day + 1
  {
    MonthStartNext(d);
  }

  lemma SameMonthOrdinal(d: Date, day: int)
    requires ValidDate(d) && 1 <= day <= MonthLength(d.year, d.month)
    ensures ValidDate(d.(day := day)) && Ordinal(d.(day := day)) == Ordinal(d) + day - d.day
  {
    assert MonthIndex(d.(day := day)) == MonthIndex(d);
  }

  lemma NextDayOrdinal(d: Date)
    requires ValidDate(d)
    ensures ValidDate(NextDay(d)) && Ordinal(NextDay(d)) == Ordinal(d) + 1
  {
    if d.day < MonthLength(d.year, d.month) {
      SameMonthOrdinal(d, d.day + 1);
    } else {
      NextMonthOrdinal(d, NextDay(d));
    }
  }

  lemma MonthAfter(year: nat, month: int, index: nat)
    requires 1 <= year && 1 <= month <= 12 && index == year * 12 + month - 1
    ensures MonthStart(index + 1) == MonthStart(index) + MonthLength(year, month)
  {
    assert MonthIndex(Date(year, month, 1)) == index;
    MonthStartNext(Date(year, month, 1));
  }

  /** The days of the months from one on, to the end of the year. */
  function DaysFrom(year: nat, month: int): int
    requires 1 <= month <= 13
    decreases 13 - month, year
  {
    if month == 13 then 0 else MonthLength(year, month) + DaysFrom(year, month + 1)
  }

  lemma {:induction false} DaysFromStart(year: nat, month: int, index: nat, end: nat)
    requires 1 <= year && 1 <= month <= 13 && index == year * 12 + month - 1 && end == index + 13 - month
    ensures MonthStart(end) == MonthStart(index) + DaysFrom(year, month)
    decreases 13 - month
  {
    if month <= 12 {
      MonthAfter(year, month, index);
      DaysFromStart(year, month + 1, index + 1, end);
    }
  }

  lemma DaysOfYear(year: nat)
    ensures DaysFrom(year, 7) == 184
    ensures DaysFrom(year, 1) == 365 + if IsLeap(year) then 1 else 0
  {
    assert DaysFrom(year, 13) == 0;
    assert DaysFrom(year, 11) == 61;
    assert DaysFrom(year, 9) == 122;
    assert DaysFrom(year, 7) == 184;
    assert DaysFrom(year, 5) == 245;
    assert DaysFrom(year, 3) == 306;
  }

  /** A year has 365 days, and one more if it is divisible by 4 and, among centuries, by 400. */
  lemma YearLength(year: nat)
    requires 1 <= year
    ensures MonthStart(year * 12 + 12) - MonthStart(year * 12) ==
            365 + if year % 4 == 0 && (year % 100 != 0 || year % 400 == 0) then 1 else 0
  {
    DaysFromStart(year, 1, year * 12, year * 12 + 12);
    DaysOfYear(year);
  }

  lemma NextDayInstant(m: Moment)
    requires ValidMoment(m)
    ensures ValidMoment(m.(date := NextDay(m.date)))
    ensures Instant(m.(date := NextDay(m.date))) == Instant(m) + DAY
    ensures Ordinal(NextDay(m.date)) == Ordinal(m.date) + 1
  {
    NextDayOrdinal(m.date);
    var next := m.(date := NextDay(m.date));
    assert Instant(next) == (Ordinal(m.date) + 1) * DAY + m.timeOfDay;
    NextMultiple(Ordinal(m.date), DAY);
  }

  lemma {:induction false} MonthStartGrows(first: nat, second: nat)
    requires first < second
    ensures MonthStart(first) + MonthDays(first) <= MonthStart(second)
  {
    if first + 1 < second {
      MonthStartGrows(first, second - 1);
    }
  }

  lemma LaterMonthLaterDate(a: Date, b: Date)
    requires ValidDate(a) && ValidDate(b) && MonthIndex(a) < MonthIndex(b)
    ensures Ordinal(a) < Ordinal(b)
  {
    MonthStartNext(a);
    MonthStartGrows(MonthIndex(a), MonthIndex(b));
  }

  lemma LaterMonthLaterInstant(a: Moment, b: Moment)
    requires ValidMoment(a) && ValidMoment(b) && MonthIndex(a.date) < MonthIndex(b.date)
    ensures Instant(a) < Instant(b)
  {
    LaterMonthLaterDate(a.date, b.date);
    LaterMultiple(Ordinal(a.date), a.timeOfDay, Ordinal(b.date), b.timeOfDay, DAY);
  }

  /** Dates are ordered as their ordinals are, and equal ordinals mean equal dates. */
  lemma OrdinalInjective(a: Date, b: Date)
    requires ValidDate(a) && ValidDate(b)
    ensures Ordinal(a) == Ordinal(b) <==> a == b
    ensures Ordinal(a) < Ordinal(b) <==>
            MonthIndex(a) < MonthIndex(b) || (MonthIndex(a) == MonthIndex(b) && a.day < b.day)
  {
    if MonthIndex(a) < MonthIndex(b) {
      LaterMonthLaterDate(a, b);
    } else if MonthIndex(b) < MonthIndex(a) {
      LaterMonthLaterDate(b, a);
    } else {
      assert a.year == b.year && a.month == b.month;
    }
  }

  // From an instant back to the calendar

  const EPOCH := Date(1, 1, 1)

  function DaysLater(d: Date, n: nat): Date {
    if n == 0 then d else NextDay(DaysLater(d, n - 1))
  }

  lemma {:induction false} DaysLaterOrdinal(d: Date, n: nat)
    requires ValidDate(d)
    ensures ValidDate(DaysLater(d, n)) && Ordinal(DaysLater(d, n)) == Ordinal(d) + n
  {
    if n > 0 {
      DaysLaterOrdinal(d, n - 1);
      NextDayOrdinal(DaysLater(d, n - 1));
    }
  }

  /** The first instant of the calendar. */
  function Beginning(): int {
    Ordinal(EPOCH) * DAY
  }

  lemma ReadBack(day: int, rest: int)
    requires Ordinal(EPOCH) <= day && 0 <= rest < DAY
    ensures var m := Moment(DaysLater(EPOCH, day - Ordinal(EPOCH)), rest);
            ValidMoment(m) && Instant(m) == day * DAY + rest
  {
    DaysLaterOrdinal(EPOCH, day - Ordinal(EPOCH));
  }

  /** The calendar's reading of an instant. */
  function MomentOf(instant: int): (m: Moment)
    requires Beginning() <= instant
    ensures ValidMoment(m) && Instant(m) == instant
  {
    QuotientAtLeast(instant, DAY, Ordinal(EPOCH));
    Parts(instant, DAY);
    var day := instant / DAY;
    ReadBack(day, instant % DAY);
    Moment(DaysLater(EPOCH, day - Ordinal(EPOCH)), instant % DAY)
  }
}
