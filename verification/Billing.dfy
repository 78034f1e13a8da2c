/** Invoice dates: calendar-month stepping inside an observation window. */
module Billing {
  import opened Arithmetic
  import opened Calendar
  import opened Units

  datatype Frequency = Monthly | Quarterly | Yearly | OtherFrequency

  const SKIP_CAP: nat := 48
  const DATE_CAP: nat := 24

  function Step(frequency: Frequency): nat {
    match frequency
    case Monthly => 1
    case Quarterly => 3
    case Yearly => 12
    case OtherFrequency => 1
  }

  function AddCalendarMonths(m: Moment, months: int, billDay: int): Moment {
    var index := m.date.month - 1 + months;
    var year := m.date.year + index / 12;
    var month := index % 12 + 1;
    var day := Min(Min(billDay, MonthLength(year, month)), 28);
    Moment(Date(year, month, day), 7 * HOUR + 12 * MINUTE + m.timeOfDay % SECOND)
  }

  /** Stepping moves the month count, keeps the bill day, and gives a valid moment. */
  lemma AddedMonths(m: Moment, months: nat, billDay: int)
    requires ValidMoment(m) && 1 <= billDay
    ensures var later := AddCalendarMonths(m, months, billDay);
            && ValidMoment(later)
            && MonthIndex(later.date) == MonthIndex(m.date) + months
            && later.date.day == Min(billDay, 28)
  {
    var index := m.date.month - 1 + months;
    assert 12 * (index / 12) + index % 12 == index;
  }

  /** Adding a months and then b is adding a + b at once. */
  lemma AddComposes(m: Moment, a: nat, b: nat, billDay: int)
    requires ValidMoment(m) && 1 <= billDay
    ensures AddCalendarMonths(AddCalendarMonths(m, a, billDay), b, billDay) == AddCalendarMonths(m, a + b, billDay)
  {
    var step, twice, once := AddCalendarMonths(m, a, billDay),
        AddCalendarMonths(AddCalendarMonths(m, a, billDay), b, billDay), AddCalendarMonths(m, a + b, billDay);
    AddedMonths(m, a, billDay);
    AddedMonths(step, b, billDay);
    AddedMonths(m, a + b, billDay);
    OrdinalInjective(twice.date, once.date);
  }

  /** The k-th date of the unbounded schedule. */
  function Cursor(started: Moment, step: nat, billDay: int, k: nat): Moment {
    AddCalendarMonths(started, k * step, billDay)
  }

  lemma CursorValid(started: Moment, step: nat, billDay: int, k: nat)
    requires ValidMoment(started) && 1 <= billDay
    ensures ValidMoment(Cursor(started, step, billDay, k))
  {
    AddedMonths(started, k * step, billDay);
  }

  lemma CursorNext(started: Moment, step: nat, billDay: int, k: nat)
    requires ValidMoment(started) && 1 <= billDay
    ensures AddCalendarMonths(Cursor(started, step, billDay, k), step, billDay) == Cursor(started, step, billDay, k + 1)
  {
    AddComposes(started, k * step, step, billDay);
    assert k * step + step == (k + 1) * step;
  }

  lemma CursorGrows(started: Moment, step: nat, billDay: int, j: nat, k: nat)
    requires ValidMoment(started) && 1 <= billDay && 1 <= step && j < k
    ensures ValidMoment(Cursor(started, step, billDay, j)) && ValidMoment(Cursor(started, step, billDay, k))
    ensures Instant(Cursor(started, step, billDay, j)) < Instant(Cursor(started, step, billDay, k))
  {
    AddedMonths(started, j * step, billDay);
    AddedMonths(started, k * step, billDay);
    MultiplesGrow(j, k, step);
    LaterMonthLaterInstant(Cursor(started, step, billDay, j), Cursor(started, step, billDay, k));
  }

  predicate IsBefore(a: Moment, b: Moment) {
    ValidMoment(a) && ValidMoment(b) && Instant(a) < Instant(b)
  }

  /** How many dates of the schedule, from the given one on, the window leaves behind, up to
      the cap. */
  ghost function SkippedFrom(started: Moment, step: nat, billDay: int, windowStart: Moment, from: nat): (n: nat)
    requires from <= SKIP_CAP
    ensures from <= n <= SKIP_CAP
    ensures n < SKIP_CAP ==> !IsBefore(Cursor(started, step, billDay, n), windowStart)
    decreases SKIP_CAP - from, windowStart
  {
    if from < SKIP_CAP && IsBefore(Cursor(started, step, billDay, from), windowStart)
    then SkippedFrom(started, step, billDay, windowStart, from + 1)
    else from
  }

  ghost function Skipped(started: Moment, step: nat, billDay: int, windowStart: Moment): nat {
    SkippedFrom(started, step, billDay, windowStart, 0)
  }

  lemma {:induction false} SkippedLieBefore(started: Moment, step: nat, billDay: int, windowStart: Moment, from: nat,
                                            k: nat)
    requires from <= SKIP_CAP && from <= k < SkippedFrom(started, step, billDay, windowStart, from)
    ensures IsBefore(Cursor(started, step, billDay, k), windowStart)
    decreases SKIP_CAP - from
  {
    if from < k {
      SkippedLieBefore(started, step, billDay, windowStart, from + 1, k);
    }
  }

  /** The dates before the given one lie before the window, and either it does not or the
      cap is reached. */
  ghost predicate SkipsTo(started: Moment, step: nat, billDay: int, windowStart: Moment, skipped: nat) {
    && skipped <= SKIP_CAP
    && (forall k :: 0 <= k < skipped ==> IsBefore(Cursor(started, step, billDay, k), windowStart))
    && (skipped < SKIP_CAP ==> !IsBefore(Cursor(started, step, billDay, skipped), windowStart))
  }

  lemma SkippedSkips(started: Moment, step: nat, billDay: int, windowStart: Moment)
    ensures SkipsTo(started, step, billDay, windowStart, Skipped(started, step, billDay, windowStart))
  {
    forall k: nat | k < Skipped(started, step, billDay, windowStart)
      ensures IsBefore(Cursor(started, step, billDay, k), windowStart)
    {
      SkippedLieBefore(started, step, billDay, windowStart, 0, k);
    }
  }

  /** Consecutive dates of the schedule, none in the future. */
  ghost predicate Lists(started: Moment, step: nat, billDay: int, asOf: Moment, dates: seq<Moment>, skipped: nat) {
    forall i :: 0 <= i < |dates| ==>
      dates[i] == Cursor(started, step, billDay, skipped + i) && !IsBefore(asOf, dates[i])
  }

  /** Dates of the schedule from the given one up to the present, cut off by the cap. */
  ghost predicate ListsAll(started: Moment, step: nat, billDay: int, asOf: Moment, dates: seq<Moment>, skipped: nat) {
    && |dates| <= DATE_CAP
    && Lists(started, step, billDay, asOf, dates, skipped)
    && (|dates| < DATE_CAP ==> IsBefore(asOf, Cursor(started, step, billDay, skipped + |dates|)))
  }

  /** What the loops leave: consecutive dates of the schedule, after those before the
      window, up to the present, cut off by the two caps. */
  ghost predicate IsSchedule(started: Moment, step: nat, billDay: int, windowStart: Moment, asOf: Moment,
                             dates: seq<Moment>) {
    ListsAll(started, step, billDay, asOf, dates, Skipped(started, step, billDay, windowStart))
  }

  lemma CursorAdvances(started: Moment, step: nat, billDay: int, k: nat, cursor: Moment)
    requires ValidMoment(started) && 1 <= billDay && cursor == Cursor(started, step, billDay, k)
    ensures var next := AddCalendarMonths(cursor, step, billDay);
            ValidMoment(next) && next == Cursor(started, step, billDay, k + 1)
  {
    CursorNext(started, step, billDay, k);
    CursorValid(started, step, billDay, k + 1);
  }

  lemma ListsOneMore(started: Moment, step: nat, billDay: int, asOf: Moment, dates: seq<Moment>, skipped: nat,
                     next: Moment)
    requires Lists(started, step, billDay, asOf, dates, skipped)
    requires next == Cursor(started, step, billDay, skipped + |dates|) && !IsBefore(asOf, next)
    ensures Lists(started, step, billDay, asOf, dates + [next], skipped)
  {
  }

  /** The first loop: step to the window, at most SKIP_CAP times. */
  method SkipToWindow(started: Moment, step: nat, billDay: int, windowStart: Moment)
    returns (cursor: Moment, safety: nat)
    requires ValidMoment(started) && ValidMoment(windowStart) && 1 <= billDay
    ensures ValidMoment(cursor) && cursor == Cursor(started, step, billDay, safety)
    ensures safety == Skipped(started, step, billDay, windowStart)
  {
    cursor := AddCalendarMonths(started, 0, billDay);
    CursorValid(started, step, billDay, 0);
    safety := 0;
    while Instant(cursor) < Instant(windowStart) && safety < SKIP_CAP
      invariant safety <= SKIP_CAP
      invariant ValidMoment(cursor) && cursor == Cursor(started, step, billDay, safety)
      invariant Skipped(started, step, billDay, windowStart) == SkippedFrom(started, step, billDay, windowStart, safety)
      decreases SKIP_CAP - safety
    {
      CursorAdvances(started, step, billDay, safety, cursor);
      cursor := AddCalendarMonths(cursor, step, billDay);
      safety := safety + 1;
    }
  }

  /** The second loop: list dates up to the present, at most DATE_CAP of them. */
  method CollectDates(ghost started: Moment, step: nat, billDay: int, asOf: Moment, first: Moment, ghost skipped: nat)
    returns (dates: seq<Moment>)
    requires ValidMoment(started) && ValidMoment(asOf) && 1 <= billDay
    requires ValidMoment(first) && first == Cursor(started, step, billDay, skipped)
    ensures ListsAll(started, step, billDay, asOf, dates, skipped)
  {
    var cursor := first;
    dates := [];
    var safety := 0;
    while Instant(cursor) <= Instant(asOf) && safety < DATE_CAP
      invariant 0 <= safety <= DATE_CAP && |dates| == safety
      invariant ValidMoment(cursor) && cursor == Cursor(started, step, billDay, skipped + safety)
      invariant Lists(started, step, billDay, asOf, dates, skipped)
      decreases DATE_CAP - safety
    {
      ListsOneMore(started, step, billDay, asOf, dates, skipped, cursor);
      CursorAdvances(started, step, billDay, skipped + safety, cursor);
      dates := dates + [cursor];
      cursor := AddCalendarMonths(cursor, step, billDay);
      safety := safety + 1;
    }
  }

  /** Invoice dates from the first one in the window. */
  method BillingDates(started: Moment, frequency: Frequency, billDay: int, windowStart: Moment, asOf: Moment)
    returns (dates: seq<Moment>)
    requires ValidMoment(started) && ValidMoment(windowStart) && ValidMoment(asOf) && 1 <= billDay
    ensures IsSchedule(started, Step(frequency), billDay, windowStart, asOf, dates)
  {
    var step := Step(frequency);
    var cursor, skipped := SkipToWindow(started, step, billDay, windowStart);
    dates := CollectDates(started, step, billDay, asOf, cursor, skipped);
  }

  /** A date of the schedule that lies in the window. */
  ghost predicate InWindow(windowStart: Moment, asOf: Moment, m: Moment) {
    !IsBefore(m, windowStart) && !IsBefore(asOf, m)
  }

  /** The invoice dates fall on the bill day and are not in the future. */
  lemma {:induction false} ScheduleOnBillDay(started: Moment, frequency: Frequency, billDay: int, asOf: Moment,
                                            dates: seq<Moment>, skipped: nat)
    requires ValidMoment(started) && ValidMoment(asOf) && 1 <= billDay
    requires ListsAll(started, Step(frequency), billDay, asOf, dates, skipped)
    ensures forall i :: 0 <= i < |dates| ==>
              && ValidMoment(dates[i])
              && dates[i].date.day == Min(billDay, 28)
              && dates[i].timeOfDay == 7 * HOUR + 12 * MINUTE + started.timeOfDay % SECOND
              && Instant(dates[i]) <= Instant(asOf)
  {
    var step := Step(frequency);
    forall i | 0 <= i < |dates|
      ensures ValidMoment(dates[i]) && dates[i].date.day == Min(billDay, 28) && Instant(dates[i]) <= Instant(asOf)
    {
      AddedMonths(started, (skipped + i) * step, billDay);
      assert !IsBefore(asOf, dates[i]);
    }
  }

  function MonthsApart(frequency: Frequency): nat {
    match frequency case Quarterly => 3 case Yearly => 12 case Monthly | OtherFrequency => 1
  }

  /** Consecutive invoices are 1, 3 or 12 months apart by frequency, counted from the month the
      subscription started. */
  lemma ScheduleSteps(started: Moment, frequency: Frequency, billDay: int, asOf: Moment, dates: seq<Moment>,
                      skipped: nat, i: nat)
    requires ValidMoment(started) && 1 <= billDay
    requires Lists(started, Step(frequency), billDay, asOf, dates, skipped) && i < |dates|
    ensures MonthIndex(dates[i].date) == MonthIndex(started.date) + (skipped + i) * MonthsApart(frequency)
    ensures i + 1 < |dates| ==> MonthIndex(dates[i + 1].date) == MonthIndex(dates[i].date) + MonthsApart(frequency)
  {
    MonthOfDate(started, frequency, billDay, asOf, dates, skipped, i);
    if i + 1 < |dates| {
      MonthOfDate(started, frequency, billDay, asOf, dates, skipped, i + 1);
      NextMultiple(skipped + i, MonthsApart(frequency));
    }
  }

  lemma MonthOfDate(started: Moment, frequency: Frequency, billDay: int, asOf: Moment, dates: seq<Moment>,
                    skipped: nat, i: nat)
    requires ValidMoment(started) && 1 <= billDay
    requires Lists(started, Step(frequency), billDay, asOf, dates, skipped) && i < |dates|
    ensures MonthIndex(dates[i].date) == MonthIndex(started.date) + (skipped + i) * MonthsApart(frequency)
  {
    AddedMonths(started, (skipped + i) * Step(frequency), billDay);
  }

  lemma LaterDate(started: Moment, step: nat, billDay: int, asOf: Moment, dates: seq<Moment>, skipped: nat, i: nat,
                  j: nat)
    requires ValidMoment(started) && 1 <= billDay && 1 <= step
    requires Lists(started, step, billDay, asOf, dates, skipped) && i < j < |dates|
    ensures IsBefore(dates[i], dates[j])
  {
    CursorGrows(started, step, billDay, skipped + i, skipped + j);
  }

  /** The invoice dates always increase strictly. */
  lemma ScheduleOrdered(started: Moment, frequency: Frequency, billDay: int, asOf: Moment, dates: seq<Moment>,
                        skipped: nat)
    requires ValidMoment(started) && ValidMoment(asOf) && 1 <= billDay
    requires ListsAll(started, Step(frequency), billDay, asOf, dates, skipped)
    ensures forall i, j :: 0 <= i < j < |dates| ==> IsBefore(dates[i], dates[j])
  {
    forall i, j | 0 <= i < j < |dates|
      ensures IsBefore(dates[i], dates[j])
    {
      LaterDate(started, Step(frequency), billDay, asOf, dates, skipped, i, j);
    }
  }

  /** Neither cap cuts the schedule: seen from the schedule itself, before any loop runs. */
  ghost predicate CapsHold(started: Moment, step: nat, billDay: int, windowStart: Moment, asOf: Moment, skipped: nat) {
    && (IsBefore(Cursor(started, step, billDay, 48), windowStart) ==>
          IsBefore(asOf, Cursor(started, step, billDay, 48)))
    && IsBefore(asOf, Cursor(started, step, billDay, skipped + 24))
  }

  /** The dates are exactly those of the schedule that lie in the window. */
  ghost predicate Complete(started: Moment, step: nat, billDay: int, windowStart: Moment, asOf: Moment,
                           skipped: nat, n: nat) {
    forall k: nat :: InWindow(windowStart, asOf, Cursor(started, step, billDay, k)) <==> skipped <= k < skipped + n
  }

  /** The loops list exactly the dates of the schedule in the window, if and only if no cap
      binds. When the first cap binds, dates before the window are billed; when the second
      does, dates in the window are missed. */
  lemma ScheduleExactly(started: Moment, frequency: Frequency, billDay: int, windowStart: Moment, asOf: Moment,
                        dates: seq<Moment>)
    requires ValidMoment(started) && ValidMoment(windowStart) && ValidMoment(asOf) && 1 <= billDay
    requires IsSchedule(started, Step(frequency), billDay, windowStart, asOf, dates)
    ensures var step := Step(frequency);
            var skipped := Skipped(started, step, billDay, windowStart);
            Complete(started, step, billDay, windowStart, asOf, skipped, |dates|) <==>
            CapsHold(started, step, billDay, windowStart, asOf, skipped)
  {
    var step := Step(frequency);
    var skipped := Skipped(started, step, billDay, windowStart);
    SkippedSkips(started, step, billDay, windowStart);
    if CapsHold(started, step, billDay, windowStart, asOf, skipped) {
      CapsHoldComplete(started, step, billDay, windowStart, asOf, dates, skipped);
    } else {
      CapsBindIncomplete(started, step, billDay, windowStart, asOf, dates, skipped);
    }
  }

  lemma CapsHoldComplete(started: Moment, step: nat, billDay: int, windowStart: Moment, asOf: Moment,
                         dates: seq<Moment>, skipped: nat)
    requires ValidMoment(started) && ValidMoment(windowStart) && ValidMoment(asOf) && 1 <= billDay && 1 <= step
    requires SkipsTo(started, step, billDay, windowStart, skipped)
    requires ListsAll(started, step, billDay, asOf, dates, skipped)
    requires CapsHold(started, step, billDay, windowStart, asOf, skipped)
    ensures Complete(started, step, billDay, windowStart, asOf, skipped, |dates|)
  {
    forall k: nat
      ensures InWindow(windowStart, asOf, Cursor(started, step, billDay, k)) <==> skipped <= k < skipped + |dates|
    {
      if k > skipped + |dates| {
        CursorGrows(started, step, billDay, skipped + |dates|, k);
      } else if skipped <= k < skipped + |dates| {
        assert dates[k - skipped] == Cursor(started, step, billDay, k);
        assert dates[0] == Cursor(started, step, billDay, skipped);
        if skipped < k { CursorGrows(started, step, billDay, skipped, k); }
      }
    }
  }

  lemma CapsBindIncomplete(started: Moment, step: nat, billDay: int, windowStart: Moment, asOf: Moment,
                           dates: seq<Moment>, skipped: nat)
    requires ValidMoment(started) && ValidMoment(windowStart) && ValidMoment(asOf) && 1 <= billDay && 1 <= step
    requires SkipsTo(started, step, billDay, windowStart, skipped)
    requires ListsAll(started, step, billDay, asOf, dates, skipped)
    requires !CapsHold(started, step, billDay, windowStart, asOf, skipped)
    ensures !Complete(started, step, billDay, windowStart, asOf, skipped, |dates|)
  {
    var first, late := Cursor(started, step, billDay, skipped), Cursor(started, step, billDay, skipped + DATE_CAP);
    CursorGrows(started, step, billDay, skipped, skipped + DATE_CAP);
    if IsBefore(asOf, late) {
      if skipped < SKIP_CAP {
        CursorGrows(started, step, billDay, skipped, SKIP_CAP);
      }
      assert !InWindow(windowStart, asOf, first) && dates != [];
    } else {
      StillInWindow(windowStart, asOf, first, late);
      FullList(started, step, billDay, asOf, dates, skipped);
    }
    BadEnds(started, step, billDay, windowStart, asOf, skipped, |dates|);
  }

  lemma StillInWindow(windowStart: Moment, asOf: Moment, first: Moment, late: Moment)
    requires ValidMoment(windowStart) && IsBefore(first, late) && !IsBefore(asOf, late)
    ensures InWindow(windowStart, asOf, first) ==> InWindow(windowStart, asOf, late)
  {
  }

  lemma FullList(started: Moment, step: nat, billDay: int, asOf: Moment, dates: seq<Moment>, skipped: nat)
    requires ValidMoment(started) && ValidMoment(asOf) && 1 <= billDay && 1 <= step
    requires ListsAll(started, step, billDay, asOf, dates, skipped)
    requires !IsBefore(asOf, Cursor(started, step, billDay, skipped + DATE_CAP))
    ensures |dates| == DATE_CAP
  {
    if |dates| < DATE_CAP {
      CursorGrows(started, step, billDay, skipped + |dates|, skipped + DATE_CAP);
    }
  }

  lemma BadEnds(started: Moment, step: nat, billDay: int, windowStart: Moment, asOf: Moment, skipped: nat, n: nat)
    requires n > 0
    requires || !InWindow(windowStart, asOf, Cursor(started, step, billDay, skipped))
             || InWindow(windowStart, asOf, Cursor(started, step, billDay, skipped + n))
    ensures !Complete(started, step, billDay, windowStart, asOf, skipped, n)
  {
  }
}
