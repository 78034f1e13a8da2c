/** The wait for payday, in the simulator and in the web client. */
module Payday {
  import opened Wrappers
  import opened Arithmetic
  import opened Calendar
  import opened Units

  const PAYDAY_LAST: int := 5
  const LOOKAHEAD: int := 20 * DAY

  function PaydayRecoveryBoost(day: int): real {
    if 1 <= day <= 5 then 0.92 else if 6 <= day <= 10 then 0.55 else 0.18
  }

  /** Both tests made of the boost ask for one of the first ten days of the month. */
  lemma BoostExactly(day: int)
    ensures PaydayRecoveryBoost(day) > 0.5 <==> 1 <= day <= 10
    ensures PaydayRecoveryBoost(day) >= 0.5 <==> 1 <= day <= 10
  {
  }

  function FirstOfNextMonth(d: Date): Date {
    if d.month < 12 then Date(d.year, d.month + 1, 1) else Date(d.year + 1, 1, 1)
  }

  /** The next day if it is one of the first five of its month, else the next first. */
  function NextPayday(d: Date): Date {
    var tomorrow := NextDay(d);
    if tomorrow.day <= PAYDAY_LAST then tomorrow else FirstOfNextMonth(tomorrow)
  }

  lemma FirstOfNextMonthLater(d: Date)
    requires ValidDate(d)
    ensures ValidDate(FirstOfNextMonth(d))
    ensures Ordinal(FirstOfNextMonth(d)) == Ordinal(d) + MonthLength(d.year, d.month) - d.day + 1
  {
    NextMonthOrdinal(d, FirstOfNextMonth(d));
  }

  /** It is the first day-of-month 1 to 5 strictly after the date, at most 27 days later. */
  lemma NextPaydayIsFirst(d: Date)
    requires ValidDate(d)
    ensures var p := NextPayday(d);
            && ValidDate(p) && 1 <= p.day <= 5
            && 1 <= Ordinal(p) - Ordinal(d) <= 27
            && forall e :: ValidDate(e) && Ordinal(d) < Ordinal(e) < Ordinal(p) ==> e.day > 5
  {
    var tomorrow, p := NextDay(d), NextPayday(d);
    NextDayOrdinal(d);
    if tomorrow.day > PAYDAY_LAST {
      FirstOfNextMonthLater(tomorrow);
      forall e | ValidDate(e) && Ordinal(d) < Ordinal(e) < Ordinal(p)
        ensures e.day > PAYDAY_LAST
      {
        OrdinalInjective(e, p);
        OrdinalInjective(e, tomorrow);
        assert MonthIndex(p) == MonthIndex(tomorrow) + 1;
      }
    }
  }

  /** Shifts a valid moment to the morning slot of its day, keeping its seconds. */
  function MorningSlot(m: Moment): Moment {
    Moment(m.date, 9 * HOUR + 15 * MINUTE + m.timeOfDay % MINUTE)
  }

  /** Whether the lookahead lets the search reach payday, told from its inputs. */
  predicate WithinLookahead(failedAt: Moment, asOf: int)
    requires ValidMoment(failedAt) && ValidDate(NextPayday(failedAt.date))
  {
    || NextPayday(failedAt.date) == NextDay(failedAt.date)
    || Instant(Moment(NextPayday(failedAt.date), failedAt.timeOfDay)) - DAY < asOf + 20 * DAY
  }

  /** The simulator's day-by-day search. */
  method WaitUntilPayday(failedAt: Moment, asOf: int) returns (wait: Moment)
    requires ValidMoment(failedAt)
    ensures ValidMoment(wait) && ValidDate(NextPayday(failedAt.date))
    ensures wait.timeOfDay == MorningSlot(failedAt).timeOfDay
    ensures Ordinal(failedAt.date) < Ordinal(wait.date) <= Ordinal(NextPayday(failedAt.date))
    ensures wait.date == NextPayday(failedAt.date) <==> WithinLookahead(failedAt, asOf)
    ensures !WithinLookahead(failedAt, asOf) ==>
              wait.date.day > PAYDAY_LAST && asOf + LOOKAHEAD - DAY < Instant(wait)
  {
    NextPaydayIsFirst(failedAt.date);
    NextDayInstant(failedAt);
    ghost var payday := NextPayday(failedAt.date);
    wait := failedAt.(date := NextDay(failedAt.date));
    while wait.date.day > PAYDAY_LAST && Instant(wait) < asOf + LOOKAHEAD
      invariant ValidMoment(wait) && wait.timeOfDay == failedAt.timeOfDay
      invariant Ordinal(failedAt.date) < Ordinal(wait.date)
      invariant wait.date.day > PAYDAY_LAST ==> FirstOfNextMonth(wait.date) == payday
      invariant wait.date.day <= PAYDAY_LAST ==> wait.date == payday
      invariant wait.date == NextDay(failedAt.date) || Instant(wait) - DAY < asOf + LOOKAHEAD
      decreases if wait.date.day <= PAYDAY_LAST then 0
                else MonthLength(wait.date.year, wait.date.month) - wait.date.day + 1
    {
      NextDayInstant(wait);
      wait := wait.(date := NextDay(wait.date));
    }
    SearchStopped(failedAt, asOf, wait);
    wait := MorningSlot(wait);
  }

  /** Where the search stands when it stops, before the time of day is set. */
  lemma SearchStopped(failedAt: Moment, asOf: int, wait: Moment)
    requires ValidMoment(failedAt) && ValidMoment(wait) && wait.timeOfDay == failedAt.timeOfDay
    requires ValidDate(NextPayday(failedAt.date)) && NextPayday(failedAt.date).day <= PAYDAY_LAST
    requires wait.date.day > PAYDAY_LAST ==>
               FirstOfNextMonth(wait.date) == NextPayday(failedAt.date) && asOf + LOOKAHEAD <= Instant(wait)
    requires wait.date.day <= PAYDAY_LAST ==> wait.date == NextPayday(failedAt.date)
    requires wait.date == NextDay(failedAt.date) || Instant(wait) - DAY < asOf + LOOKAHEAD
    requires Ordinal(failedAt.date) < Ordinal(wait.date)
    ensures Ordinal(wait.date) <= Ordinal(NextPayday(failedAt.date))
    ensures wait.date == NextPayday(failedAt.date) <==> WithinLookahead(failedAt, asOf)
    ensures wait.date.day > PAYDAY_LAST <==> !WithinLookahead(failedAt, asOf)
    ensures ValidMoment(MorningSlot(wait)) && Instant(wait) - DAY < Instant(MorningSlot(wait))
  {
    var payday := NextPayday(failedAt.date);
    if wait.date.day > PAYDAY_LAST {
      FirstOfNextMonthLater(wait.date);
      NextDayOrdinal(failedAt.date);
      assert Ordinal(wait.date) < Ordinal(payday);
      assert payday != NextDay(failedAt.date);
      LaterDayLaterInstant(wait, Moment(payday, failedAt.timeOfDay));
    }
    SlotIsClose(wait);
  }

  lemma LaterDayLaterInstant(a: Moment, b: Moment)
    requires ValidMoment(a) && ValidMoment(b) && a.timeOfDay == b.timeOfDay && Ordinal(a.date) < Ordinal(b.date)
    ensures Instant(a) + DAY <= Instant(b)
  {
    WholeStep(Ordinal(a.date), Ordinal(b.date), DAY);
  }

  lemma SlotIsClose(m: Moment)
    requires ValidMoment(m)
    ensures ValidMoment(MorningSlot(m)) && Instant(m) - DAY < Instant(MorningSlot(m))
  {
  }

  /** A payday case is recovered if and only if its wait is over: the strong-day test never
      rejects a wait that has ended, so the failed retry is unreachable. */
  lemma PaydayRecoversExactly(failedAt: Moment, asOf: int, wait: Moment)
    requires ValidMoment(failedAt) && ValidMoment(wait)
    requires ValidDate(NextPayday(failedAt.date))
    requires wait.date == NextPayday(failedAt.date) <==> WithinLookahead(failedAt, asOf)
    requires !WithinLookahead(failedAt, asOf) ==> asOf + LOOKAHEAD - DAY < Instant(wait)
    ensures PaydayRecoveryBoost(wait.date.day) >= 0.5 && Instant(wait) <= asOf <==> Instant(wait) <= asOf
  {
    NextPaydayIsFirst(failedAt.date);
  }

  /** The web client's search; an unreadable timestamp is handed back as it is. */
  method NextPaydayIso(stamp: Option<Moment>) returns (next: Option<Moment>)
    requires stamp.Some? ==> ValidMoment(stamp.value)
    ensures next.Some? <==> stamp.Some?
    ensures stamp.Some? ==> next.value == Moment(NextPayday(stamp.value.date), 9 * HOUR + 15 * MINUTE)
  {
    if stamp.None? {
      return None;
    }
    var date := NextDay(stamp.value.date);
    NextDayOrdinal(stamp.value.date);
    while date.day > PAYDAY_LAST
      invariant ValidDate(date)
      invariant date.day > PAYDAY_LAST ==> FirstOfNextMonth(date) == NextPayday(stamp.value.date)
      invariant date.day <= PAYDAY_LAST ==> date == NextPayday(stamp.value.date)
      decreases if date.day > PAYDAY_LAST then MonthLength(date.year, date.month) - date.day + 1 else 0
    {
      NextDayOrdinal(date);
      date := NextDay(date);
      if date.day == 1 {
        break;
      }
    }
    next := Some(Moment(date, 9 * HOUR + 15 * MINUTE));
  }

  /** Both searches from one failure: they name the same day exactly when the lookahead does
      not cut the simulator's short, and the same instant exactly when in addition the
      failure fell on a whole minute. */
  method SearchesAgreeExactly(failedAt: Moment, asOf: int) returns (wait: Moment, next: Moment)
    requires ValidMoment(failedAt)
    ensures ValidMoment(wait) && ValidMoment(next) && ValidDate(NextPayday(failedAt.date))
    ensures wait.date == next.date <==> WithinLookahead(failedAt, asOf)
    ensures wait == next <==> WithinLookahead(failedAt, asOf) && failedAt.timeOfDay % MINUTE == 0
    ensures !WithinLookahead(failedAt, asOf) ==> asOf < Instant(wait)
  {
    NextPaydayIsFirst(failedAt.date);
    wait := WaitUntilPayday(failedAt, asOf);
    var stamp := NextPaydayIso(Some(failedAt));
    next := stamp.value;
  }
}
