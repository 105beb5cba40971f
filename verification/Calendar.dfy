/**
 The billing calendar of message/limiter.go: the proleptic Gregorian calendar that
 Go's `time` package uses, `AddDate(0, 1, 0)` with its overflow normalisation, and the
 two helpers `ensureFuture` and `dayThisMonth` built on it.

 Months are numbered consecutively: month m (1..12) of year y has number 12*y + m - 1.
 */
module Calendar {

  const NANOS_PER_DAY: int := 86_400_000_000_000

  predicate IsLeap(year: int) {
    year % 4 == 0 && (year % 100 != 0 || year % 400 == 0)
  }

  function DaysIn(month: int): (n: int)
    ensures 28 <= n <= 31
  {
    var m := month % 12 + 1;
    if m == 2 then (if IsLeap(month / 12) then 29 else 28)
    else if m == 4 || m == 6 || m == 9 || m == 11 then 30
    else 31
  }

  /** The day number of the first day of a month, counted from 1 January of year 0. */
  function MonthStart(month: int): int
    decreases if month < 0 then -month else month
  {
    if month == 0 then 0
    else if month > 0 then MonthStart(month - 1) + DaysIn(month - 1)
    else MonthStart(month + 1) - DaysIn(month)
  }

  /** Days from 1 January of year 0 to 1 January of the given year, in closed form. */
  function DaysBeforeYear(year: int): int {
    var y := year - 1;
    365 * year + y / 4 - y / 100 + y / 400 + 1
  }

  lemma StepOver4(n: int)
    ensures n / 4 == (n - 1) / 4 + (if n % 4 == 0 then 1 else 0)
  {
  }

  lemma StepOver100(n: int)
    ensures n / 100 == (n - 1) / 100 + (if n % 100 == 0 then 1 else 0)
    ensures n % 100 == 0 ==> n % 4 == 0
  {
  }

  lemma StepOver400(n: int)
    ensures n / 400 == (n - 1) / 400 + (if n % 400 == 0 then 1 else 0)
    ensures n % 400 == 0 ==> n % 100 == 0
  {
  }

  lemma YearLength(year: int)
    ensures DaysBeforeYear(year + 1) == DaysBeforeYear(year) + (if IsLeap(year) then 366 else 365)
  {
    StepOver4(year);
    StepOver100(year);
    StepOver400(year);
  }

  lemma MonthOfYear(year: int, m: int)
    requires 0 <= m < 12
    ensures DaysIn(12 * year + m) == (if m == 1 then (if IsLeap(year) then 29 else 28)
                                      else if m == 3 || m == 5 || m == 8 || m == 10 then 30 else 31)
  {
    assert (12 * year + m) / 12 == year && (12 * year + m) % 12 == m;
  }

  lemma MonthStartNext(month: int)
    ensures MonthStart(month + 1) == MonthStart(month) + DaysIn(month)
  {
  }

  lemma ThreeMonths(month: int)
    ensures MonthStart(month + 3) == MonthStart(month) + DaysIn(month) + DaysIn(month + 1) + DaysIn(month + 2)
  {
    MonthStartNext(month);
    MonthStartNext(month + 1);
    MonthStartNext(month + 2);
    hide *;
  }

  /** Twelve month lengths make a year, for every year. */
  lemma TwelveMonths(year: int)
    ensures MonthStart(12 * year + 12) == MonthStart(12 * year) + (if IsLeap(year) then 366 else 365)
  {
    hide *;
    ThreeMonths(12 * year);
    ThreeMonths(12 * year + 3);
    ThreeMonths(12 * year + 6);
    ThreeMonths(12 * year + 9);
    MonthOfYear(year, 0); MonthOfYear(year, 1); MonthOfYear(year, 2); MonthOfYear(year, 3);
    MonthOfYear(year, 4); MonthOfYear(year, 5); MonthOfYear(year, 6); MonthOfYear(year, 7);
    MonthOfYear(year, 8); MonthOfYear(year, 9); MonthOfYear(year, 10); MonthOfYear(year, 11);
  }

  lemma YearZero()
    ensures MonthStart(0) == DaysBeforeYear(0)
  {
  }

  /** Counting month by month agrees with the closed formula of the Gregorian calendar. */
  lemma {:induction false} YearStart(year: int)
    ensures MonthStart(12 * year) == DaysBeforeYear(year)
    decreases if year < 0 then -year else year
  {
    hide MonthStart;
    hide DaysBeforeYear;
    if year > 0 {
      YearStart(year - 1);
      TwelveMonths(year - 1);
      YearLength(year - 1);
    } else if year < 0 {
      YearStart(year + 1);
      TwelveMonths(year);
      YearLength(year);
    } else {
      assert MonthStart(0) == DaysBeforeYear(0) by { YearZero(); }
    }
  }

  lemma {:induction false} MonthStartOrder(a: int, b: int)
    requires a < b
    ensures MonthStart(a) + DaysIn(a) <= MonthStart(b)
    decreases b - a
  {
    MonthStartNext(a);
    hide *;
    if a + 1 < b {
      MonthStartOrder(a + 1, b);
    }
  }

  /** A date and time of day, at a fixed offset from UTC. */
  datatype Civil = Civil(month: int, day: int, nano: int) {
    predicate Valid() {
      1 <= day <= DaysIn(month) && 0 <= nano < NANOS_PER_DAY
    }
  }

  type Time = t: Civil | t.Valid() witness Civil(0, 1, 0)

  /** Go's zero `time.Time`: midnight on 1 January of year 1. */
  const ZERO_TIME: Time := Civil(12, 1, 0)

  function DayNumber(t: Time): int {
    MonthStart(t.month) + t.day - 1
  }

  /** The instant, in nanoseconds: what `Before` and `Equal` compare. */
  function Nanos(t: Time): int {
    DayNumber(t) * NANOS_PER_DAY + t.nano
  }

  predicate Before(a: Time, b: Time) {
    Nanos(a) < Nanos(b)
  }

  /** The order of dates read as (month, day, time of day). */
  predicate EarlierDate(a: Time, b: Time) {
    a.month < b.month ||
    (a.month == b.month && (a.day < b.day || (a.day == b.day && a.nano < b.nano)))
  }

  /** Comparing instants is comparing dates. */
  lemma BeforeIsEarlierDate(a: Time, b: Time)
    ensures Before(a, b) <==> EarlierDate(a, b)
    ensures Nanos(a) == Nanos(b) <==> a == b
  {
    if a.month < b.month {
      MonthStartOrder(a.month, b.month);
    } else if b.month < a.month {
      MonthStartOrder(b.month, a.month);
    }
  }

  /** `time.Date` with any day of the month, normalised: the date whose day number is
      `day - 1` days after the first of the month. */
  function Date(month: int, day: int, nano: int): (t: Time)
    requires 0 <= nano < NANOS_PER_DAY
    ensures DayNumber(t) == MonthStart(month) + day - 1
    ensures t.nano == nano
    ensures 1 <= day <= DaysIn(month) ==> t == Civil(month, day, nano)
    decreases day < 1, if day < 1 then -day else day
  {
    if day < 1 then
      MonthStartNext(month - 1);
      Date(month - 1, day + DaysIn(month - 1), nano)
    else if day > DaysIn(month) then
      MonthStartNext(month);
      Date(month + 1, day - DaysIn(month), nano)
    else
      Civil(month, day, nano)
  }

  /** `t.AddDate(0, 1, 0)`: the day is kept if the next month has it; otherwise it spills
      into the month after. */
  function AddMonth(t: Time): Time {
    var excess := t.day - DaysIn(t.month + 1);
    if excess <= 0 then Civil(t.month + 1, t.day, t.nano) else Civil(t.month + 2, excess, t.nano)
  }

  /** `AddDate` is `Date` on the next month's number, normalised. */
  lemma AddMonthIsDate(t: Time)
    ensures AddMonth(t) == Date(t.month + 1, t.day, t.nano)
  {
  }

  /** One month later is later by the length of the starting month, whatever the day. */
  lemma AddMonthAddsMonthLength(t: Time)
    ensures DayNumber(AddMonth(t)) == DayNumber(t) + DaysIn(t.month)
    ensures Nanos(AddMonth(t)) == Nanos(t) + DaysIn(t.month) * NANOS_PER_DAY
  {
    MonthStartNext(t.month);
    MonthStartNext(t.month + 1);
    hide DaysIn;
    hide MonthStart;
  }

  function Iterate(t: Time, n: nat): Time
    decreases n
  {
    if n == 0 then t else Iterate(AddMonth(t), n - 1)
  }

  /** What `ensureFuture` computes. */
  function EnsuredFuture(periodEnd: Time, now: Time): (r: Time)
    ensures !Before(r, now)
    ensures !Before(periodEnd, now) ==> r == periodEnd
    ensures Before(periodEnd, now) ==> Nanos(r) < Nanos(now) + 31 * NANOS_PER_DAY
    decreases Nanos(now) - Nanos(periodEnd)
  {
    if Before(periodEnd, now) then
      AddMonthAddsMonthLength(periodEnd);
      EnsuredFuture(AddMonth(periodEnd), now)
    else
      periodEnd
  }

  /** `ensureFuture` (message/limiter.go:80-87). */
  method EnsureFuture(periodEnd: Time, now: Time) returns (end: Time)
    ensures end == EnsuredFuture(periodEnd, now)
  {
    end := periodEnd;
    while Before(end, now)
      invariant EnsuredFuture(end, now) == EnsuredFuture(periodEnd, now)
      decreases Nanos(now) - Nanos(end)
    {
      AddMonthAddsMonthLength(end);
      end := AddMonth(end);
    }
  }

  /** Is every one of the first n monthly iterates of t before now? */
  predicate AllBefore(t: Time, n: nat, now: Time)
    decreases n
  {
    n == 0 || (Before(t, now) && AllBefore(AddMonth(t), n - 1, now))
  }

  lemma {:induction false} AllBeforeAt(t: Time, n: nat, now: Time, j: nat)
    requires AllBefore(t, n, now) && j < n
    ensures Before(Iterate(t, j), now)
    decreases n
  {
    hide DaysIn;
    if j > 0 {
      AllBeforeAt(AddMonth(t), n - 1, now, j - 1);
    }
  }

  lemma {:induction false} StepsToFuture(t: Time, now: Time) returns (n: nat)
    ensures EnsuredFuture(t, now) == Iterate(t, n) && AllBefore(t, n, now)
    decreases Nanos(now) - Nanos(t)
  {
    hide DaysIn;
    if Before(t, now) {
      AddMonthAddsMonthLength(t);
      n := StepsToFuture(AddMonth(t), now);
      n := n + 1;
    } else {
      n := 0;
    }
  }

  /** Is r the first of the monthly iterates of t that is not before now? */
  ghost predicate FirstNotBefore(t: Time, now: Time, r: Time) {
    && !Before(r, now)
    && exists n: nat :: r == Iterate(t, n) && forall j: nat :: j < n ==> Before(Iterate(t, j), now)
  }

  /** The result is the first of the monthly iterates that is not before now. */
  lemma FirstIterate(t: Time, now: Time)
    ensures FirstNotBefore(t, now, EnsuredFuture(t, now))
  {
    hide EnsuredFuture, AllBefore, Before, AddMonth, DaysIn, MonthStart, Nanos, DayNumber;
    var n := StepsToFuture(t, now);
    forall j: nat | j < n
      ensures Before(Iterate(t, j), now)
    {
      AllBeforeAt(t, n, now, j);
    }
  }

  /** Within a month: is (day, time of day) of `a` earlier than that of `b`? */
  predicate EarlierInMonth(a: Time, b: Time) {
    a.day < b.day || (a.day == b.day && a.nano < b.nano)
  }

  /** How many months `ensureFuture` advances a period end that falls on day 1..28. */
  function MonthsToAdvance(t: Time, now: Time): nat {
    var k := now.month - t.month + (if EarlierInMonth(t, now) then 1 else 0);
    if k > 0 then k else 0
  }

  /** The month-by-month loop is one jump that keeps the day of the month and the time of day. */
  lemma {:induction false} EnsureFutureClosedForm(t: Time, now: Time)
    requires t.day <= 28
    ensures EnsuredFuture(t, now) == Civil(t.month + MonthsToAdvance(t, now), t.day, t.nano)
    decreases Nanos(now) - Nanos(t)
  {
    BeforeIsEarlierDate(t, now);
    if Before(t, now) {
      AddMonthAddsMonthLength(t);
      EnsureFutureClosedForm(AddMonth(t), now);
    }
  }

  predicate HasDay(month: int, day: int) {
    day <= DaysIn(month)
  }

  /** For any day of the month: repeated months keep the day exactly when every month
      passed through has that day. One short month on the way loses it for good. */
  lemma {:induction false} IterateKeepsDayIff(t: Time, n: nat)
    ensures (forall m :: t.month < m <= t.month + n ==> HasDay(m, t.day)) ==>
              Iterate(t, n) == Civil(t.month + n, t.day, t.nano)
    ensures Iterate(t, n).day == t.day <==> forall m :: t.month < m <= t.month + n ==> HasDay(m, t.day)
    ensures Iterate(t, n).day != t.day ==> Iterate(t, n).day <= 3
    decreases n
  {
    if n > 0 {
      var u := AddMonth(t);
      IterateKeepsDayIff(u, n - 1);
      if HasDay(t.month + 1, t.day) {
        assert forall m {:trigger HasDay(m, t.day)} ::
            t.month < m <= t.month + n ==> m == t.month + 1 || u.month < m <= u.month + n - 1;
      } else {
        assert forall m :: u.month < m <= u.month + n - 1 ==> HasDay(m, u.day);
      }
    }
  }

  /** Do all months after t's, up to the given one, have t's day? */
  predicate DayKeptUntil(t: Time, month: int) {
    forall m :: t.month < m <= month ==> HasDay(m, t.day)
  }

  /** Is m the first month after t's that lacks t's day? */
  predicate FirstShortMonth(t: Time, m: int) {
    t.month < m && !HasDay(m, t.day) && DayKeptUntil(t, m - 1)
  }

  /** Does the monthly sequence from t pass through now? Up to the first month that lacks t's day it
      keeps that day; after it, it keeps the day that is left over. */
  predicate OnTheWay(t: Time, now: Time) {
    && t.nano == now.nano
    && t.month <= now.month
    && (|| (DayKeptUntil(t, now.month) && now.day == t.day)
        || exists m :: t.month < m < now.month && FirstShortMonth(t, m) && now.day == t.day - DaysIn(m))
  }

  lemma OnTheWayHere(t: Time, now: Time)
    requires now.month <= t.month
    ensures OnTheWay(t, now) <==> t == now
  {
    hide DaysIn;
  }

  lemma OnTheWayNext(t: Time, now: Time)
    requires t.month < now.month
    ensures OnTheWay(t, now) <==> OnTheWay(AddMonth(t), now)
  {
    var u := AddMonth(t);
    if HasDay(t.month + 1, t.day) {
      forall month | month > t.month
        ensures DayKeptUntil(t, month) <==> DayKeptUntil(u, month)
      {
        assert forall m {:trigger HasDay(m, t.day)} :: t.month < m <= month ==> m == t.month + 1 || u.month < m;
      }
      assert forall m :: t.month + 1 < m ==> (FirstShortMonth(t, m) <==> FirstShortMonth(u, m));
      assert !FirstShortMonth(t, t.month + 1);
    } else {
      assert forall m :: HasDay(m, u.day);
      assert !DayKeptUntil(t, now.month);
      assert DayKeptUntil(u, now.month);
      assert FirstShortMonth(t, t.month + 1);
      forall m | FirstShortMonth(t, m)
        ensures m == t.month + 1
      {
      }
    }
  }

  /** The comment on `ensureFuture` promises a period end in the future. The code also returns the
      present instant, and does so exactly when the monthly sequence from the period end passes
      through it, for every period end and now. */
  lemma {:induction false} StrictlyFutureIff(t: Time, now: Time)
    ensures Before(now, EnsuredFuture(t, now)) <==> !OnTheWay(t, now)
    decreases Nanos(now) - Nanos(t)
  {
    BeforeIsEarlierDate(t, now);
    BeforeIsEarlierDate(now, t);
    hide DaysIn, OnTheWay;
    if Before(t, now) {
      AddMonthAddsMonthLength(t);
      StrictlyFutureIff(AddMonth(t), now);
    }
    if t.month < now.month {
      OnTheWayNext(t, now);
    } else {
      OnTheWayHere(t, now);
      OnTheWayHere(AddMonth(t), now);
    }
  }

  /** A period end that is not moved although it is not in the future: 1 January 2000. */
  lemma NotStrictlyFuture()
    ensures exists t: Time, now: Time :: !Before(now, EnsuredFuture(t, now))
  {
    var t: Time := Civil(24000, 1, 0);
    OnTheWayHere(t, t);
    StrictlyFutureIff(t, t);
  }

  /** `dayThisMonth` (message/limiter.go:91-93). */
  function DayThisMonth(dayOfMonth: int, now: Time): Time {
    Date(now.month, dayOfMonth, 0)
  }

  /** The period end that `apply` installs (message/limiter.go:211). */
  function AppliedPeriodEnd(dayOfMonth: int, now: Time): Time {
    EnsuredFuture(DayThisMonth(dayOfMonth, now), now)
  }

  lemma {:induction false} EnsuredKeepsTimeOfDay(t: Time, now: Time)
    ensures EnsuredFuture(t, now).nano == t.nano
    decreases Nanos(now) - Nanos(t)
  {
    if Before(t, now) {
      AddMonthAddsMonthLength(t);
      EnsuredKeepsTimeOfDay(AddMonth(t), now);
    }
  }

  /** A configuration sets a period end at midnight, for every billing day. */
  lemma AppliedAtMidnight(dayOfMonth: int, now: Time)
    ensures AppliedPeriodEnd(dayOfMonth, now).nano == 0
  {
    EnsuredKeepsTimeOfDay(DayThisMonth(dayOfMonth, now), now);
  }

  /** For a billing day in 1..28 the new period end is midnight on that day, in this month
      or the next, not before now and less than 31 days away. */
  lemma ApplyOnBillingDay(dayOfMonth: int, now: Time)
    requires 1 <= dayOfMonth <= 28
    ensures var r := AppliedPeriodEnd(dayOfMonth, now);
            var p := DayThisMonth(dayOfMonth, now);
            && r == (if Before(p, now) then AddMonth(p) else p)
            && r == Civil(now.month + (if Before(p, now) then 1 else 0), dayOfMonth, 0)
            && Nanos(now) <= Nanos(r) < Nanos(now) + 31 * NANOS_PER_DAY
  {
    var p := DayThisMonth(dayOfMonth, now);
    EnsureFutureClosedForm(p, now);
    BeforeIsEarlierDate(p, now);
    if !Before(p, now) {
      assert DayNumber(p) - DayNumber(now) <= 27;
    }
  }

  /** A day past the end of its month is normalised to a smaller day of a later month. */
  lemma {:induction false} SpilledDay(month: int, day: int)
    requires day > DaysIn(month)
    ensures Date(month, day, 0).month > month && Date(month, day, 0).day < day
    decreases day
  {
    if day - DaysIn(month) > DaysIn(month + 1) {
      SpilledDay(month + 1, day - DaysIn(month));
    }
  }

  /** For every billing day, valid or not: the new period end falls on that day exactly when
      this month has it and, if it is already past, next month has it too. */
  lemma ApplyLandsOnDayIff(dayOfMonth: int, now: Time)
    ensures AppliedPeriodEnd(dayOfMonth, now).day == dayOfMonth <==>
            && 1 <= dayOfMonth <= DaysIn(now.month)
            && (dayOfMonth <= DaysIn(now.month + 1)
                || !Before(Civil(now.month, dayOfMonth, 0), now))
  {
    var p := DayThisMonth(dayOfMonth, now);
    if 1 <= dayOfMonth <= DaysIn(now.month) {
      BeforeIsEarlierDate(p, now);
      BeforeIsEarlierDate(AddMonth(p), now);
    } else if dayOfMonth > DaysIn(now.month) {
      SpilledDay(now.month, dayOfMonth);
      BeforeIsEarlierDate(p, now);
    }
  }
}
