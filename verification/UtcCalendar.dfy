/** UTC dates as ECMA-262 defines them (section 21.4.1): a date is a number of milliseconds since the
    beginning of 1970, and its day, month and year are read off the proleptic Gregorian calendar. Months
    are numbered through the years, January 1970 being month 0. */
module UtcCalendar {
  import opened Numbers

  type Time = int

  const MS_PER_DAY := 86400000

  predicate Leap(year: int) {
    year % 4 == 0 && (year % 100 != 0 || year % 400 == 0)
  }

  function DaysIn(month: int): (n: int)
    ensures 28 <= n <= 31
  {
    var m := month % 12;
    if m == 1 then (if Leap(1970 + month / 12) then 29 else 28)
    else if m == 3 || m == 5 || m == 8 || m == 10 then 30
    else 31
  }

  /** The number of the first day of a month; 1 January 1970 is day 0. */
  function FirstDay(month: int): int
    decreases if month < 0 then -month else month
  {
    if month == 0 then 0
    else if month > 0 then FirstDay(month - 1) + DaysIn(month - 1)
    else FirstDay(month + 1) - DaysIn(month)
  }

  lemma MonthsAbut(month: int)
    ensures FirstDay(month + 1) == FirstDay(month) + DaysIn(month)
  {}

  function DayFromYear(year: int): int {
    365 * (year - 1970) + (year - 1969) / 4 - (year - 1901) / 100 + (year - 1601) / 400
  }

  function DaysBefore(leap: bool, month: int): int {
    var extra := if leap then 1 else 0;
    if month <= 0 then 0
    else if month == 1 then 31
    else if month == 2 then 59 + extra
    else if month == 3 then 90 + extra
    else if month == 4 then 120 + extra
    else if month == 5 then 151 + extra
    else if month == 6 then 181 + extra
    else if month == 7 then 212 + extra
    else if month == 8 then 243 + extra
    else if month == 9 then 273 + extra
    else if month == 10 then 304 + extra
    else 334 + extra
  }

  function FirstDayInClosedForm(month: int): int {
    var year := 1970 + month / 12;
    DayFromYear(year) + DaysBefore(Leap(year), month % 12)
  }

  lemma EveryFourYears(year: int)
    ensures (year + 1 - 1969) / 4 == (year - 1969) / 4 + if year % 4 == 0 then 1 else 0
  {}

  lemma EveryCentury(year: int)
    ensures (year + 1 - 1901) / 100 == (year - 1901) / 100 + if year % 100 == 0 then 1 else 0
  {}

  lemma EveryFourCenturies(year: int)
    ensures (year + 1 - 1601) / 400 == (year - 1601) / 400 + if year % 400 == 0 then 1 else 0
  {}

  lemma Multiples(k: int)
    ensures (4 * k) % 4 == 0 && (100 * k) % 100 == 0
  {}

  lemma LeapYears(year: int)
    ensures year % 100 == 0 ==> year % 4 == 0
    ensures year % 400 == 0 ==> year % 100 == 0
  {
    Multiples(25 * (year / 100));
    Multiples(4 * (year / 400));
  }

  lemma YearLength(year: int)
    ensures DayFromYear(year + 1) == DayFromYear(year) + if Leap(year) then 366 else 365
  {
    EveryFourYears(year);
    EveryCentury(year);
    EveryFourCenturies(year);
    LeapYears(year);
  }

  lemma ClosedFormAbuts(month: int)
    ensures FirstDayInClosedForm(month + 1) == FirstDayInClosedForm(month) + DaysIn(month)
  {
    YearLength(1970 + month / 12);
    if month % 12 == 11 {
      assert (month + 1) / 12 == month / 12 + 1 && (month + 1) % 12 == 0;
    } else {
      assert (month + 1) / 12 == month / 12 && (month + 1) % 12 == month % 12 + 1;
    }
  }

  lemma FirstMonth()
    ensures FirstDayInClosedForm(0) == 0
  {}

  /** Counting months one by one arrives where the closed form of ECMA-262 does. */
  lemma {:induction false} ClosedForm(month: int)
    ensures FirstDay(month) == FirstDayInClosedForm(month)
    decreases if month < 0 then -month else month
  {
    hide DaysIn, FirstDayInClosedForm;
    FirstMonth();
    if month > 0 {
      ClosedForm(month - 1);
      ClosedFormAbuts(month - 1);
    } else if month < 0 {
      ClosedForm(month + 1);
      ClosedFormAbuts(month);
    }
  }

  lemma {:induction false} MonthsAreOrdered(month: int, later: int)
    requires month < later
    ensures FirstDay(month) + DaysIn(month) + 28 * (later - month - 1) <= FirstDay(later)
    decreases later - month
  {
    MonthsAbut(later - 1);
    if month < later - 1 {
      MonthsAreOrdered(month, later - 1);
    }
  }

  function MonthUpFrom(month: int, day: int): (m: int)
    requires FirstDay(month) <= day
    ensures FirstDay(m) <= day < FirstDay(m + 1)
    decreases day - FirstDay(month)
  {
    MonthsAbut(month);
    if day < FirstDay(month + 1) then month else MonthUpFrom(month + 1, day)
  }

  function MonthDownFrom(month: int, day: int): (m: int)
    requires day < FirstDay(month)
    ensures FirstDay(m) <= day < FirstDay(m + 1)
    decreases FirstDay(month) - day
  {
    MonthsAbut(month - 1);
    if FirstDay(month - 1) <= day then month - 1 else MonthDownFrom(month - 1, day)
  }

  function MonthOfDay(day: int): (m: int)
    ensures FirstDay(m) <= day < FirstDay(m + 1)
  {
    if FirstDay(0) <= day then MonthUpFrom(0, day) else MonthDownFrom(0, day)
  }

  function Day(t: Time): int {
    t / MS_PER_DAY
  }

  function TimeWithinDay(t: Time): (r: int)
    ensures 0 <= r < MS_PER_DAY
  {
    t % MS_PER_DAY
  }

  function MonthOf(t: Time): int {
    MonthOfDay(Day(t))
  }

  function UtcFullYear(t: Time): int {
    1970 + MonthOf(t) / 12
  }

  function UtcMonth(t: Time): int {
    MonthOf(t) % 12
  }

  function UtcDate(t: Time): (d: int)
    ensures 1 <= d <= DaysIn(MonthOf(t))
  {
    MonthsAbut(MonthOf(t));
    Day(t) - FirstDay(MonthOf(t)) + 1
  }

  function MakeDay(year: int, month: int, date: int): int {
    FirstDay(12 * (year - 1970) + month) + date - 1
  }

  function MakeDate(day: int, time: int): Time {
    day * MS_PER_DAY + time
  }

  function DateUtc(year: int, month: int, date: int, time: int): Time {
    MakeDate(MakeDay(year, month, date), time)
  }

  function SetUtcDate(t: Time, date: int): Time {
    MakeDate(MakeDay(UtcFullYear(t), UtcMonth(t), date), TimeWithinDay(t))
  }

  function SetUtcMonth(t: Time, month: int): Time {
    MakeDate(MakeDay(UtcFullYear(t), month, UtcDate(t)), TimeWithinDay(t))
  }

  /** The calendar date with the given month, day of that month and time of day. */
  function On(month: int, date: int, time: int): Time {
    MakeDate(FirstDay(month) + date - 1, time)
  }

  /** A date in the calendar is read back as it was written. */
  lemma ReadBack(month: int, date: int, time: int)
    requires 1 <= date <= DaysIn(month) && 0 <= time < MS_PER_DAY
    ensures var t := On(month, date, time);
            MonthOf(t) == month && UtcDate(t) == date && TimeWithinDay(t) == time
  {
    var day := FirstDay(month) + date - 1;
    var t := On(month, date, time);
    assert Day(t) == day && TimeWithinDay(t) == time;
    var m := MonthOfDay(day);
    MonthsAbut(month);
    MonthsAbut(m);
    if m < month {
      MonthsAreOrdered(m, month);
    } else if month < m {
      MonthsAreOrdered(month, m);
    }
  }

  /** Every time is a date in the calendar. */
  lemma WrittenBack(t: Time)
    ensures On(MonthOf(t), UtcDate(t), TimeWithinDay(t)) == t
  {}

  function AddUtcDays(t: Time, days: int): Time {
    SetUtcDate(t, UtcDate(t) + days)
  }

  lemma DaysAreWhole(t: Time, days: int)
    ensures AddUtcDays(t, days) == t + days * MS_PER_DAY
  {
    WrittenBack(t);
  }

  function LastDate(t: Time): int {
    UtcDate(DateUtc(UtcFullYear(t), UtcMonth(t) + 1, 0, 0))
  }

  /** The month arithmetic of the control plane and of the checkout: through the first day of the target
      month, built from its parts. The anchor is the day of the month to return to. */
  function AddMonthsClamped(t: Time, months: int, anchorDay: int): Time {
    var first := DateUtc(UtcFullYear(t), UtcMonth(t) + months, 1, TimeWithinDay(t));
    SetUtcDate(first, Min(anchorDay, LastDate(first)))
  }

  /** The month arithmetic of the redemption policy: by setting the parts of a copy in turn. */
  function AddMonthsBySetting(t: Time, months: int, anchorDay: int): Time {
    var first := SetUtcDate(t, 1);
    var moved := SetUtcMonth(first, UtcMonth(first) + months);
    SetUtcDate(moved, Min(anchorDay, LastDate(moved)))
  }

  /** Setting a part of a date is writing the date with that part. */
  lemma PartsWritten(t: Time, months: int, date: int, time: int)
    ensures DateUtc(UtcFullYear(t), UtcMonth(t) + months, date, time) == On(MonthOf(t) + months, date, time)
    ensures SetUtcDate(t, date) == On(MonthOf(t), date, TimeWithinDay(t))
    ensures SetUtcMonth(t, UtcMonth(t) + months) == On(MonthOf(t) + months, UtcDate(t), TimeWithinDay(t))
  {
    hide FirstDay, DaysIn, MonthOfDay;
    var m := MonthOf(t);
    assert 12 * (UtcFullYear(t) - 1970) + (UtcMonth(t) + months) == m + months;
  }

  lemma LastDateIsLength(t: Time)
    ensures LastDate(t) == DaysIn(MonthOf(t))
  {
    hide FirstDay, DaysIn, MonthOfDay, DateUtc, UtcDate;
    var m := MonthOf(t);
    MonthsAbut(m);
    PartsWritten(t, 1, 0, 0);
    assert On(m + 1, 0, 0) == On(m, DaysIn(m), 0);
    ReadBack(m, DaysIn(m), 0);
  }

  /** Both are the anchor day of the target month, or its last day where it is shorter, at the same time
      of day. */
  lemma MonthsAdded(t: Time, months: int, anchorDay: int)
    ensures AddMonthsClamped(t, months, anchorDay)
            == On(MonthOf(t) + months, Min(anchorDay, DaysIn(MonthOf(t) + months)), TimeWithinDay(t))
    ensures AddMonthsBySetting(t, months, anchorDay) == AddMonthsClamped(t, months, anchorDay)
  {
    hide FirstDay, DaysIn, MonthOf, UtcDate, DateUtc, SetUtcDate, SetUtcMonth, UtcFullYear, UtcMonth, On, LastDate;
    var m, time := MonthOf(t), TimeWithinDay(t);
    var target := On(m + months, 1, time);
    ReadBack(m + months, 1, time);
    ReadBack(m, 1, time);
    PartsWritten(t, months, 1, time);
    PartsWritten(On(m, 1, time), months, 1, time);
    LastDateIsLength(target);
    PartsWritten(target, 0, Min(anchorDay, LastDate(target)), time);
  }

  /** What is read back from the result: the day never moves off the anchor except to the end of a
      shorter month, and the time of day stays. */
  lemma MonthsAddedReadBack(t: Time, months: int, anchorDay: int)
    requires 1 <= anchorDay
    ensures var r := AddMonthsClamped(t, months, anchorDay);
            && MonthOf(r) == MonthOf(t) + months
            && UtcDate(r) == Min(anchorDay, DaysIn(MonthOf(r)))
            && TimeWithinDay(r) == TimeWithinDay(t)
  {
    hide AddMonthsClamped, FirstDay, DaysIn, MonthOf;
    MonthsAdded(t, months, anchorDay);
    ReadBack(MonthOf(t) + months, Min(anchorDay, DaysIn(MonthOf(t) + months)), TimeWithinDay(t));
  }

  /** With the anchor kept, adding months twice is adding their sum once. */
  lemma MonthsCompose(t: Time, m: int, n: int, anchorDay: int)
    requires 1 <= anchorDay
    ensures AddMonthsClamped(AddMonthsClamped(t, m, anchorDay), n, anchorDay) == AddMonthsClamped(t, m + n, anchorDay)
  {
    hide AddMonthsClamped, FirstDay, DaysIn, MonthOf;
    var r := AddMonthsClamped(t, m, anchorDay);
    MonthsAddedReadBack(t, m, anchorDay);
    MonthsAdded(r, n, anchorDay);
    MonthsAdded(t, m + n, anchorDay);
  }

  lemma MonthsStrictlyIncrease(t: Time, m: int, n: int, anchorDay: int)
    requires 1 <= anchorDay && m < n
    ensures AddMonthsClamped(t, m, anchorDay) < AddMonthsClamped(t, n, anchorDay)
  {
    hide AddMonthsClamped, FirstDay, DaysIn, MonthOf;
    MonthsAdded(t, m, anchorDay);
    MonthsAdded(t, n, anchorDay);
    MonthsAreOrdered(MonthOf(t) + m, MonthOf(t) + n);
  }

  lemma NothingAdded(t: Time)
    ensures AddMonthsClamped(t, 0, UtcDate(t)) == t
  {
    MonthsAdded(t, 0, UtcDate(t));
    WrittenBack(t);
  }

  /** Without the anchor, each addition starting from the day the last one ended on, the days drift:
      exactly when the month passed through is too short for the day the sum would reach. */
  lemma UnanchoredMonthsDrift(t: Time, m: int, n: int)
    ensures var r := AddMonthsClamped(t, m, UtcDate(t));
            AddMonthsClamped(r, n, UtcDate(r)) == AddMonthsClamped(t, m + n, UtcDate(t))
            <==> Min(UtcDate(t), DaysIn(MonthOf(t) + m + n)) <= DaysIn(MonthOf(t) + m)
  {
    hide AddMonthsClamped, FirstDay, DaysIn, MonthOf;
    var r := AddMonthsClamped(t, m, UtcDate(t));
    MonthsAddedReadBack(t, m, UtcDate(t));
    MonthsAdded(r, n, UtcDate(r));
    MonthsAdded(t, m + n, UtcDate(t));
  }

  lemma FirstQuarter(january: int)
    requires january % 12 == 0 && !Leap(1970 + january / 12)
    ensures DaysIn(january) == DaysIn(january + 2) == 31 && DaysIn(january + 1) == 28
  {
    hide Leap;
    assert (january + 1) % 12 == 1 && (january + 1) / 12 == january / 12 && (january + 2) % 12 == 2;
  }

  /** The 31st of January of a common year, a month at a time, is the 28th of February and then of March. */
  lemma DriftHappens(january: int, time: int)
    requires january % 12 == 0 && !Leap(1970 + january / 12) && 0 <= time < MS_PER_DAY
    ensures var t := On(january, 31, time);
            var february := AddMonthsClamped(t, 1, UtcDate(t));
            && february == On(january + 1, 28, time)
            && AddMonthsClamped(february, 1, UtcDate(february)) == On(january + 2, 28, time)
            && AddMonthsClamped(t, 2, UtcDate(t)) == On(january + 2, 31, time)
  {
    hide DaysIn, FirstDay, MonthOf, UtcDate, TimeWithinDay, Leap, AddMonthsClamped, AddMonthsBySetting, On;
    FirstQuarter(january);
    var t := On(january, 31, time);
    ReadBack(january, 31, time);
    MonthsAdded(t, 1, 31);
    MonthsAdded(t, 2, 31);
    ReadBack(january + 1, 28, time);
    MonthsAdded(On(january + 1, 28, time), 1, 28);
  }
}
