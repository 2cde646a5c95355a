/** The weekday of a date and the buttons that change the date, src/lib/Calendar.cpp:212-325. Dates follow the
    English calendar: Julian up to 2 September 1752, Gregorian from 14 September 1752, the next day. */
module Calendars {

  // ----- the calendar itself -----

  /** A year of 366 days: every fourth one before the reform, then without the centuries that 400 does not
      divide. */
  predicate LeapYear(y: int) { if y < 1752 then y % 4 == 0 else (y % 4 == 0 && y % 100 != 0) || y % 400 == 0 }

  datatype Date = Date(year: int, month: int, day: int)

  function DaysIn(y: int, m: int): int
    requires 1 <= m <= 12
  {
    if m == 2 then (if LeapYear(y) then 29 else 28) else if m in {4, 6, 9, 11} then 30 else 31
  }

  /** The days there have been, from year 1 on. */
  predicate Civil(d: Date) {
    d.year >= 1 && 1 <= d.month <= 12 && 1 <= d.day <= DaysIn(d.year, d.month)
    && !(d.year == 1752 && d.month == 9 && 2 < d.day < 14)
  }

  function Tomorrow(d: Date): (t: Date)
    requires Civil(d)
    ensures Civil(t)
  {
    if d == Date(1752, 9, 2) then Date(1752, 9, 14)
    else if d.day < DaysIn(d.year, d.month) then d.(day := d.day + 1)
    else if d.month < 12 then Date(d.year, d.month + 1, 1)
    else Date(d.year + 1, 1, 1)
  }

  // ----- what the program computes -----

  /** isleap(), with its own year of the reform. */
  predicate IsLeap(n: int) { if n < 1732 then n % 4 == 0 else (n % 4 == 0 && n % 100 != 0) || n % 400 == 0 }

  /** 1732 instead of 1752 makes no difference: no century falls between the two. */
  lemma IsLeapIsLeapYear(n: int)
    ensures IsLeap(n) == LeapYear(n)
  {
    if 1732 <= n < 1752 {
      assert n % 100 == n - 1700;
      assert n % 400 == n - 1600;
    }
  }

  const MONTHS: seq<int> := [0, 31, 28, 31, 30, 31, 30, 31, 31, 30, 31, 30, 31]

  function B(b: bool): nat { if b then 1 else 0 }

  /** getNbDaysInMonth(). */
  function NbDays(y: int, m: int): int {
    if m < 1 || m > 12 then 0 else if m == 2 then 28 + B(IsLeap(y)) else MONTHS[m]
  }

  /** The days of the years before y, and those of the months before m in the year y. */
  function YearDays(y: int): int
    decreases y
  {
    if y <= 1 then 0 else YearDays(y - 1) + 365 + B(IsLeap(y - 1))
  }

  function MonthDays(y: int, m: int): int
    decreases m
  {
    if m <= 1 then 0 else MonthDays(y, m - 1) + (if m - 1 <= 12 then NbDays(y, m - 1) else 0)
  }

  predicate AfterGap(d: Date) {
    d.year > 1752 || (d.year == 1752 && d.month > 9) || (d.year == 1752 && d.month == 9 && d.day > 2)
  }

  /** The number updateDay() reduces modulo 7. */
  function DayNumber(d: Date): int { YearDays(d.year) + MonthDays(d.year, d.month) + d.day + 4 - 11 * B(AfterGap(d)) }

  /** 0 is Monday, as in the table of the names. */
  function DayId(d: Date): int { DayNumber(d) % 7 }

  // ----- a day is a day -----

  lemma NbDaysIsDaysIn(y: int, m: int)
    requires 1 <= m <= 12
    ensures NbDays(y, m) == DaysIn(y, m)
  {
    IsLeapIsLeapYear(y);
  }

  lemma {:induction false} WholeYear(y: int)
    ensures MonthDays(y, 12) + NbDays(y, 12) == 365 + B(IsLeap(y))
  {
    var n := B(IsLeap(y));
    assert MonthDays(y, 1) == 0;
    assert MonthDays(y, 2) == 31;
    assert MonthDays(y, 3) == 59 + n;
    assert MonthDays(y, 4) == 90 + n;
    assert MonthDays(y, 5) == 120 + n;
    assert MonthDays(y, 6) == 151 + n;
    assert MonthDays(y, 7) == 181 + n;
    assert MonthDays(y, 8) == 212 + n;
    assert MonthDays(y, 9) == 243 + n;
    assert MonthDays(y, 10) == 273 + n;
    assert MonthDays(y, 11) == 304 + n;
    assert MonthDays(y, 12) == 334 + n;
  }

  /** The only two days between which the gap opens. */
  lemma GapOnce(d: Date)
    requires Civil(d)
    ensures AfterGap(Tomorrow(d)) == (AfterGap(d) || d == Date(1752, 9, 2))
    ensures AfterGap(d) ==> d != Date(1752, 9, 2)
  {
  }

  lemma NextMonthDays(y: int, m: int)
    requires 1 <= m < 12
    ensures MonthDays(y, m + 1) == MonthDays(y, m) + DaysIn(y, m)
  {
    NbDaysIsDaysIn(y, m);
  }

  lemma NextYearDays(y: int)
    requires y >= 1
    ensures YearDays(y + 1) + MonthDays(y + 1, 1) == YearDays(y) + MonthDays(y, 12) + DaysIn(y, 12)
  {
    WholeYear(y);
    NbDaysIsDaysIn(y, 12);
  }

  /** From one civil day to the next the number grows by one: across the ends of months and of years, leap
      days, and the eleven days that never were. */
  lemma NextDayNumber(d: Date)
    requires Civil(d)
    ensures DayNumber(Tomorrow(d)) == DayNumber(d) + 1
  {
    GapOnce(d);
    hide AfterGap, YearDays, MonthDays, LeapYear;
    if d != Date(1752, 9, 2) && d.day >= DaysIn(d.year, d.month) {
      if d.month < 12 {
        NextMonthDays(d.year, d.month);
      } else {
        NextYearDays(d.year);
      }
    }
  }

  lemma NextDayId(d: Date)
    requires Civil(d)
    ensures DayId(Tomorrow(d)) == (DayId(d) + 1) % 7
  {
    hide Tomorrow, Civil, DayNumber;
    NextDayNumber(d);
  }

  function Later(d: Date, n: nat): (t: Date)
    requires Civil(d)
    ensures Civil(t)
  {
    if n == 0 then d else Tomorrow(Later(d, n - 1))
  }

  /** So the weekdays go round for ever, whatever lies between two days. */
  lemma {:induction false} WeekdaysGoRound(d: Date, n: nat)
    requires Civil(d)
    ensures DayNumber(Later(d, n)) == DayNumber(d) + n
    ensures DayId(Later(d, n)) == (DayId(d) + n) % 7
    decreases n
  {
    hide Civil, Tomorrow, DayNumber;
    if n > 0 {
      WeekdaysGoRound(d, n - 1);
      NextDayNumber(Later(d, n - 1));
    }
  }

  const FIRST: Date := Date(1, 1, 1)

  function Yesterday(d: Date): (t: Date)
    requires Civil(d) && d != FIRST
    ensures Civil(t) && Tomorrow(t) == d
    ensures t.year < d.year || (t.year == d.year && (t.month < d.month || (t.month == d.month && t.day < d.day)))
  {
    if d == Date(1752, 9, 14) then Date(1752, 9, 2)
    else if d.day > 1 then d.(day := d.day - 1)
    else if d.month > 1 then Date(d.year, d.month - 1, DaysIn(d.year, d.month - 1))
    else Date(d.year - 1, 12, 31)
  }

  lemma LaterStarts(d: Date)
    requires Civil(d)
    ensures Later(d, 0) == d
  {
  }

  lemma LaterGoesOn(d: Date, n: nat)
    requires Civil(d)
    ensures Later(d, n + 1) == Tomorrow(Later(d, n))
  {
  }

  /** Every civil day is so many days after the first one, and its number says how many. */
  lemma {:induction false} EveryDayComes(d: Date)
    requires Civil(d)
    ensures DayNumber(d) >= DayNumber(FIRST) && Later(FIRST, DayNumber(d) - DayNumber(FIRST)) == d
    decreases d.year, d.month, d.day
  {
    assert d.year >= 1 && d.month >= 1 && d.day >= 1;
    hide DayNumber, Civil, Tomorrow, Yesterday, Later;
    LaterStarts(FIRST);
    if d != FIRST {
      EveryDayComes(Yesterday(d));
      NextDayNumber(Yesterday(d));
      LaterGoesOn(FIRST, DayNumber(Yesterday(d)) - DayNumber(FIRST));
    }
  }

  /** The weekday of any civil day, told from any other. */
  lemma WeekdayOf(d: Date, other: Date)
    requires Civil(d) && Civil(other)
    ensures DayId(other) == (DayId(d) + (DayNumber(other) - DayNumber(d))) % 7
    ensures DayNumber(other) == DayNumber(d) <==> other == d
  {
    hide DayNumber, Civil, Later;
    EveryDayComes(d);
    EveryDayComes(other);
  }

  // ----- the loops in one formula -----

  lemma Div4(n: int)
    ensures n / 4 == (n - 1) / 4 + B(n % 4 == 0)
  {
  }

  lemma Div100(n: int)
    ensures n / 100 == (n - 1) / 100 + B(n % 100 == 0)
  {
  }

  lemma Div400(n: int)
    ensures n / 400 == (n - 1) / 400 + B(n % 400 == 0)
  {
  }

  /** Leap years up to n. */
  function Leaps(n: int): int { if n < 1752 then n / 4 else n / 4 - n / 100 + n / 400 + 13 }

  lemma LeapsStep(n: int)
    ensures n >= 1 ==> Leaps(n) == Leaps(n - 1) + B(LeapYear(n))
  {
    Div4(n);
    Div100(n);
    Div400(n);
    assert n % 400 == 0 ==> n % 100 == 0;
    assert n % 100 == 0 ==> n % 4 == 0;
    if n == 1752 {
      assert 1752 / 100 == 17 && 1752 / 400 == 4;
    }
  }

  /** The loop over the years is a closed form. */
  lemma {:induction false} YearDaysClosed(y: int)
    requires y >= 1
    ensures YearDays(y) == 365 * (y - 1) + Leaps(y - 1)
    decreases y
  {
    if y > 1 {
      YearDaysClosed(y - 1);
      IsLeapIsLeapYear(y - 1);
      LeapsStep(y - 1);
    }
  }

  lemma MonthsTo9(y: int)
    ensures MonthDays(y, 9) == 243 + B(IsLeap(y))
  {
    var n := B(IsLeap(y));
    assert MonthDays(y, 3) == 59 + n;
    assert MonthDays(y, 5) == 120 + n;
    assert MonthDays(y, 7) == 181 + n;
  }

  lemma Years()
    ensures YearDays(2024) == 365 * 2023 + 503 && YearDays(1752) == 365 * 1751 + 437
  {
    YearDaysClosed(2024);
    YearDaysClosed(1752);
    assert 2023 / 4 == 505 && 2023 / 100 == 20 && 2023 / 400 == 5;
    assert 1751 / 4 == 437;
  }

  /** One day fixes all the others: 1 January 2024 was a Monday, 2 September 1752 a Wednesday and 14 September
      1752, the day after, a Thursday. */
  lemma Anchors()
    ensures DayId(Date(2024, 1, 1)) == 0
    ensures DayId(Date(1752, 9, 2)) == 2 && DayId(Date(1752, 9, 14)) == 3
  {
    hide YearDays, MonthDays;
    Years();
    MonthsTo9(1752);
    FirstMonth(2024);
  }

  lemma FirstMonth(y: int)
    ensures MonthDays(y, 1) == 0
  {
  }

  // ----- the buttons -----

  /** Any month of any year, and a day that exists in it. */
  predicate Shown(d: Date) { 1 <= d.month <= 12 && 1 <= d.day <= NbDays(d.year, d.month) }

  function Clamped(d: Date): Date
    requires 1 <= d.month <= 12
  {
    if d.day > NbDays(d.year, d.month) then d.(day := NbDays(d.year, d.month)) else d
  }

  function NextMonth(d: Date): Date
    requires 1 <= d.month <= 12
  {
    Clamped(d.(month := if d.month == 12 then 1 else d.month + 1))
  }

  function PreviousMonth(d: Date): Date
    requires 1 <= d.month <= 12
  {
    Clamped(d.(month := if d.month == 1 then 12 else d.month - 1))
  }

  function NextDay(d: Date): Date { d.(day := if d.day >= NbDays(d.year, d.month) then 1 else d.day + 1) }

  function PreviousDay(d: Date): Date { d.(day := if d.day == 1 then NbDays(d.year, d.month) else d.day - 1) }

  /** One button takes back what the other did: always for the day, and for the month exactly when the month
      gone through has that day. */
  lemma UpAndDown(d: Date)
    requires Shown(d)
    ensures PreviousDay(NextDay(d)) == d && NextDay(PreviousDay(d)) == d
    ensures PreviousMonth(NextMonth(d)) == d <==> d.day <= NbDays(d.year, if d.month == 12 then 1 else d.month + 1)
    ensures NextMonth(PreviousMonth(d)) == d <==> d.day <= NbDays(d.year, if d.month == 1 then 12 else d.month - 1)
  {
  }

  // ----- the object -----

  class Calendar {
    var year: int
    var month: int
    var day: int
    var dayId: int

    ghost function View(): Date
      reads this
    {
      Date(year, month, day)
    }

    constructor (today: Date)
      ensures View() == today
    {
      year, month, day, dayId := today.year, today.month, today.day, 0;
    }

    method UpdateDay()
      requires Shown(View()) && year >= 1
      modifies this`dayId
      ensures dayId == DayId(View()) && 0 <= dayId < 7
    {
      hide IsLeap, DaysIn;
      var L := 0;
      for i := 1 to year
        invariant L == YearDays(i)
      {
        L := L + 365 + B(IsLeap(i));
      }
      for i := 1 to month
        invariant L == YearDays(year) + MonthDays(year, i)
      {
        if i == 2 {
          L := L + 28 + B(IsLeap(year));
        } else if i <= 12 {
          L := L + MONTHS[i];
        }
      }
      L := L + day + 4;
      L := L - 11 * B(AfterGap(Date(year, month, day)));
      dayId := L % 7;
    }

    /** The day follows when the new month is too short for it. */
    method SetMonth(m: int)
      requires 1 <= m <= 12 && day >= 1
      modifies this`month, this`day
      ensures month == m && day == if old(day) > NbDays(year, m) then NbDays(year, m) else old(day)
      ensures Shown(View())
    {
      month := m;
      if day > NbDays(year, month) {
        day := NbDays(year, month);
      }
    }

    method SetYear(y: int)
      requires 1 <= month <= 12 && day >= 1
      modifies this`year, this`day
      ensures year == y && day == if old(day) > NbDays(y, month) then NbDays(y, month) else old(day)
      ensures Shown(View())
    {
      year := y;
      if day > NbDays(year, month) {
        day := NbDays(year, month);
      }
    }

    method MonthUp()
      requires Shown(View())
      modifies this`month, this`day
      ensures View() == NextMonth(old(View())) && Shown(View())
    {
      hide IsLeap;
      month := (month + 1) % 13;
      if month == 0 {
        month := month + 1;
      }
      SetMonth(month);
    }

    method MonthDown()
      requires Shown(View())
      modifies this`month, this`day
      ensures View() == PreviousMonth(old(View())) && Shown(View())
    {
      hide IsLeap;
      month := month - 1;
      if month == 0 {
        month := 12;
      }
      SetMonth(month);
    }

    method DayUp()
      requires Shown(View())
      modifies this`day
      ensures View() == NextDay(old(View())) && Shown(View())
    {
      day := day + 1;
      if day > NbDays(year, month) {
        day := 1;
      }
    }

    method DayDown()
      requires Shown(View())
      modifies this`day
      ensures View() == PreviousDay(old(View())) && Shown(View())
    {
      day := day - 1;
      if day == 0 {
        day := NbDays(year, month);
      }
    }
  }
}
