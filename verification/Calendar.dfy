/**
 * The proleptic Gregorian calendar in UTC and the normalisation of Go's time.Date and AddDate, as far as
 * internal/report/reporter.go relies on them. An instant is a number of nanoseconds, a day a number of days, since
 * 1970-01-01.
 */
module Calendar {
  type Instant = int
  type Day = int

  /** n minutes, in nanoseconds. */
  function Minutes(n: int): int { n * 60_000_000_000 }

  predicate IsLeap(y: int) { y % 4 == 0 && (y % 100 != 0 || y % 400 == 0) }

  function DaysInYear(y: int): int { if IsLeap(y) then 366 else 365 }

  function DaysIn(y: int, m: int): int
    requires 1 <= m <= 12
  {
    if m == 2 then (if IsLeap(y) then 29 else 28)
    else if m == 4 || m == 6 || m == 9 || m == 11 then 30 else 31
  }

  const DAYS_BEFORE: seq<int> := [0, 31, 59, 90, 120, 151, 181, 212, 243, 273, 304, 334, 365]

  /** Days of year y before the first of month m; month 13 is the end of the year. */
  function DaysBefore(y: int, m: int): int
    requires 1 <= m <= 13
  {
    DAYS_BEFORE[m - 1] + if m > 2 && IsLeap(y) then 1 else 0
  }

  /** The day number of January 1st of year y; divisions round down, also before year 1. */
  function Jan1(y: int): Day { 365 * (y - 1970) + (y - 1) / 4 - (y - 1) / 100 + (y - 1) / 400 - 477 }

  /** time.Date(y, m, d): months outside 1..12 carry into the year, then days outside the month carry on. */
  function Date(y: int, m: int, d: int): Day {
    var year, month := y + (m - 1) / 12, (m - 1) % 12 + 1;
    Jan1(year) + DaysBefore(year, month) + d - 1
  }

  datatype Civil = Civil(y: int, m: int, d: int)

  predicate IsDate(c: Civil) { 1 <= c.m <= 12 && 1 <= c.d <= DaysIn(c.y, c.m) }

  // ---- Day number to date ----

  /** Years and months have the lengths that the closed forms give them. */
  lemma YearLength(y: int)
    ensures Jan1(y + 1) == Jan1(y) + DaysInYear(y)
    ensures DaysBefore(y, 1) == 0 && DaysBefore(y, 13) == DaysInYear(y)
  {
    QuarterStep(y);
  }

  lemma MonthLength(y: int, m: int)
    requires 1 <= m <= 12
    ensures DaysBefore(y, m + 1) == DaysBefore(y, m) + DaysIn(y, m)
  {
  }

  lemma QuarterStep(y: int)
    ensures y / 4 - (y - 1) / 4 == (if y % 4 == 0 then 1 else 0)
    ensures y / 100 - (y - 1) / 100 == (if y % 100 == 0 then 1 else 0)
    ensures y / 400 - (y - 1) / 400 == (if y % 400 == 0 then 1 else 0)
    ensures y % 400 == 0 ==> y % 100 == 0
    ensures y % 100 == 0 ==> y % 4 == 0
  {
  }

  /** The year of a day, searched from y. */
  function YearFrom(y: int, n: Day): (r: int)
    ensures Jan1(r) <= n < Jan1(r + 1)
    decreases if n < Jan1(y) then Jan1(y) - n + 400 else if n >= Jan1(y + 1) then n - Jan1(y + 1) + 400 else 0
  {
    hide Jan1;
    YearLength(y);
    YearLength(y - 1);
    YearLength(y + 1);
    if n < Jan1(y) then YearFrom(y - 1, n)
    else if n >= Jan1(y + 1) then YearFrom(y + 1, n)
    else y
  }

  /** The month of year y in which its k-th day (from 0) falls, searched from m. */
  function MonthFrom(y: int, m: int, k: int): (r: int)
    requires 1 <= m <= 12 && DaysBefore(y, m) <= k < DaysInYear(y)
    ensures 1 <= r <= 12 && DaysBefore(y, r) <= k < DaysBefore(y, r + 1)
    decreases 12 - m
  {
    YearLength(y);
    MonthLength(y, m);
    if k < DaysBefore(y, m + 1) then m else MonthFrom(y, m + 1, k)
  }

  lemma DateInRange(y: int, m: int, d: int)
    requires 1 <= m <= 12
    ensures Date(y, m, d) == Jan1(y) + DaysBefore(y, m) + d - 1
    ensures m == 1 ==> Date(y, m - 1, d) == Date(y - 1, 12, d)
  {
    assert (m - 1) / 12 == 0 && (m - 1) % 12 == m - 1;
  }

  /** Year(), Month() and Day() of a day. */
  function CivilOf(n: Day): (c: Civil)
    ensures IsDate(c) && Date(c.y, c.m, c.d) == n
  {
    hide Jan1, Date, DaysIn, DaysBefore;
    var y := YearFrom(1970, n);
    YearLength(y);
    var m := MonthFrom(y, 1, n - Jan1(y));
    MonthLength(y, m);
    var d := n - Jan1(y) - DaysBefore(y, m) + 1;
    DateInRange(y, m, d);
    Civil(y, m, d)
  }

  lemma {:induction false} Jan1Grows(y: int, y': int)
    requires y <= y'
    ensures Jan1(y) + 365 * (y' - y) <= Jan1(y')
    decreases y' - y
  {
    hide Jan1;
    if y < y' {
      YearLength(y);
      Jan1Grows(y + 1, y');
    }
  }

  lemma MonthsAreNonempty(y: int)
    ensures forall m :: 1 <= m <= 12 ==> 28 <= DaysIn(y, m) <= 31
  {
  }

  lemma {:induction false} DaysBeforeGrows(y: int, m: int, m': int)
    requires 1 <= m <= m' <= 13
    ensures DaysBefore(y, m) <= DaysBefore(y, m')
    ensures m < m' ==> DaysBefore(y, m) + DaysIn(y, m) <= DaysBefore(y, m')
  {
    hide DaysBefore, DaysIn;
    if m < m' {
      MonthLength(y, m);
      MonthLength(y, m' - 1);
      assert DaysIn(y, m) > 0 && DaysIn(y, m' - 1) > 0 by { MonthsAreNonempty(y); }
      DaysBeforeGrows(y, m, m' - 1);
    }
  }

  /** A date is the date of its own day number: the two conversions are inverse to each other. */
  lemma CivilOfDate(c: Civil)
    requires IsDate(c)
    ensures CivilOf(Date(c.y, c.m, c.d)) == c
  {
    SameDate(c, CivilOf(Date(c.y, c.m, c.d)));
  }

  lemma SameDate(c: Civil, c': Civil)
    requires IsDate(c) && IsDate(c')
    requires Date(c.y, c.m, c.d) == Date(c'.y, c'.m, c'.d)
    ensures c == c'
  {
    hide Jan1, Date, DaysBefore, DaysIn;
    DateInRange(c.y, c.m, c.d);
    DateInRange(c'.y, c'.m, c'.d);
    WithinYear(c);
    WithinYear(c');
    if c.y < c'.y { Jan1Grows(c.y + 1, c'.y); }
    if c'.y < c.y { Jan1Grows(c'.y + 1, c.y); }
    if c.m < c'.m { DaysBeforeGrows(c.y, c.m, c'.m); }
    if c'.m < c.m { DaysBeforeGrows(c.y, c'.m, c.m); }
  }

  lemma WithinYear(c: Civil)
    requires IsDate(c)
    ensures Jan1(c.y) <= Jan1(c.y) + DaysBefore(c.y, c.m) + c.d - 1 < Jan1(c.y + 1)
  {
    hide Jan1, DaysBefore, DaysIn;
    YearLength(c.y);
    MonthLength(c.y, c.m);
    DaysBeforeGrows(c.y, 1, c.m);
    DaysBeforeGrows(c.y, c.m + 1, 13);
  }

  /** Months end where the Gregorian calendar says: the day before the first of the next month is their 28th to 31st. */
  lemma LastOfMonth(y: int, m: int)
    requires 1 <= m <= 12
    ensures CivilOf(Date(y, m + 1, 1) - 1) ==
            Civil(y, m, if m == 2 then (if y % 4 == 0 && (y % 100 != 0 || y % 400 == 0) then 29 else 28)
                        else if m in {4, 6, 9, 11} then 30 else 31)
  {
    NextMonthStarts(y, m);
    assert 1 <= DaysIn(y, m);
    CivilOfDate(Civil(y, m, DaysIn(y, m)));
    hide Date, CivilOf;
  }

  lemma NextMonthStarts(y: int, m: int)
    requires 1 <= m <= 12
    ensures Date(y, m + 1, 1) - 1 == Date(y, m, DaysIn(y, m))
  {
    hide Jan1, Date, DaysBefore, DaysIn;
    DateInRange(y, m, DaysIn(y, m));
    MonthLength(y, m);
    YearLength(y);
    if m == 12 {
      YearLength(y + 1);
      DateInRange(y + 1, 1, 1);
      MonthThirteen(y);
    } else {
      DateInRange(y, m + 1, 1);
    }
  }

  lemma MonthThirteen(y: int)
    ensures Date(y, 13, 1) == Date(y + 1, 1, 1)
  {
  }

  // ---- AddDate ----

  function AddDate(n: Day, years: int, months: int, days: int): Day {
    var c := CivilOf(n);
    Date(c.y + years, c.m + months, c.d + days)
  }

  lemma AddDays(n: Day, days: int)
    ensures AddDate(n, 0, 0, days) == n + days
  {
  }

  /** The first of the month before the one that day n is in. */
  function PreviousFirst(n: Day): Day {
    var c := CivilOf(n);
    if c.m == 1 then Date(c.y - 1, 12, 1) else Date(c.y, c.m - 1, 1)
  }

  /** The length of the month before the one that day n is in. */
  function PreviousLength(n: Day): int {
    var c := CivilOf(n);
    if c.m == 1 then 31 else DaysIn(c.y, c.m - 1)
  }

  lemma PreviousMonth(n: Day)
    ensures var c := CivilOf(n);
            && PreviousFirst(n) + PreviousLength(n) == n - c.d + 1
            && 28 <= PreviousLength(n) <= 31
            && AddDate(n, 0, -1, 0) == PreviousFirst(n) + c.d - 1
  {
    hide Jan1, Date, DaysBefore, DaysIn;
    var c := CivilOf(n);
    DateInRange(c.y, c.m, c.d);
    MonthsAreNonempty(c.y);
    if c.m == 1 {
      YearLength(c.y - 1);
      YearLength(c.y);
      MonthLength(c.y - 1, 12);
      assert DaysIn(c.y - 1, 12) == 31 by { DecemberLength(c.y - 1); }
      DateInRange(c.y - 1, 12, 1);
      DateInRange(c.y - 1, 12, c.d);
    } else {
      MonthLength(c.y, c.m - 1);
      DateInRange(c.y, c.m - 1, 1);
      DateInRange(c.y, c.m - 1, c.d);
    }
  }

  lemma DecemberLength(y: int)
    ensures DaysIn(y, 12) == 31
  {
  }

  /** One month back keeps the day of the month and lands in the previous month iff that month is long enough;
      otherwise the surplus days run on into the month it came from. */
  lemma MonthBackExactIff(n: Day)
    ensures var start, c := AddDate(n, 0, -1, 0), CivilOf(n);
            && (PreviousFirst(n) <= start < PreviousFirst(n) + PreviousLength(n) <==> c.d <= PreviousLength(n))
            && (CivilOf(start).d == c.d <==> c.d <= PreviousLength(n))
            && (c.d > PreviousLength(n) ==> CivilOf(start) == Civil(c.y, c.m, c.d - PreviousLength(n)))
  {
    hide Jan1, Date, DaysBefore, DaysIn, AddDate;
    var start, c := AddDate(n, 0, -1, 0), CivilOf(n);
    PreviousMonth(n);
    if c.d <= PreviousLength(n) {
      var back := if c.m == 1 then Civil(c.y - 1, 12, c.d) else Civil(c.y, c.m - 1, c.d);
      DecemberLength(c.y - 1);
      DateInRange(back.y, back.m, back.d);
      DateInRange(back.y, back.m, 1);
      CivilOfDate(back);
    } else {
      DateInRange(c.y, c.m, c.d);
      DateInRange(c.y, c.m, c.d - PreviousLength(n));
      CivilOfDate(Civil(c.y, c.m, c.d - PreviousLength(n)));
    }
  }

  predicate IsFirst(n: Day) { CivilOf(n).d == 1 }

  /** The first of the month after the one that day n is in. */
  function NextFirst(n: Day): Day {
    var c := CivilOf(n);
    if c.m == 12 then Date(c.y + 1, 1, 1) else Date(c.y, c.m + 1, 1)
  }

  /** Going a month back from a first is the inverse of going to the next first:
      consecutive monthly windows tile time. */
  lemma MonthsTile(n: Day)
    requires IsFirst(n)
    ensures IsFirst(NextFirst(n)) && AddDate(NextFirst(n), 0, -1, 0) == n
    ensures NextFirst(n) == n + DaysIn(CivilOf(n).y, CivilOf(n).m)
    ensures forall k :: n < k < NextFirst(n) ==> !IsFirst(k)
  {
    hide Jan1, Date, DaysBefore, DaysIn, AddDate;
    var c := CivilOf(n);
    var next := if c.m == 12 then Civil(c.y + 1, 1, 1) else Civil(c.y, c.m + 1, 1);
    MonthsAreNonempty(next.y);
    DateInRange(c.y, c.m, 1);
    DateInRange(next.y, next.m, 1);
    MonthLength(c.y, c.m);
    YearLength(c.y);
    YearLength(c.y + 1);
    CivilOfDate(next);
    PreviousMonth(NextFirst(n));
    DecemberLength(c.y);
    assert PreviousFirst(NextFirst(n)) == n;
    forall k | n < k < NextFirst(n)
      ensures !IsFirst(k)
    {
      DateInRange(c.y, c.m, k - n + 1);
      CivilOfDate(Civil(c.y, c.m, k - n + 1));
    }
  }

  // ---- Time of day ----

  function DayOf(t: Instant): Day { t / 86_400_000_000_000 }

  /** Midnight at the start of a day. */
  function Midnight(n: Day): Instant { n * 86_400_000_000_000 }

  /** truncateToDay. */
  function TruncateToDay(t: Instant): Instant { Midnight(DayOf(t)) }

  function HourOf(t: Instant): int { t % 86_400_000_000_000 / 3_600_000_000_000 }

  function MinuteOf(t: Instant): int { t % 3_600_000_000_000 / 60_000_000_000 }

  /** 0 is Sunday; 1970-01-01 was a Thursday. */
  function Weekday(n: Day): int { (n + 4) % 7 }

  /** Day 0 is Thursday, January 1st 1970; the leap day of 2000, a Tuesday, is day 11016. */
  lemma Anchors()
    ensures CivilOf(0) == Civil(1970, 1, 1) && Weekday(0) == 4
    ensures CivilOf(11016) == Civil(2000, 2, 29) && Weekday(11016) == 2
  {
    hide Date, CivilOf, Jan1, DaysBefore;
    AnchorNumbers();
    CivilOfDate(Civil(1970, 1, 1));
    CivilOfDate(Civil(2000, 2, 29));
  }

  lemma AnchorNumbers()
    ensures Date(1970, 1, 1) == 0 && Date(2000, 2, 29) == 11016
  {
    hide Date, DaysBefore, DaysIn;
    DateInRange(1970, 1, 1);
    DateInRange(2000, 2, 29);
    YearLength(1970);
    JanuaryLength(2000);
  }

  lemma JanuaryLength(y: int)
    ensures DaysBefore(y, 2) == 31
  {
  }

  /** The truncated instant is the last midnight not after t, and depends on t only through its date. */
  lemma TruncateIsLastMidnight(t: Instant)
    ensures TruncateToDay(t) <= t < TruncateToDay(t) + Minutes(1440)
    ensures forall n: Day :: Midnight(n) <= t ==> Midnight(n) <= TruncateToDay(t)
    ensures var c := CivilOf(DayOf(t)); TruncateToDay(t) == Midnight(Date(c.y, c.m, c.d))
  {
  }

  /** Hour() == 0 && Minute() == 5 says that t lies in the sixth minute of its day. */
  lemma FiveAfterMidnight(t: Instant)
    ensures HourOf(t) == 0 && MinuteOf(t) == 5 <==>
              Midnight(DayOf(t)) + Minutes(5) <= t < Midnight(DayOf(t)) + Minutes(6)
  {
    var n, r := DayOf(t), t % 86_400_000_000_000;
    assert t == Midnight(n) + r;
    if r < Minutes(60) {
      assert t % 3_600_000_000_000 == r by { assert t == 24 * n * 3_600_000_000_000 + r; }
    }
  }
}
