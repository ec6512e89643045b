/** The calendar behind the monthly windows, checked against a day count that knows no table of
    month lengths: the rule of the Gregorian calendar in closed form. */
module Calendar {
  import opened SyncWindows

  /** 365 days a year, and one more every fourth, but not every hundredth, but every four hundredth. */
  function YearDays(y: int): int {
    365 * y + y / 4 - y / 100 + y / 400
  }

  /** The number of a day. Years are counted from March, so that the extra day of a leap year comes
      last, and five months from March or August on have 153 days. */
  function DayNumber(d: Date): int {
    if d.month <= 2 then YearDays(d.year - 1) + (153 * (d.month + 9) + 2) / 5 + d.day
    else YearDays(d.year) + (153 * (d.month - 3) + 2) / 5 + d.day
  }

  /** Years that divide by 400, and of the others those that divide by 4 but not by 100. */
  predicate LeapByRule(year: int) {
    if year % 400 == 0 then true else if year % 100 == 0 then false else year % 4 == 0
  }

  lemma {:induction false} Fourth(y: int)
    ensures y / 4 == (y - 1) / 4 + if y % 4 == 0 then 1 else 0
  {}

  lemma {:induction false} Hundredth(y: int)
    ensures y / 100 == (y - 1) / 100 + if y % 100 == 0 then 1 else 0
    ensures y % 100 == 0 ==> y % 4 == 0
  {}

  lemma {:induction false} FourHundredth(y: int)
    ensures y / 400 == (y - 1) / 400 + if y % 400 == 0 then 1 else 0
    ensures y % 400 == 0 ==> y % 100 == 0
  {}

  lemma {:induction false} LeapDay(y: int)
    ensures YearDays(y) == YearDays(y - 1) + if LeapByRule(y) then 366 else 365
  {
    Fourth(y);
    Hundredth(y);
    FourHundredth(y);
  }

  /** The month table agrees with the count: the first of a month follows the last of the month before. */
  lemma {:induction false} MonthEnds(year: int, month: int)
    requires 1 <= month <= 12
    ensures DayNumber(if month < 12 then Date(year, month + 1, 1) else Date(year + 1, 1, 1))
            == DayNumber(Date(year, month, LastDay(year, month))) + 1
  {
    if month == 2 {
      FebruaryEnds(year);
    }
  }

  lemma {:induction false} FebruaryEnds(year: int)
    ensures DayNumber(Date(year, 3, 1)) == DayNumber(Date(year, 2, LastDay(year, 2))) + 1
  {
    LeapDay(year);
    FourHundredth(year);
    Hundredth(year);
  }

  /** Every day of the calendar is one after the day before. */
  lemma {:induction false} NextDayIsOneMore(d: Date)
    requires Valid(d)
    ensures DayNumber(NextDay(d)) == DayNumber(d) + 1
  {
    if d.day == LastDay(d.year, d.month) {
      MonthEnds(d.year, d.month);
    }
  }

  /** Dates compare like the numbers of their days. */
  lemma {:induction false} LaterIsLarger(a: Date, b: Date)
    requires Valid(a) && Valid(b) && Lt(a, b)
    ensures DayNumber(a) < DayNumber(b)
    decreases b.year - a.year, 12 - a.month, 31 - a.day
  {
    NextDayIsOneMore(a);
    if NextDay(a) != b {
      LaterIsLarger(NextDay(a), b);
    }
  }

  lemma {:induction false} OrderIsByDayNumber(a: Date, b: Date)
    requires Valid(a) && Valid(b)
    ensures Lt(a, b) <==> DayNumber(a) < DayNumber(b)
    ensures Le(a, b) <==> DayNumber(a) <= DayNumber(b)
  {
    if Lt(a, b) {
      LaterIsLarger(a, b);
    } else if a != b {
      LaterIsLarger(b, a);
    }
  }

  /** A year has 366 days if and only if 4 divides it and 100 does not, or 400 does, and 365 otherwise. */
  lemma {:induction false} YearLength(year: int)
    ensures LastDay(year, 1) + LastDay(year, 2) + LastDay(year, 3) + LastDay(year, 4) + LastDay(year, 5)
            + LastDay(year, 6) + LastDay(year, 7) + LastDay(year, 8) + LastDay(year, 9) + LastDay(year, 10)
            + LastDay(year, 11) + LastDay(year, 12)
            == DayNumber(Date(year + 1, 1, 1)) - DayNumber(Date(year, 1, 1))
            == if LeapByRule(year) then 366 else 365
  {
    LeapDay(year);
  }

  // ---- the windows ----

  /** The lengths of the windows, in days, added up. */
  function Lengths(ws: seq<Window>, number: Date -> int): int {
    if ws == [] then 0
    else
      var last := ws[|ws| - 1];
      Lengths(ws[..|ws| - 1], number) + (number(last.last) - number(last.first) + 1)
  }

  lemma {:induction false} ChainAddsUp(ws: seq<Window>, number: Date -> int)
    requires ws != [] && forall k | 0 < k < |ws| :: number(ws[k].first) == number(ws[k - 1].last) + 1
    ensures Lengths(ws, number) == number(ws[|ws| - 1].last) - number(ws[0].first) + 1
  {
    var n := |ws| - 1;
    if n == 0 {
      assert Lengths(ws[..0], number) == 0;
    } else {
      ChainAddsUp(ws[..n], number);
    }
  }

  /** The windows have as many days as the range, from the first day to the last. */
  lemma {:induction false} WindowsAddUp(ws: seq<Window>, start: Date, end: Date)
    requires Tiles(ws, start, end)
    ensures Lengths(ws, DayNumber) == DayNumber(end) - DayNumber(start) + 1
  {
    forall k | 0 < k < |ws|
      ensures DayNumber(ws[k].first) == DayNumber(ws[k - 1].last) + 1
    {
      assert ProperWindow(ws[k - 1]);
      NextDayIsOneMore(ws[k - 1].last);
    }
    ChainAddsUp(ws, DayNumber);
  }

  lemma {:induction false} NextDayInRange(d: Date, end: Date)
    requires Valid(d) && Valid(end) && Lt(d, end)
    ensures Valid(NextDay(d)) && Le(NextDay(d), end)
  {}

  /** Counting on from a day one meets every number. */
  lemma {:induction false} DayWithNumber(start: Date, end: Date, n: int) returns (d: Date)
    requires Valid(start) && Valid(end) && Le(start, end) && DayNumber(start) <= n <= DayNumber(end)
    ensures Valid(d) && DayNumber(d) == n
    decreases n - DayNumber(start)
  {
    if DayNumber(start) == n {
      d := start;
    } else {
      NextDayInRange(start, end);
      NextDayIsOneMore(start);
      d := DayWithNumber(NextDay(start), end, n);
    }
  }

  /** Every number from the first day of the range to the last is the number of exactly one date, and
      that date is in exactly one window: no day of the range goes without its query. */
  lemma {:induction false} EveryDayIsQueried(ws: seq<Window>, start: Date, end: Date, n: int) returns (d: Date, k: nat)
    requires Tiles(ws, start, end) && DayNumber(start) <= n <= DayNumber(end)
    ensures Valid(d) && DayNumber(d) == n && forall e | Valid(e) && DayNumber(e) == n :: e == d
    ensures k < |ws| && InWindow(d, ws[k]) && forall j | 0 <= j < |ws| && InWindow(d, ws[j]) :: j == k
  {
    assert ProperWindow(ws[0]) && ProperWindow(ws[|ws| - 1]);
    OrderIsByDayNumber(start, end);
    d := DayWithNumber(start, end, n);
    forall e | Valid(e) && DayNumber(e) == n
      ensures e == d
    {
      OrderIsByDayNumber(d, e);
      OrderIsByDayNumber(e, d);
    }
    OrderIsByDayNumber(start, d);
    OrderIsByDayNumber(d, end);
    TilesPartition(ws, start, end, d);
    k :| 0 <= k < |ws| && InWindow(d, ws[k]);
  }
}
