/** The date arithmetic of the full sync: the monthly windows it queries, the report periods
    it loads, and the look-ahead-safe year that decides which of them a reader may use. */
module SyncWindows {

  /** A calendar date. The source compares YYYYMMDD strings, which for four-digit years is
      year first, then month, then day. */
  datatype Date = Date(year: int, month: int, day: int)

  predicate IsLeapYear(year: int) {
    (year % 4 == 0 && year % 100 != 0) || year % 400 == 0
  }

  function LastDay(year: int, month: int): int {
    match month
    case 1 | 3 | 5 | 7 | 8 | 10 | 12 => 31
    case 4 | 6 | 9 | 11 => 30
    case 2 => if IsLeapYear(year) then 29 else 28
    case _ => 30
  }

  predicate Valid(d: Date) {
    1000 <= d.year <= 9999 && 1 <= d.month <= 12 && 1 <= d.day <= LastDay(d.year, d.month)
  }

  predicate Lt(a: Date, b: Date) {
    a.year < b.year || (a.year == b.year && (a.month < b.month || (a.month == b.month && a.day < b.day)))
  }

  predicate Le(a: Date, b: Date) {
    a == b || Lt(a, b)
  }

  // ---- monthly windows ----

  datatype Window = Window(first: Date, last: Date)

  function MonthWindow(year: int, month: int): Window {
    Window(Date(year, month, 1), Date(year, month, LastDay(year, month)))
  }

  /** The calendar day after d. */
  function NextDay(d: Date): Date {
    if d.day < LastDay(d.year, d.month) then d.(day := d.day + 1)
    else if d.month < 12 then Date(d.year, d.month + 1, 1)
    else Date(d.year + 1, 1, 1)
  }

  /** The windows run without gap or overlap from `start` to `end`. */
  ghost predicate Tiles(ws: seq<Window>, start: Date, end: Date) {
    && ws != [] && ws[0].first == start && ws[|ws| - 1].last == end
    && Chained(ws)
  }

  /** Windows are proper, stay within one month, and each begins the day after the one before. */
  ghost predicate Chained(ws: seq<Window>) {
    && (forall k | 0 <= k < |ws| :: ProperWindow(ws[k]))
    && (forall k | 0 < k < |ws| :: ws[k].first == NextDay(ws[k - 1].last))
  }

  ghost predicate ProperWindow(w: Window) {
    && Valid(w.first) && Valid(w.last) && Le(w.first, w.last)
    && w.first.year == w.last.year && w.first.month == w.last.month
  }

  /** The windows pushed once every month before (year, month) has been looked at. */
  ghost predicate TiledUpTo(ws: seq<Window>, start: Date, end: Date, year: int, month: int) {
    var next := Date(year, month, 1);
    if Le(next, start) then ws == []
    else if Le(next, end) then Chained(ws) && ws != [] && ws[0].first == start && NextDay(ws[|ws| - 1].last) == next
    else Tiles(ws, start, end)
  }

  function Clip(w: Window, start: Date, end: Date): Window {
    Window(if Lt(w.first, start) then start else w.first, if Lt(end, w.last) then end else w.last)
  }

  predicate Skipped(w: Window, start: Date, end: Date) {
    Lt(w.last, start) || Lt(end, w.first)
  }

  /** One more month: its clipped window, if it has one, continues the tiling. */
  lemma {:induction false} OneMonthMore(ws: seq<Window>, start: Date, end: Date, year: int, month: int)
    requires Valid(start) && Valid(end) && Le(start, end)
    requires start.year <= year <= end.year && 1 <= month <= 12
    requires TiledUpTo(ws, start, end, year, month)
    ensures var w := MonthWindow(year, month);
            var ws' := if Skipped(w, start, end) then ws else ws + [Clip(w, start, end)];
            TiledUpTo(ws', start, end, if month == 12 then year + 1 else year, if month == 12 then 1 else month + 1)
  {
    var w := MonthWindow(year, month);
    if !Skipped(w, start, end) {
      ClippedWindow(w, start, end);
      AppendWindow(ws, Clip(w, start, end), start);
    }
  }

  lemma {:induction false} ClippedWindow(w: Window, start: Date, end: Date)
    requires Valid(start) && Valid(end) && Le(start, end) && ProperWindow(w) && !Skipped(w, start, end)
    requires w.first.day == 1 && w.last.day == LastDay(w.last.year, w.last.month)
    ensures var c := Clip(w, start, end);
            ProperWindow(c) && c.first == (if Le(w.first, start) then start else w.first)
            && c.last == (if Le(end, w.last) then end else w.last)
  {}

  lemma {:induction false} AppendWindow(ws: seq<Window>, c: Window, start: Date)
    requires ProperWindow(c) && Chained(ws)
    requires ws == [] ==> c.first == start
    requires ws != [] ==> ws[0].first == start && c.first == NextDay(ws[|ws| - 1].last)
    ensures Chained(ws + [c]) && (ws + [c])[0].first == start && (ws + [c])[|ws|].last == c.last
  {}

  /** What the clipping makes of a range that ends before it starts: nothing, or one window that
      ends before it starts if both dates are in one month. */
  function Backwards(start: Date, end: Date, year: int, month: int): seq<Window> {
    if start.year == end.year && start.month == end.month && Lt(start, Date(year, month, 1)) then [Window(start, end)]
    else []
  }

  lemma {:induction false} OneMonthBackwards(start: Date, end: Date, year: int, month: int)
    requires Valid(start) && Valid(end) && Lt(end, start) && 1 <= month <= 12
    ensures var w := MonthWindow(year, month);
            var before := Backwards(start, end, year, month);
            Backwards(start, end, if month == 12 then year + 1 else year, if month == 12 then 1 else month + 1)
            == if Skipped(w, start, end) then before else before + [Clip(w, start, end)]
  {}

  /** The index_weight loop of `run_sync`: one window a month, clipped to the range. */
  method MonthlyWindows(start: Date, end: Date) returns (ws: seq<Window>)
    requires Valid(start) && Valid(end)
    ensures Le(start, end) ==> Tiles(ws, start, end)
    ensures Lt(end, start) ==>
              ws == if start.year == end.year && start.month == end.month then [Window(start, end)] else []
  {
    ws := [];
    var year := start.year;
    while year <= end.year
      invariant Le(start, end) ==> start.year <= year <= end.year + 1
      invariant Le(start, end) ==> TiledUpTo(ws, start, end, year, 1)
      invariant Lt(end, start) ==> start.year <= year && (year <= end.year + 1 || ws == [])
      invariant Lt(end, start) ==> ws == Backwards(start, end, year, 1)
    {
      for month := 1 to 13
        invariant Le(start, end) ==>
                    TiledUpTo(ws, start, end, if month == 13 then year + 1 else year, if month == 13 then 1 else month)
        invariant Lt(end, start) ==>
                    ws == Backwards(start, end, if month == 13 then year + 1 else year,
                                    if month == 13 then 1 else month)
      {
        if Le(start, end) {
          OneMonthMore(ws, start, end, year, month);
        } else {
          OneMonthBackwards(start, end, year, month);
        }
        var w := MonthWindow(year, month);
        if Lt(w.last, start) || Lt(end, w.first) {
          continue;
        }
        ws := ws + [Clip(w, start, end)];
      }
      year := year + 1;
    }
  }

  ghost predicate InWindow(d: Date, w: Window) {
    Le(w.first, d) && Le(d, w.last)
  }

  /** Later windows begin after earlier ones end. */
  lemma {:induction false} WindowsAreOrdered(ws: seq<Window>, j: nat, k: nat)
    requires Chained(ws) && j < k < |ws|
    ensures Lt(ws[j].last, ws[k].first)
    decreases k
  {
    assert ws[k].first == NextDay(ws[k - 1].last) && ProperWindow(ws[k - 1]);
    if j < k - 1 {
      WindowsAreOrdered(ws, j, k - 1);
    }
  }

  lemma {:induction false} SomeWindow(ws: seq<Window>, d: Date, n: nat) returns (k: nat)
    requires Chained(ws) && 0 < n <= |ws| && Valid(d) && Le(ws[0].first, d) && Le(d, ws[n - 1].last)
    ensures k < n && InWindow(d, ws[k])
  {
    if Le(ws[n - 1].first, d) {
      k := n - 1;
    } else {
      assert ws[n - 1].first == NextDay(ws[n - 2].last) && ProperWindow(ws[n - 2]);
      k := SomeWindow(ws, d, n - 1);
    }
  }

  /** Tiling is a partition: every calendar day of the range is in exactly one window, and no
      day outside it is in any. */
  lemma {:induction false} TilesPartition(ws: seq<Window>, start: Date, end: Date, d: Date)
    requires Tiles(ws, start, end) && Valid(d)
    ensures Le(start, d) && Le(d, end) <==> exists k :: 0 <= k < |ws| && InWindow(d, ws[k])
    ensures forall j, k | 0 <= j < k < |ws| :: !(InWindow(d, ws[j]) && InWindow(d, ws[k]))
  {
    if Le(start, d) && Le(d, end) {
      var k := SomeWindow(ws, d, |ws|);
    }
    forall k | 0 <= k < |ws| && InWindow(d, ws[k])
      ensures Le(start, d) && Le(d, end)
    {
      assert ProperWindow(ws[k]) && ProperWindow(ws[0]) && ProperWindow(ws[|ws| - 1]);
      if 0 < k {
        WindowsAreOrdered(ws, 0, k);
      }
      if k < |ws| - 1 {
        WindowsAreOrdered(ws, k, |ws| - 1);
      }
    }
    forall j, k | 0 <= j < k < |ws|
      ensures !(InWindow(d, ws[j]) && InWindow(d, ws[k]))
    {
      WindowsAreOrdered(ws, j, k);
    }
  }

  // ---- report periods ----

  /** `safe_financial_year`: the latest year whose annual report is certainly public. */
  function SafeFinancialYear(d: Date): int {
    if d.month < 5 then d.year - 2 else d.year - 1
  }

  /** Annual reports of year y are due by 30 April of the next year. */
  predicate Disclosed(y: int, d: Date) {
    Lt(Date(y + 1, 4, 30), d)
  }

  /** The safe year is the greatest year whose disclosure deadline has passed. */
  lemma {:induction false} SafeYearIsGreatest(d: Date, y: int)
    requires Valid(d)
    ensures Disclosed(y, d) <==> y <= SafeFinancialYear(d)
  {}

  lemma {:induction false} SafeYearIsMonotone(a: Date, b: Date)
    requires Valid(a) && Valid(b) && Le(a, b)
    ensures SafeFinancialYear(a) <= SafeFinancialYear(b)
  {
    SafeYearIsGreatest(a, SafeFinancialYear(a));
    SafeYearIsGreatest(b, SafeFinancialYear(a));
  }

  function QuarterEnd(year: int, quarter: int): Date {
    match quarter
    case 0 => Date(year, 3, 31)
    case 1 => Date(year, 6, 30)
    case 2 => Date(year, 9, 30)
    case _ => Date(year, 12, 31)
  }

  /** The last day of March, June, September or December. */
  predicate IsQuarterEnd(d: Date) {
    1 <= d.month <= 12 && d.month % 3 == 0 && d.day == LastDay(d.year, d.month)
  }

  /** The periods are the quarter ends from `startYear` up to the end date, each once, in order. */
  ghost predicate QuarterEnds(periods: seq<Date>, startYear: int, end: Date) {
    && (forall k, l | 0 <= k < l < |periods| :: Lt(periods[k], periods[l]))
    && (forall p :: p in periods <==> startYear <= p.year && Le(p, end) && IsQuarterEnd(p))
  }

  /** What has been pushed once every quarter before quarter q of the year has been looked at. */
  ghost predicate QuartersBefore(periods: seq<Date>, startYear: int, end: Date, year: int, quarter: int) {
    && (forall k, l | 0 <= k < l < |periods| :: Lt(periods[k], periods[l]))
    && (forall p :: p in periods <==>
          && startYear <= p.year && Le(p, end) && IsQuarterEnd(p)
          && (p.year < year || (p.year == year && p.month <= 3 * quarter)))
  }

  lemma {:induction false} OneQuarterMore(periods: seq<Date>, startYear: int, end: Date, year: int, quarter: int)
    requires startYear <= year && 0 <= quarter < 4 && QuartersBefore(periods, startYear, end, year, quarter)
    ensures var p := QuarterEnd(year, quarter);
            QuartersBefore(if Le(p, end) then periods + [p] else periods, startYear, end, year, quarter + 1)
  {
    var p := QuarterEnd(year, quarter);
    var periods' := if Le(p, end) then periods + [p] else periods;
    forall k, l | 0 <= k < l < |periods'|
      ensures Lt(periods'[k], periods'[l])
    {
      assert periods'[k] in periods;
    }
    forall r
      ensures r in periods' <==> r in periods || (r == p && Le(p, end))
    {}
  }

  lemma {:induction false} YearDone(periods: seq<Date>, startYear: int, end: Date, year: int)
    requires QuartersBefore(periods, startYear, end, year, 4)
    ensures QuartersBefore(periods, startYear, end, year + 1, 0)
  {}

  /** `financial_periods_from_year` */
  method FinancialPeriodsFromYear(startYear: int, end: Date) returns (periods: seq<Date>)
    requires Valid(end) && 1000 <= startYear
    ensures QuarterEnds(periods, startYear, end)
  {
    periods := [];
    var year := startYear;
    while year <= end.year
      invariant startYear <= year && (year <= end.year + 1 || periods == [])
      invariant QuartersBefore(periods, startYear, end, year, 0)
    {
      for quarter := 0 to 4
        invariant QuartersBefore(periods, startYear, end, year, quarter)
      {
        OneQuarterMore(periods, startYear, end, year, quarter);
        var period := QuarterEnd(year, quarter);
        if Le(period, end) {
          periods := periods + [period];
        }
      }
      YearDone(periods, startYear, end, year);
      year := year + 1;
    }
  }

  function FirstSyncedYear(start: Date, lookbackYears: nat): int {
    SafeFinancialYear(start) - (if lookbackYears < 1 then 1 else lookbackYears) + 1
  }

  /** A year is synced if and only if the report of the year that comes `lookbackYears` later, at
      least one, is not certain to be public on the start date. */
  lemma {:induction false} FirstYearIsLookback(start: Date, lookbackYears: nat, y: int)
    requires Valid(start)
    ensures FirstSyncedYear(start, lookbackYears) <= y
            <==> !Disclosed(y + (if lookbackYears == 0 then 1 else lookbackYears), start)
  {
    SafeYearIsGreatest(start, y + if lookbackYears == 0 then 1 else lookbackYears);
  }

  /** `full_sync_financial_periods` */
  method FullSyncFinancialPeriods(start: Date, end: Date, lookbackYears: nat) returns (periods: seq<Date>)
    requires Valid(start) && Valid(end) && 1000 <= FirstSyncedYear(start, lookbackYears)
    ensures QuarterEnds(periods, FirstSyncedYear(start, lookbackYears), end)
  {
    periods := FinancialPeriodsFromYear(FirstSyncedYear(start, lookbackYears), end);
  }

  /** The periods a local ten-year reader asks for on a trade date, one a year. */
  ghost predicate RequestedByReader(period: Date, tradeDate: Date, lookbackYears: nat) {
    var safeYear := SafeFinancialYear(tradeDate);
    period == Date(period.year, 12, 31) && safeYear - lookbackYears + 1 <= period.year <= safeYear
  }

  /** Whatever a local reader asks for on a trade date of the synced range was synced, and its
      disclosure deadline lies before the trade date. */
  lemma {:induction false} SyncCoversReaders(periods: seq<Date>, start: Date, end: Date, synced: nat,
                                             tradeDate: Date, lookbackYears: nat, period: Date)
    requires Valid(start) && Valid(end) && Valid(tradeDate) && Le(start, tradeDate) && Le(tradeDate, end)
    requires QuarterEnds(periods, FirstSyncedYear(start, synced), end)
    requires lookbackYears <= synced && RequestedByReader(period, tradeDate, lookbackYears)
    ensures period in periods
    ensures Disclosed(period.year, tradeDate)
  {
    SafeYearIsMonotone(start, tradeDate);
    SafeYearIsGreatest(tradeDate, period.year);
  }
}
