/** Plans over a grid of codes and dates (or report periods): how far they are cut, and which cells
    they hold. */
module Matrix {
  import opened Catalog
  import opened Store
  import opened Wrappers
  import opened Backfill

  const MAX_CODES := 20
  const MAX_TICKS := 20

  function Min(a: nat, b: nat): nat { if a <= b then a else b }

  // ---- how far a plan is cut ----

  datatype Extent = Extent(codes: nat, ticks: nat, codesCut: bool, ticksCut: bool, candidatesCut: bool)
  {
    function Jobs(): nat { codes * ticks }
  }

  function Clamp(n: int): nat { if n < 0 then 0 else n }

  /** How many dates fit for every code. */
  function Share(maxJobs: nat, codes: nat): nat {
    if codes == 0 then 0 else maxJobs / codes
  }

  /** `from_candidate_counts`: codes and dates are cut to their limits, and then the dates so that
      the product fits. */
  function ExtentOf(totalCodes: int, totalTicks: int, limitCodes: int, limitTicks: int, maxCandidates: int): Extent {
    var codes := Min(Clamp(totalCodes), Min(Clamp(limitCodes), MAX_CODES));
    var ticks := Min(Clamp(totalTicks), Min(Clamp(limitTicks), MAX_TICKS));
    var maxJobs := Clamp(maxCandidates);
    var cut := codes * ticks > maxJobs;
    Extent(codes, if cut then Share(maxJobs, codes) else ticks,
           Clamp(totalCodes) > codes, Clamp(totalTicks) > ticks, cut)
  }

  lemma {:induction false} QuotientIsTight(max: nat, codes: nat)
    requires codes > 0
    ensures codes * (max / codes) <= max < codes * (max / codes + 1)
  {}

  /** A plan never exceeds any limit; and if the number of jobs has cut it, one more date for every
      code would exceed that number. */
  lemma {:induction false} ExtentIsMaximal(totalCodes: int, totalTicks: int, limitCodes: int, limitTicks: int,
                                           maxCandidates: int)
    ensures var e := ExtentOf(totalCodes, totalTicks, limitCodes, limitTicks, maxCandidates);
            && e.Jobs() <= Clamp(maxCandidates)
            && e.codes <= Clamp(totalCodes) && e.codes <= Clamp(limitCodes) && e.codes <= MAX_CODES
            && e.ticks <= Clamp(totalTicks) && e.ticks <= Clamp(limitTicks) && e.ticks <= MAX_TICKS
            && (e.candidatesCut ==> e.codes > 0 && e.codes * (e.ticks + 1) > Clamp(maxCandidates))
            && (e.codesCut ==> e.codes == Min(Clamp(limitCodes), MAX_CODES))
            && (!e.candidatesCut && e.ticksCut ==> e.ticks == Min(Clamp(limitTicks), MAX_TICKS))
  {
    var codes := Min(Clamp(totalCodes), Min(Clamp(limitCodes), MAX_CODES));
    var ticks := Min(Clamp(totalTicks), Min(Clamp(limitTicks), MAX_TICKS));
    if codes * ticks > Clamp(maxCandidates) {
      assert codes > 0;
      QuotientIsTight(Clamp(maxCandidates), codes);
      LargerFactor(codes, Clamp(maxCandidates) / codes, ticks);
    }
  }

  /** The largest number that none of three limits forbids; below zero a limit forbids all but none. */
  ghost predicate IsLargest(n: nat, a: int, b: int, c: int) {
    && (n == 0 || (n <= a && n <= b && n <= c))
    && (n + 1 > a || n + 1 > b || n + 1 > c)
  }

  /** The extent is exactly this: as many codes as the candidates, the limit and 20 allow; as many
      dates too, unless the product exceeds the number of jobs allowed, and then as many as keep it
      from that; and what was cut is said. */
  lemma {:induction false} ExtentIsExact(totalCodes: int, totalTicks: int, limitCodes: int, limitTicks: int,
                                         maxCandidates: int, ticks: nat)
    requires IsLargest(ticks, totalTicks, limitTicks, 20)
    ensures var e := ExtentOf(totalCodes, totalTicks, limitCodes, limitTicks, maxCandidates);
            && IsLargest(e.codes, totalCodes, limitCodes, 20)
            && (e.codesCut <==> e.codes < totalCodes) && (e.ticksCut <==> ticks < totalTicks)
            && (e.candidatesCut <==> e.codes * ticks > 0 && e.codes * ticks > maxCandidates)
            && (!e.candidatesCut ==> e.ticks == ticks)
            && (e.candidatesCut ==>
                  (e.ticks == 0 || e.codes * e.ticks <= maxCandidates) && e.codes * (e.ticks + 1) > maxCandidates)
  {
    ExtentIsMaximal(totalCodes, totalTicks, limitCodes, limitTicks, maxCandidates);
  }

  lemma {:induction false} LargerFactor(c: nat, a: nat, b: nat)
    ensures b <= a ==> c * b <= c * a
  {}

  // ---- the cells ----

  datatype Cell = Cell(code: string, tick: string)

  /** What the codes are crossed with: dates, in fields that depend on the parameters an endpoint
      supports, or report periods. */
  datatype Axis = Dates(supported: set<string>) | Periods(field: string)

  /** A report period with staged files is blocked; a date with staged files is retried. */
  datatype CellPlan = Planned(plan: Plan) | BlockedStaged

  datatype MatrixItem = MatrixItem(cell: Cell, key: JobKey, standing: Standing, plan: CellPlan)

  /** `_params_for_date`: the fields that take the date. */
  function DateFields(supported: set<string>): set<string> {
    if "trade_date" in supported then {"trade_date"}
    else if "ann_date" in supported then {"ann_date"}
    else if "end_date" in supported && "start_date" !in supported then {"end_date"}
    else if "end_date" in supported then {"start_date", "end_date"}
    else {"date"}
  }

  /** The parameters of a cell: its code, and its date or period. */
  function CellParams(cell: Cell, axis: Axis): map<string, string> {
    match axis
    case Dates(supported) => (map f | f in DateFields(supported) :: cell.tick)["ts_code" := cell.code]
    case Periods(field) => map["ts_code" := cell.code][field := cell.tick]
  }

  /** `_existing_status_and_action` of either planner. */
  function CellPlanFor(standing: Standing, axis: Axis): CellPlan {
    if axis.Periods? && standing.StagedExists? then BlockedStaged else Planned(PlanFor(standing, false))
  }

  function ItemOf(c: Cat, e: Endpoint, axis: Axis, cell: Cell): MatrixItem {
    var key := MakeKey(e, CellParams(cell, axis), None);
    var standing := StandingOf(c, key);
    MatrixItem(cell, key, standing, CellPlanFor(standing, axis))
  }

  /** `would_require_real_request` */
  predicate IsRequested(item: MatrixItem) {
    item.plan.Planned? && item.plan.plan in {FetchNow, RetryFailed}
  }

  /** A cell is requested unless its job has active data, is quarantined, or, for a report period,
      has staged files; and apart from that the plan for it is that for any job. */
  lemma {:induction false} RequestedIff(c: Cat, e: Endpoint, axis: Axis, cell: Cell)
    ensures var item := ItemOf(c, e, axis, cell);
            var staged := exists row :: row in c.files && row.key == item.key && row.apiName == item.key.apiName
                                        && row.status.Staged?;
            var quarantined := exists q :: q in c.quarantine && q.key == item.key;
            && (IsRequested(item)
                <==> !Covering(c, item.key) && !quarantined && !(axis.Periods? && staged))
            && (item.plan.BlockedStaged? <==> axis.Periods? && staged && !Covering(c, item.key) && !quarantined)
            && (item.plan.Planned? ==> IsPlanned(c, item.key, false, item.plan.plan))
  {
    var key := MakeKey(e, CellParams(cell, axis), None);
    StandingIs(c, key);
    PlannedIs(c, key, false);
  }

  /** The field takes the date of a cell: the trade date if the endpoint supports it, else the
      announcement date, else the end date, together with the start date if there is that too, and
      if there is no end date either, a plain date. */
  ghost predicate TakesDate(p: string, supported: set<string>) {
    match p
    case "trade_date" => "trade_date" in supported
    case "ann_date" => "ann_date" in supported && "trade_date" !in supported
    case "end_date" => "end_date" in supported && "trade_date" !in supported && "ann_date" !in supported
    case "start_date" =>
      "start_date" in supported && "end_date" in supported && "trade_date" !in supported && "ann_date" !in supported
    case "date" => "end_date" !in supported && "trade_date" !in supported && "ann_date" !in supported
    case _ => false
  }

  /** The key of a cell: the defaults of the endpoint, but the code in its field and the date, or the
      period, in every field that takes one. A field for both has the period of a period cell. */
  lemma {:induction false} CellKeyIs(c: Cat, e: Endpoint, axis: Axis, cell: Cell, p: string)
    ensures var item := ItemOf(c, e, axis, cell);
            && item.cell == cell && item.key.apiName == e.apiName && item.key.spec == e.spec
            && item.key.fields == e.defaultFields && item.standing == StandingOf(c, item.key)
            && Find(item.key.params, p)
               == match axis
                  case Dates(supported) => if p == "ts_code" then Some(cell.code)
                                           else if TakesDate(p, supported) then Some(cell.tick)
                                           else Find(e.defaultParams, p)
                  case Periods(field) => if p == field then Some(cell.tick)
                                         else if p == "ts_code" then Some(cell.code)
                                         else Find(e.defaultParams, p)
  {
    KeyIs(e, CellParams(cell, axis), None, p);
    if axis.Dates? {
      assert p in DateFields(axis.supported) <==> TakesDate(p, axis.supported);
    }
  }

  /** One row of the grid. */
  function RowOf(code: string, ticks: seq<string>): seq<Cell> {
    seq(|ticks|, j requires 0 <= j < |ticks| => Cell(code, ticks[j]))
  }

  /** The grid, row after row. */
  function Grid(codes: seq<string>, ticks: seq<string>): seq<Cell> {
    if codes == [] then [] else Grid(codes[..|codes| - 1], ticks) + RowOf(codes[|codes| - 1], ticks)
  }

  function ItemsOf(c: Cat, e: Endpoint, axis: Axis, cells: seq<Cell>): seq<MatrixItem> {
    seq(|cells|, k requires 0 <= k < |cells| => ItemOf(c, e, axis, cells[k]))
  }

  lemma {:induction false} GridGrows(codes: seq<string>, ticks: seq<string>, i: nat)
    requires i < |codes|
    ensures Grid(codes[..i + 1], ticks) == Grid(codes[..i], ticks) + RowOf(codes[i], ticks)
  {
    var some := codes[..i + 1];
    assert some != [] && some[..|some| - 1] == codes[..i] && some[|some| - 1] == codes[i];
  }

  lemma {:induction false} OneMoreItem(c: Cat, e: Endpoint, axis: Axis, rows: seq<Cell>, row: seq<Cell>,
                                       j: nat)
    requires j < |row|
    ensures ItemsOf(c, e, axis, rows + row[..j + 1])
            == ItemsOf(c, e, axis, rows + row[..j]) + [ItemOf(c, e, axis, row[j])]
  {
    assert rows + row[..j + 1] == rows + row[..j] + [row[j]];
  }

  /** The loops of `plan` over the codes and dates that are left. */
  method PlanItems(c: Cat, e: Endpoint, axis: Axis, codes: seq<string>, ticks: seq<string>, extent: Extent)
    returns (items: seq<MatrixItem>)
    requires extent.codes <= |codes| && extent.ticks <= |ticks|
    ensures items == ItemsOf(c, e, axis, Grid(codes[..extent.codes], ticks[..extent.ticks]))
  {
    var selectedCodes, selectedTicks := codes[..extent.codes], ticks[..extent.ticks];
    items := [];
    for i := 0 to |selectedCodes|
      invariant items == ItemsOf(c, e, axis, Grid(selectedCodes[..i], selectedTicks))
    {
      ghost var rows, row := Grid(selectedCodes[..i], selectedTicks), RowOf(selectedCodes[i], selectedTicks);
      assert rows + row[..0] == rows;
      for j := 0 to |selectedTicks|
        invariant items == ItemsOf(c, e, axis, rows + row[..j])
      {
        OneMoreItem(c, e, axis, rows, row, j);
        items := items + [ItemOf(c, e, axis, Cell(selectedCodes[i], selectedTicks[j]))];
      }
      assert row[..|selectedTicks|] == row;
      GridGrows(selectedCodes, selectedTicks, i);
    }
    assert selectedCodes[..|selectedCodes|] == selectedCodes;
  }

  // ---- what the grid holds ----

  lemma {:induction false} GridIsProduct(codes: seq<string>, ticks: seq<string>, cell: Cell)
    ensures cell in Grid(codes, ticks) <==> cell.code in codes && cell.tick in ticks
    ensures |Grid(codes, ticks)| == |codes| * |ticks|
  {
    if codes != [] {
      var n := |codes| - 1;
      GridIsProduct(codes[..n], ticks, cell);
      assert codes == codes[..n] + [codes[n]];
      assert |codes| * |ticks| == n * |ticks| + |ticks|;
      if cell.code == codes[n] && cell.tick in ticks {
        var j :| 0 <= j < |ticks| && ticks[j] == cell.tick;
        assert RowOf(codes[n], ticks)[j] == cell;
      }
    }
  }

  /** The cell of code i and date j stands at position i * |ticks| + j. */
  lemma {:induction false} GridIsRowMajor(codes: seq<string>, ticks: seq<string>, i: nat, j: nat)
    requires i < |codes| && j < |ticks|
    ensures i * |ticks| + j < |Grid(codes, ticks)| && Grid(codes, ticks)[i * |ticks| + j] == Cell(codes[i], ticks[j])
  {
    var n := |codes| - 1;
    GridIsProduct(codes[..n], ticks, Cell(codes[i], ticks[j]));
    if i < n {
      GridIsRowMajor(codes[..n], ticks, i, j);
    }
  }

  ghost predicate NoDuplicates<T>(xs: seq<T>) {
    forall i, j | 0 <= i < j < |xs| :: xs[i] != xs[j]
  }

  /** Different codes and different dates make different cells. */
  lemma {:induction false} GridHasNoDuplicates(codes: seq<string>, ticks: seq<string>)
    requires NoDuplicates(codes) && NoDuplicates(ticks)
    ensures NoDuplicates(Grid(codes, ticks))
  {
    if codes != [] {
      var n := |codes| - 1;
      var rows, row := Grid(codes[..n], ticks), RowOf(codes[n], ticks);
      GridHasNoDuplicates(codes[..n], ticks);
      forall i, j | 0 <= i < |rows| && 0 <= j < |row|
        ensures rows[i] != row[j]
      {
        GridIsProduct(codes[..n], ticks, rows[i]);
        assert rows[i] in rows;
      }
    }
  }

  lemma {:induction false} ItemsAreCells(c: Cat, e: Endpoint, axis: Axis, cells: seq<Cell>, cell: Cell)
    requires NoDuplicates(cells)
    ensures var items := ItemsOf(c, e, axis, cells);
            && |items| == |cells| && (forall i, j | 0 <= i < j < |items| :: items[i].cell != items[j].cell)
            && (cell in cells <==> exists k :: 0 <= k < |items| && items[k].cell == cell)
  {
    var items := ItemsOf(c, e, axis, cells);
    assert forall k | 0 <= k < |items| :: items[k].cell == cells[k];
  }

  /** The items of a plan are the cells of its codes and dates and no others, each exactly once, as
      many as the extent says. */
  lemma {:induction false} PlanIsExact(c: Cat, e: Endpoint, axis: Axis, codes: seq<string>,
                                       ticks: seq<string>, extent: Extent, cell: Cell)
    requires extent.codes <= |codes| && extent.ticks <= |ticks|
    requires NoDuplicates(codes) && NoDuplicates(ticks)
    ensures var items := ItemsOf(c, e, axis, Grid(codes[..extent.codes], ticks[..extent.ticks]));
            && |items| == extent.Jobs()
            && (forall i, j | 0 <= i < j < |items| :: items[i].cell != items[j].cell)
            && ((exists k :: 0 <= k < |items| && items[k].cell == cell)
                <==> cell.code in codes[..extent.codes] && cell.tick in ticks[..extent.ticks])
  {
    var someCodes, someTicks := codes[..extent.codes], ticks[..extent.ticks];
    GridHasNoDuplicates(someCodes, someTicks);
    GridIsProduct(someCodes, someTicks, cell);
    ItemsAreCells(c, e, axis, Grid(someCodes, someTicks), cell);
  }

  // ---- report periods ----

  datatype Period = Period(year: int, quarter: int)

  predicate NotAfter(p: Period, q: Period) {
    p.year < q.year || (p.year == q.year && p.quarter <= q.quarter)
  }

  function Index(p: Period): int { 4 * p.year + p.quarter }

  ghost predicate InRange(p: Period, start: Period, end: Period, annual: bool) {
    1 <= p.quarter <= 4 && NotAfter(start, p) && NotAfter(p, end) && (annual ==> p.quarter == 4)
  }

  datatype PeriodError = StartAfterEnd | UnknownFrequency

  /** `generate_period_range`: exactly the quarters, or year ends, from start to end, in order;
      refused if the start is after the end, and otherwise if the frequency is neither of the two. */
  method GeneratePeriodRange(start: Period, end: Period, frequency: string)
    returns (r: Result<seq<Period>, PeriodError>)
    requires 1 <= start.quarter <= 4 && 1 <= end.quarter <= 4
    ensures r.Ok? <==> NotAfter(start, end) && frequency in {"quarterly", "annual"}
    ensures r.Err? ==> r.error == if NotAfter(start, end) then UnknownFrequency else StartAfterEnd
    ensures r.Ok? ==> forall i, j | 0 <= i < j < |r.value| :: Index(r.value[i]) < Index(r.value[j])
    ensures r.Ok? ==> forall p :: p in r.value <==> InRange(p, start, end, frequency == "annual")
  {
    if !NotAfter(start, end) {
      return Err(StartAfterEnd);
    }
    if frequency !in {"quarterly", "annual"} {
      return Err(UnknownFrequency);
    }
    var annual := frequency == "annual";
    var periods: seq<Period> := [];
    var year, quarter := start.year, start.quarter;
    while NotAfter(Period(year, quarter), end)
      invariant 1 <= quarter <= 4 && NotAfter(start, Period(year, quarter))
      invariant forall i, j | 0 <= i < j < |periods| :: Index(periods[i]) < Index(periods[j])
      invariant forall p :: p in periods <==> InRange(p, start, end, annual) && Index(p) < Index(Period(year, quarter))
      decreases Index(end) - Index(Period(year, quarter))
    {
      if !annual || quarter == 4 {
        ghost var before := periods;
        periods := periods + [Period(year, quarter)];
        assert forall i | 0 <= i < |before| :: before[i] in before;
      }
      quarter := quarter + 1;
      if quarter == 5 {
        year, quarter := year + 1, 1;
      }
    }
    return Ok(periods);
  }
}
