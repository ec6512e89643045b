/** Backfilling a dated series: how dates are classified, planned and counted, and how a plan is
    executed job by job under one run. */
module Backfill {
  import opened Wrappers
  import opened Errors
  import opened Catalog
  import opened Store
  import opened LakeStore
  import opened RunRows
  import Schema

  // ---- dates ----

  predicate IsDate(s: string) {
    |s| == 8 && forall i | 0 <= i < |s| :: '0' <= s[i] <= '9'
  }

  /** A normalized calendar date: eight digits. */
  type Date = s: string | IsDate(s) witness "20240101"

  /** The number that digits form. Eight digits compare as strings the way they do as numbers. */
  function Number(s: string): int {
    if s == [] then 0 else 10 * Number(s[..|s| - 1]) + (s[|s| - 1] as int - '0' as int)
  }

  lemma {:induction false} NumberIsInjective(s: string, t: string)
    requires |s| == |t| && Number(s) == Number(t)
    requires forall i | 0 <= i < |s| :: '0' <= s[i] <= '9' && '0' <= t[i] <= '9'
    ensures s == t
  {
    if s != [] {
      var n := |s| - 1;
      assert s == s[..n] + [s[n]] && t == t[..n] + [t[n]];
      NumberIsInjective(s[..n], t[..n]);
    }
  }

  predicate Earlier(d: Date, e: Date) {
    Number(d) < Number(e)
  }

  /** At the first place where the digits differ, s has the smaller one. */
  ghost predicate Before(s: string, t: string, k: nat) {
    k < |s| && k < |t| && s[..k] == t[..k] && s[k] < t[k]
  }

  predicate AllDigits(s: string) {
    forall i | 0 <= i < |s| :: '0' <= s[i] <= '9'
  }

  lemma {:induction false} BeforeInLonger(s: string, t: string, c: char, d: char, k: nat)
    requires |s| == |t|
    ensures k < |s| ==> (Before(s + [c], t + [d], k) <==> Before(s, t, k))
    ensures Before(s + [c], t + [d], |s|) <==> s == t && c < d
  {
    assert (s + [c])[..|s|] == s && (t + [d])[..|s|] == t;
    if k < |s| {
      assert (s + [c])[..k] == s[..k] && (t + [d])[..k] == t[..k];
    }
  }

  lemma {:induction false} BeforeGrows(s: string, t: string, c: char, d: char)
    requires |s| == |t|
    ensures (exists k :: Before(s + [c], t + [d], k)) <==> (exists k :: Before(s, t, k)) || (s == t && c < d)
  {
    if k: nat :| Before(s, t, k) {
      BeforeInLonger(s, t, c, d, k);
    }
    BeforeInLonger(s, t, c, d, |s|);
    if k: nat :| Before(s + [c], t + [d], k) {
      BeforeInLonger(s, t, c, d, k);
    }
  }

  lemma {:induction false} NumberGrows(s: string, c: char)
    ensures Number(s + [c]) == 10 * Number(s) + (c as int - '0' as int)
  {
    assert (s + [c])[..|s|] == s;
  }

  /** Strings of as many digits compare like the numbers they form. */
  lemma {:induction false} NumbersCompareLikeStrings(s: string, t: string)
    requires |s| == |t| && AllDigits(s) && AllDigits(t)
    ensures Number(s) < Number(t) <==> exists k :: Before(s, t, k)
  {
    if s != [] {
      var n := |s| - 1;
      var s', t' := s[..n], t[..n];
      assert s == s' + [s[n]] && t == t' + [t[n]];
      NumbersCompareLikeStrings(s', t');
      BeforeGrows(s', t', s[n], t[n]);
      NumberGrows(s', s[n]);
      NumberGrows(t', t[n]);
      if Number(s') == Number(t') {
        NumberIsInjective(s', t');
      }
    }
  }

  ghost predicate Increasing(ds: seq<Date>) {
    forall i, j | 0 <= i < j < |ds| :: Earlier(ds[i], ds[j])
  }

  function InsertDate(d: Date, ds: seq<Date>): (r: seq<Date>)
    ensures forall x :: x in r <==> x == d || x in ds
  {
    if ds == [] || Earlier(d, ds[0]) then [d] + ds
    else if d == ds[0] then ds
    else
      assert ds == [ds[0]] + ds[1..];
      [ds[0]] + InsertDate(d, ds[1..])
  }

  lemma {:induction false} InsertIncreases(d: Date, ds: seq<Date>)
    requires Increasing(ds)
    ensures Increasing(InsertDate(d, ds))
  {
    if ds != [] && !Earlier(d, ds[0]) && d != ds[0] {
      InsertIncreases(d, ds[1..]);
      var rest := InsertDate(d, ds[1..]);
      if Number(d) == Number(ds[0]) {
        NumberIsInjective(d, ds[0]);
      }
      forall k | 0 <= k < |rest|
        ensures Earlier(ds[0], rest[k])
      {
        assert rest[k] in rest;
      }
    }
  }

  /** The dates in ascending order, each once. */
  function SortUnique(ds: seq<Date>): (r: seq<Date>)
    ensures Increasing(r) && forall x :: x in r <==> x in ds
  {
    if ds == [] then []
    else
      InsertIncreases(ds[0], SortUnique(ds[1..]));
      InsertDate(ds[0], SortUnique(ds[1..]))
  }

  lemma {:induction false} SortUniqueOfSorted(ds: seq<Date>)
    requires Increasing(ds)
    ensures SortUnique(ds) == ds
  {
    if ds != [] {
      SortUniqueOfSorted(ds[1..]);
    }
  }

  // ---- jobs ----

  datatype Series = Series(endpoint: Endpoint, dateField: string)

  function ParamsFor(s: Series, d: Date): map<string, string> {
    map[s.dateField := d]
  }

  function JobFor(s: Series, d: Date): JobKey {
    MakeKey(s.endpoint, ParamsFor(s, d), None)
  }

  lemma {:induction false} JobsDiffer(s: Series, d: Date, e: Date)
    requires d != e
    ensures JobFor(s, d) != JobFor(s, e)
  {
    assert JobFor(s, d).params[s.dateField] == d && JobFor(s, e).params[s.dateField] == e;
  }

  /** A plan keeps the effective parameters; filling in the defaults once more changes nothing. */
  lemma {:induction false} RekeyIsSame(s: Series, d: Date)
    ensures MakeKey(s.endpoint, JobFor(s, d).params, None) == JobFor(s, d)
  {
    var defaults, given := s.endpoint.defaultParams, ParamsFor(s, d);
    assert defaults + (defaults + given) == defaults + given;
  }

  // ---- classification ----

  datatype Standing = ActiveExists | QuarantinedExists | StagedExists | FailedExists | UnknownStanding | Absent

  datatype Plan = SkipExisting | BlockedQuarantined | RetryFailed | FetchNow

  predicate QuarantinedJob(c: Cat, key: JobKey) {
    exists q | q in c.quarantine :: q.key == key
  }

  predicate StagedJob(c: Cat, key: JobKey) {
    exists row | row in c.files :: row.key == key && row.apiName == key.apiName && row.status == Staged
  }

  /** `_existing_status_and_action`: the first that applies. */
  function StandingOf(c: Cat, key: JobKey): Standing {
    if ExistingActiveData(c, key) then ActiveExists
    else if QuarantinedJob(c, key) then QuarantinedExists
    else if StagedJob(c, key) then StagedExists
    else if key in c.jobs && c.jobs[key].status.Failed? then FailedExists
    else if key in c.jobs then UnknownStanding
    else Absent
  }

  function PlanFor(standing: Standing, retryQuarantined: bool): Plan {
    match standing
    case ActiveExists => SkipExisting
    case QuarantinedExists => if retryQuarantined then RetryFailed else BlockedQuarantined
    case StagedExists => RetryFailed
    case FailedExists => RetryFailed
    case UnknownStanding => FetchNow
    case Absent => FetchNow
  }

  /** The job is done and has an active lake file. */
  ghost predicate Covering(c: Cat, key: JobKey) {
    key in c.jobs && c.jobs[key].status.Done? && exists f :: IsActive(c, key, f)
  }

  lemma {:induction false} CoveringIff(c: Cat, key: JobKey)
    ensures ExistingActiveData(c, key) <==> Covering(c, key)
  {
    if f :| f in ActiveLakeFiles(c, key) {
      ActiveIff(c, key, f);
    }
    if f :| IsActive(c, key, f) {
      ActiveIff(c, key, f);
    }
  }

  ghost predicate Has(c: Cat, key: JobKey, status: JobStatus) {
    key in c.jobs && c.jobs[key].status == status
  }

  /** What is done about a job: nothing if it is covered; nothing either, without leave to retry it, if
      it has ever been quarantined; a retry if it was quarantined, has staged files or has failed; and
      otherwise a fetch. */
  ghost predicate IsPlanned(c: Cat, key: JobKey, retryQuarantined: bool, plan: Plan) {
    var quarantined := exists q :: q in c.quarantine && q.key == key;
    var staged := exists row :: row in c.files && row.key == key && row.apiName == key.apiName && row.status.Staged?;
    plan == if Covering(c, key) then SkipExisting
            else if quarantined then (if retryQuarantined then RetryFailed else BlockedQuarantined)
            else if staged || Has(c, key, Failed) then RetryFailed
            else FetchNow
  }

  /** The plan follows the classification in just this way. */
  lemma {:induction false} PlannedIs(c: Cat, key: JobKey, retryQuarantined: bool)
    ensures IsPlanned(c, key, retryQuarantined, PlanFor(StandingOf(c, key), retryQuarantined))
  {
    CoveringIff(c, key);
  }

  /** When a job counts as what. */
  lemma {:induction false} StandingIs(c: Cat, key: JobKey)
    ensures var standing := StandingOf(c, key);
            var quarantined := exists q :: q in c.quarantine && q.key == key;
            var staged := exists row :: row in c.files && row.key == key && row.apiName == key.apiName
                                        && row.status.Staged?;
            && (standing.ActiveExists? <==> Covering(c, key))
            && (standing.QuarantinedExists? <==> !Covering(c, key) && quarantined)
            && (standing.StagedExists? <==> !Covering(c, key) && !quarantined && staged)
            && (standing.FailedExists? <==> !Covering(c, key) && !quarantined && !staged && Has(c, key, Failed))
            && (standing.Absent? <==> !Covering(c, key) && !quarantined && !staged && key !in c.jobs)
  {
    CoveringIff(c, key);
  }

  // ---- planning ----

  datatype BackfillJob = BackfillJob(date: Date, params: map<string, string>, key: JobKey, standing: Standing,
                                     plan: Plan)

  datatype BackfillPlan = BackfillPlan(dates: seq<Date>, jobs: seq<BackfillJob>, truncated: bool)

  datatype PlanError = MaxJobsNotPositive | TooManyToExecute

  const EXECUTE_MAX_JOBS := 20

  function PlanJob(c: Cat, s: Series, retryQuarantined: bool, d: Date): BackfillJob {
    var key := JobFor(s, d);
    var standing := StandingOf(c, key);
    BackfillJob(d, key.params, key, standing, PlanFor(standing, retryQuarantined))
  }

  function First<T>(xs: seq<T>, n: nat): seq<T> {
    if n < |xs| then xs[..n] else xs
  }

  /** `plan_date_backfill` for a supported API */
  function PlanDates(c: Cat, s: Series, dates: seq<Date>, maxJobs: int,
                     retryQuarantined: bool): Result<BackfillPlan, PlanError> {
    if maxJobs <= 0 then Err(MaxJobsNotPositive)
    else
      var normalized := SortUnique(dates);
      var chosen := First(normalized, maxJobs);
      Ok(BackfillPlan(normalized,
                      seq(|chosen|, i requires 0 <= i < |chosen| => PlanJob(c, s, retryQuarantined, chosen[i])),
                      |normalized| > maxJobs))
  }

  /** The key of a date: the defaults of the endpoint, but the date in the date field. */
  ghost predicate KeyOfDate(s: Series, d: Date, key: JobKey) {
    && key.apiName == s.endpoint.apiName && key.spec == s.endpoint.spec && key.fields == s.endpoint.defaultFields
    && forall p :: Find(key.params, p) == if p == s.dateField then Some(d) else Find(s.endpoint.defaultParams, p)
  }

  /** A plan lists the dates in ascending order, each once, and a job for each of the first ones, as
      many as are allowed, with its key and what is to be done about it. */
  lemma {:induction false} PlannedJobs(c: Cat, s: Series, dates: seq<Date>, maxJobs: int, retryQuarantined: bool)
    ensures var r := PlanDates(c, s, dates, maxJobs, retryQuarantined);
            if maxJobs <= 0 then r == Err(MaxJobsNotPositive)
            else
              && r.Ok? && Increasing(r.value.dates) && (forall d :: d in r.value.dates <==> d in dates)
              && |r.value.jobs| == (if |r.value.dates| <= maxJobs then |r.value.dates| else maxJobs)
              && (r.value.truncated <==> |r.value.dates| > maxJobs)
              && forall i | 0 <= i < |r.value.jobs| ::
                   PlannedFor(c, s, r.value.dates[i], retryQuarantined, r.value.jobs[i])
  {
    var r := PlanDates(c, s, dates, maxJobs, retryQuarantined);
    if maxJobs > 0 {
      forall i | 0 <= i < |r.value.jobs|
        ensures PlannedFor(c, s, r.value.dates[i], retryQuarantined, r.value.jobs[i])
      {
        PlannedJob(c, s, retryQuarantined, r.value.dates[i]);
      }
    }
  }

  ghost predicate PlannedFor(c: Cat, s: Series, d: Date, retryQuarantined: bool, job: BackfillJob) {
    && job.date == d && KeyOfDate(s, d, job.key) && job.params == job.key.params
    && job.standing == StandingOf(c, job.key) && IsPlanned(c, job.key, retryQuarantined, job.plan)
  }

  lemma {:induction false} PlannedJob(c: Cat, s: Series, retryQuarantined: bool, d: Date)
    ensures PlannedFor(c, s, d, retryQuarantined, PlanJob(c, s, retryQuarantined, d))
  {
    var key := JobFor(s, d);
    PlannedIs(c, key, retryQuarantined);
    forall p
      ensures Find(key.params, p) == if p == s.dateField then Some(d) else Find(s.endpoint.defaultParams, p)
    {
      KeyIs(s.endpoint, ParamsFor(s, d), None, p);
    }
  }

  // ---- coverage ----

  function CountStanding(jobs: seq<BackfillJob>, standing: Standing): nat {
    if jobs == [] then 0 else (if jobs[0].standing == standing then 1 else 0) + CountStanding(jobs[1..], standing)
  }

  datatype Coverage = Coverage(items: seq<BackfillJob>, total: nat, covered: nat, missing: nat, failed: nat,
                               quarantined: nat)

  function AllDatesPlan(c: Cat, s: Series, dates: seq<Date>): BackfillPlan {
    PlanDates(c, s, dates, if |dates| == 0 then 1 else |dates|, false).value
  }

  /** `CoverageReporter.report` over dates already planned */
  function CoverageOf(c: Cat, s: Series, dates: seq<Date>): Coverage {
    var items := AllDatesPlan(c, s, dates).jobs;
    Coverage(items, |items|, CountStanding(items, ActiveExists), CountStanding(items, Absent),
             CountStanding(items, FailedExists), CountStanding(items, QuarantinedExists))
  }

  // ---- what is missing ----

  datatype MissingPlan = MissingPlan(coverage: Coverage, candidates: seq<Date>, plan: BackfillPlan, blocked: nat,
                                     truncated: bool)

  predicate IsCandidate(standing: Standing, retryFailed: bool) {
    standing.Absent? || (retryFailed && standing.FailedExists?)
  }

  function Candidates(items: seq<BackfillJob>, retryFailed: bool): seq<Date> {
    if items == [] then []
    else
      (if IsCandidate(items[0].standing, retryFailed) then [items[0].date] else [])
          + Candidates(items[1..], retryFailed)
  }

  /** `MissingBackfillPlanner.plan` */
  function PlanMissing(c: Cat, s: Series, dates: seq<Date>, maxJobs: int, retryFailed: bool,
                       execute: bool): Result<MissingPlan, PlanError> {
    if maxJobs <= 0 then Err(MaxJobsNotPositive)
    else if execute && maxJobs > EXECUTE_MAX_JOBS then Err(TooManyToExecute)
    else
      var coverage := CoverageOf(c, s, dates);
      var candidates := Candidates(coverage.items, retryFailed);
      var plan := PlanDates(c, s, First(candidates, maxJobs), maxJobs, false);
      Ok(MissingPlan(coverage, candidates, plan.value,
                     coverage.quarantined + CountStanding(coverage.items, StagedExists), |candidates| > maxJobs))
  }

  // ---- executing a plan ----

  datatype Verdict = Skipped | Blocked | Succeeded | FailedJob

  datatype JobResult = JobResult(date: Date, key: JobKey, plan: Plan, verdict: Verdict, recordCount: Option<nat>,
                                 rawEventCount: Option<nat>, snapshot: Option<SnapshotId>, error: Option<ErrorType>)

  /** The world after a job, and its result unless the process died in it. */
  datatype JobRun = JobRun(w: World, result: Option<JobResult>)

  function RecordCountOf(c: Cat, key: JobKey): Option<nat> {
    if key in c.jobs then c.jobs[key].recordCount else None
  }

  function RawEventCountOf(c: Cat, key: JobKey): Option<nat> {
    if key in c.jobs then c.jobs[key].rawEventCount else None
  }

  function LastErrorOf(c: Cat, key: JobKey): Option<ErrorType> {
    if key in c.jobs then c.jobs[key].lastError else None
  }

  /** What a fetch that did not die is reported as. */
  function Report(c: Cat, job: BackfillJob, end: End): Option<JobResult> {
    var base := JobResult(job.date, job.key, job.plan, FailedJob, RecordCountOf(c, job.key),
                          RawEventCountOf(c, job.key), None, LastErrorOf(c, job.key));
    match end
    case Died => None
    case Finished(r) => Some(base.(verdict := if r.snapshot.Some? then Succeeded else FailedJob,
                                   snapshot := r.snapshot))
    case Threw(error) => Some(base.(error := if base.error.Some? then base.error else Some(error)))
  }

  function RequestFor(s: Series, job: BackfillJob, runId: RunId): Request {
    Request(MakeKey(s.endpoint, job.params, None), Some(runId), false, "fetch")
  }

  function RunJob(text: Schema.Text, w: World, s: Series, job: BackfillJob, runId: RunId, slot: Slot,
                  sc: Script): JobRun {
    match job.plan
    case SkipExisting =>
      JobRun(w, Some(JobResult(job.date, job.key, job.plan, Skipped, RecordCountOf(w.cat, job.key),
                               RawEventCountOf(w.cat, job.key), LatestSnapshot(w.cat, s.endpoint.apiName), None)))
    case BlockedQuarantined =>
      JobRun(w, Some(JobResult(job.date, job.key, job.plan, Blocked, None, None, None, Some(SchemaIncompatible))))
    case _ =>
      var e := Fetch(text, w, RequestFor(s, job, runId), slot, sc);
      JobRun(e.w, Report(e.w.cat, job, e.end))
  }

  /** What a job is reported as. One that is skipped or blocked changes nothing; any other is fetched,
      and has a result unless the process died: a success if the fetch names a snapshot, with the
      counts that its job row has then, and otherwise a failure with the error of the row, or the one
      that was raised if the row has none. */
  lemma {:induction false} ReportIs(text: Schema.Text, w: World, s: Series, job: BackfillJob, runId: RunId, slot: Slot,
                                    sc: Script)
    ensures var run := RunJob(text, w, s, job, runId, slot, sc);
            var e := Fetch(text, w, RequestFor(s, job, runId), slot, sc);
            match job.plan
            case SkipExisting =>
              && run.w == w && run.result.Some? && run.result.value.verdict.Skipped?
              && CountsOf(w.cat, job, run.result.value) && run.result.value.error.None?
              && run.result.value.snapshot == LatestSnapshot(w.cat, s.endpoint.apiName)
            case BlockedQuarantined =>
              && run.w == w && run.result.Some? && run.result.value.verdict.Blocked?
              && run.result.value.recordCount.None? && run.result.value.rawEventCount.None?
              && run.result.value.snapshot.None? && run.result.value.error == Some(SchemaIncompatible)
            case _ =>
              && run.w == e.w && (run.result.None? <==> e.end.Died?)
              && (run.result.Some? ==> ReportsFetch(e, job, run.result.value))
    ensures var result := RunJob(text, w, s, job, runId, slot, sc).result;
            result.Some? ==>
              result.value.date == job.date && result.value.key == job.key && result.value.plan == job.plan
  {}

  /** The result has the counts of the job row, if there is one. */
  ghost predicate CountsOf(c: Cat, job: BackfillJob, r: JobResult) {
    if job.key in c.jobs then
      r.recordCount == c.jobs[job.key].recordCount && r.rawEventCount == c.jobs[job.key].rawEventCount
    else r.recordCount.None? && r.rawEventCount.None?
  }

  ghost predicate ReportsFetch(e: Ending, job: BackfillJob, r: JobResult) {
    && CountsOf(e.w.cat, job, r)
    && (if e.end.Finished? && e.end.result.snapshot.Some? then
          r.verdict.Succeeded? && r.snapshot == e.end.result.snapshot
        else r.verdict.FailedJob? && r.snapshot.None?)
    && (if job.key in e.w.cat.jobs && e.w.cat.jobs[job.key].lastError.Some? then
          r.error == e.w.cat.jobs[job.key].lastError
        else r.error == if e.end.Threw? then Some(e.end.error) else None)
  }

  datatype Phase = Going | StoppedOnError | Dead

  datatype Progress = Progress(w: World, results: seq<JobResult>, phase: Phase)

  predicate IsError(verdict: Verdict) {
    verdict.Blocked? || verdict.FailedJob?
  }

  function Advance(p: Progress, run: JobRun, stopOnError: bool): Progress {
    if run.result.None? then Progress(run.w, p.results, Dead)
    else Progress(run.w, p.results + [run.result.value],
                  if stopOnError && IsError(run.result.value.verdict) then StoppedOnError else Going)
  }

  /** The state after the jobs, in order, each with its own server and faults. */
  function RunJobs(text: Schema.Text, w: World, s: Series, jobs: seq<BackfillJob>, runId: RunId,
                   slots: map<JobKey, Slot>, scripts: seq<Script>, stopOnError: bool): Progress
    requires |jobs| <= |scripts| && forall j | j in jobs :: j.key in slots
  {
    if jobs == [] then Progress(w, [], Going)
    else
      var n := |jobs| - 1;
      var p := RunJobs(text, w, s, jobs[..n], runId, slots, scripts, stopOnError);
      if !p.phase.Going? then p
      else Advance(p, RunJob(text, p.w, s, jobs[n], runId, slots[jobs[n].key], scripts[n]), stopOnError)
  }

  function CountVerdict(results: seq<JobResult>, verdict: Verdict): nat {
    if results == [] then 0
    else CountVerdict(results[..|results| - 1], verdict) + if results[|results| - 1].verdict == verdict then 1 else 0
  }

  function RunStatusOf(results: seq<JobResult>): RunStatus {
    if CountVerdict(results, FailedJob) > 0 || CountVerdict(results, Blocked) > 0 then RunFailed(None) else RunSucceeded
  }

  /** The positions of the results with the verdict. */
  function WithVerdict(results: seq<JobResult>, verdict: Verdict): set<nat> {
    set i: nat | i < |results| && results[i].verdict == verdict
  }

  lemma {:induction false} OneMoreWithVerdict(results: seq<JobResult>, last: JobResult, verdict: Verdict)
    ensures WithVerdict(results + [last], verdict)
            == WithVerdict(results, verdict) + if last.verdict == verdict then {|results|} else {}
    ensures |results| !in WithVerdict(results, verdict)
  {}

  /** The count is the number of results with the verdict. */
  lemma {:induction false} CountIsNumber(results: seq<JobResult>, verdict: Verdict)
    ensures CountVerdict(results, verdict) == |WithVerdict(results, verdict)|
  {
    if results != [] {
      var n := |results| - 1;
      CountIsNumber(results[..n], verdict);
      OneMoreWithVerdict(results[..n], results[n], verdict);
      assert results == results[..n] + [results[n]];
    }
  }

  lemma {:induction false} CountIsPositive(results: seq<JobResult>, verdict: Verdict)
    ensures CountVerdict(results, verdict) > 0 <==> exists r :: r in results && r.verdict == verdict
  {
    if results != [] {
      var n := |results| - 1;
      CountIsPositive(results[..n], verdict);
      assert results == results[..n] + [results[n]];
      assert forall r :: r in results <==> r in results[..n] || r == results[n];
    }
  }

  /** Some job was blocked or failed. */
  ghost predicate HasError(results: seq<JobResult>) {
    exists r :: r in results && (r.verdict.Blocked? || r.verdict.FailedJob?)
  }

  lemma {:induction false} StatusTellsErrors(results: seq<JobResult>)
    ensures RunStatusOf(results) == if HasError(results) then RunFailed(None) else RunSucceeded
  {
    CountIsPositive(results, Blocked);
    CountIsPositive(results, FailedJob);
  }

  /** The row of the run: running if the process died, and otherwise failed if a job was blocked or
      failed, and succeeded if none was. */
  ghost function RunRowOf(p: Progress): RunRow {
    RunRow("backfill", if p.phase.Dead? then RunRunning else if HasError(p.results) then RunFailed(None)
                       else RunSucceeded)
  }

  lemma {:induction false} JobLeavesRuns(text: Schema.Text, w: World, s: Series, job: BackfillJob, runId: RunId,
                                         slot: Slot, sc: Script)
    ensures RunJob(text, w, s, job, runId, slot, sc).w.cat.runs == w.cat.runs
  {
    FetchLeavesRuns(text, w, RequestFor(s, job, runId), slot, sc);
  }

  lemma {:induction false} JobsLeaveRuns(text: Schema.Text, w: World, s: Series, jobs: seq<BackfillJob>, runId: RunId,
                                         slots: map<JobKey, Slot>, scripts: seq<Script>, stopOnError: bool)
    requires |jobs| <= |scripts| && forall j | j in jobs :: j.key in slots
    ensures RunJobs(text, w, s, jobs, runId, slots, scripts, stopOnError).w.cat.runs == w.cat.runs
    decreases |jobs|
  {
    if jobs != [] {
      var n := |jobs| - 1;
      JobsLeaveRuns(text, w, s, jobs[..n], runId, slots, scripts, stopOnError);
      var p := RunJobs(text, w, s, jobs[..n], runId, slots, scripts, stopOnError);
      JobLeavesRuns(text, p.w, s, jobs[n], runId, slots[jobs[n].key], scripts[n]);
    }
  }

  /** The execution adds one run to the table, and its status tells how the jobs went. */
  lemma {:induction false} ExecutionAddsRun(text: Schema.Text, w: World, s: Series, jobs: seq<BackfillJob>,
                                            slots: map<JobKey, Slot>, scripts: seq<Script>, stopOnError: bool)
    requires |jobs| <= |scripts| && forall j | j in jobs :: j.key in slots
    ensures var p := Executed(text, w, s, jobs, slots, scripts, stopOnError);
            p.w.cat.runs == w.cat.runs + [RunRowOf(p)]
  {
    var runId := |w.cat.runs|;
    var begun := Apply(BeginRun("backfill"), w);
    var p := RunJobs(text, begun, s, jobs, runId, slots, scripts, stopOnError);
    JobsLeaveRuns(text, begun, s, jobs, runId, slots, scripts, stopOnError);
    StatusTellsErrors(p.results);
  }

  /** `BackfillExecutor.execute`: one run for all jobs, ended unless the process dies. */
  function Executed(text: Schema.Text, w: World, s: Series, jobs: seq<BackfillJob>, slots: map<JobKey, Slot>,
                   scripts: seq<Script>, stopOnError: bool): Progress
    requires |jobs| <= |scripts| && forall j | j in jobs :: j.key in slots
  {
    var runId := |w.cat.runs|;
    EndRunOf(RunJobs(text, Apply(BeginRun("backfill"), w), s, jobs, runId, slots, scripts, stopOnError), runId)
  }

  function EndRunOf(p: Progress, runId: RunId): Progress {
    if p.phase.Dead? then p else p.(w := Apply(EndRun(runId, RunStatusOf(p.results)), p.w))
  }

  // ---- the executor object ----

  class BackfillExecutor {
    const catalog: CatalogStore
    const store: FileLakeStore

    constructor (store: FileLakeStore)
      ensures this.store == store && catalog == store.catalog
    {
      this.store := store;
      this.catalog := store.catalog;
    }

    /** A job planned to be skipped or blocked changes nothing and is reported as that. Every other
        job is fetched, and is reported unless the process dies: as succeeded if and only if the
        fetch names a snapshot, and as failed without one. */
    method RunOne(text: Schema.Text, s: Series, job: BackfillJob, runId: RunId, slot: Slot, sc: Script)
      returns (result: Option<JobResult>)
      requires catalog == store.catalog
      modifies store, catalog
      ensures job.plan in {SkipExisting, BlockedQuarantined} ==> store.State() == old(store.State()) && result.Some?
      ensures result.Some? ==>
                result.value.date == job.date && result.value.key == job.key && result.value.plan == job.plan
      ensures result.Some? ==> (result.value.verdict.Skipped? <==> job.plan == SkipExisting)
                               && (result.value.verdict.Blocked? <==> job.plan == BlockedQuarantined)
      ensures result.Some? && !result.value.verdict.Skipped? ==>
                (result.value.verdict.Succeeded? <==> result.value.snapshot.Some?)
      ensures JobRun(store.State(), result) == RunJob(text, old(store.State()), s, job, runId, slot, sc)
    {
      if job.plan.SkipExisting? {
        var c := catalog.State();
        return Some(JobResult(job.date, job.key, job.plan, Skipped, RecordCountOf(c, job.key),
                              RawEventCountOf(c, job.key), LatestSnapshot(c, s.endpoint.apiName), None));
      }
      if job.plan.BlockedQuarantined? {
        return Some(JobResult(job.date, job.key, job.plan, Blocked, None, None, None, Some(SchemaIncompatible)));
      }
      var end := store.Fetch(text, RequestFor(s, job, runId), slot, sc);
      result := Report(catalog.State(), job, end);
    }

    method RunEach(text: Schema.Text, s: Series, jobs: seq<BackfillJob>, runId: RunId, slots: map<JobKey, Slot>,
                   scripts: seq<Script>, stopOnError: bool)
      returns (results: seq<JobResult>, phase: Phase)
      requires catalog == store.catalog
      requires |jobs| <= |scripts| && forall j | j in jobs :: j.key in slots
      modifies store, catalog
      ensures Progress(store.State(), results, phase)
              == RunJobs(text, old(store.State()), s, jobs, runId, slots, scripts, stopOnError)
    {
      results, phase := [], Going;
      ghost var w := store.State();
      var i := 0;
      while i < |jobs| && phase.Going?
        invariant 0 <= i <= |jobs|
        invariant Progress(store.State(), results, phase)
                  == RunJobs(text, w, s, jobs[..i], runId, slots, scripts, stopOnError)
        decreases |jobs| - i
      {
        NextJob(text, w, s, jobs, i, runId, slots, scripts, stopOnError);
        var result := RunOne(text, s, jobs[i], runId, slots[jobs[i].key], scripts[i]);
        if result.None? {
          phase := Dead;
        } else {
          results := results + [result.value];
          if stopOnError && IsError(result.value.verdict) {
            phase := StoppedOnError;
          }
        }
        i := i + 1;
      }
      RestIsNotRun(text, w, s, jobs, i, runId, slots, scripts, stopOnError);
    }

    method Count(results: seq<JobResult>, verdict: Verdict) returns (n: nat)
      ensures n == CountVerdict(results, verdict)
      ensures n == |WithVerdict(results, verdict)|
    {
      CountIsNumber(results, verdict);
      n := 0;
      for i := 0 to |results|
        invariant n == CountVerdict(results[..i], verdict)
      {
        assert results[..i + 1][..i] == results[..i];
        if results[i].verdict == verdict {
          n := n + 1;
        }
      }
      assert results[..|results|] == results;
    }

    /** One run is added to the table. It is left running if the process dies; otherwise it has failed
        if some job was blocked or failed, and succeeded if none was. Earlier runs keep their rows. */
    method Execute(text: Schema.Text, s: Series, jobs: seq<BackfillJob>, slots: map<JobKey, Slot>, scripts: seq<Script>,
                   stopOnError: bool)
      returns (results: seq<JobResult>, phase: Phase)
      requires catalog == store.catalog
      requires |jobs| <= |scripts| && forall j | j in jobs :: j.key in slots
      modifies store, catalog
      ensures Progress(store.State(), results, phase)
              == Executed(text, old(store.State()), s, jobs, slots, scripts, stopOnError)
      ensures catalog.runs == old(catalog.runs) + [RunRowOf(Progress(store.State(), results, phase))]
    {
      ExecutionAddsRun(text, store.State(), s, jobs, slots, scripts, stopOnError);
      var runId := catalog.Create("backfill");
      results, phase := RunEach(text, s, jobs, runId, slots, scripts, stopOnError);
      CloseRun(results, phase, runId);
    }

    /** The run row gets its final status, unless the process died: failed if and only if some job
        was blocked or failed. */
    method CloseRun(results: seq<JobResult>, phase: Phase, runId: RunId)
      requires catalog == store.catalog
      modifies catalog
      ensures phase.Dead? ==> catalog.runs == old(catalog.runs)
      ensures !phase.Dead? && runId < |old(catalog.runs)| ==>
                catalog.runs == old(catalog.runs)[runId := old(catalog.runs)[runId].(
                                                    status := if HasError(results) then RunFailed(None)
                                                    else RunSucceeded)]
      ensures Progress(store.State(), results, phase) == EndRunOf(Progress(old(store.State()), results, phase), runId)
    {
      StatusTellsErrors(results);
      if !phase.Dead? {
        var failed := Count(results, FailedJob);
        var blocked := Count(results, Blocked);
        catalog.Finish(runId, if failed > 0 || blocked > 0 then RunFailed(None) else RunSucceeded);
      }
    }
  }

  /** One job more. */
  lemma {:induction false} NextJob(text: Schema.Text, w: World, s: Series, jobs: seq<BackfillJob>, i: nat, runId: RunId,
                                   slots: map<JobKey, Slot>, scripts: seq<Script>, stopOnError: bool)
    requires |jobs| <= |scripts| && (forall j | j in jobs :: j.key in slots) && i < |jobs|
    ensures jobs[i].key in slots
    ensures RunJobs(text, w, s, jobs[..i + 1], runId, slots, scripts, stopOnError)
            == (var p := RunJobs(text, w, s, jobs[..i], runId, slots, scripts, stopOnError);
                if !p.phase.Going? then p
                else Advance(p, RunJob(text, p.w, s, jobs[i], runId, slots[jobs[i].key], scripts[i]), stopOnError))
  {
    var some := jobs[..i + 1];
    assert some[..i] == jobs[..i] && some[i] == jobs[i];
  }

  /** Once a run has stopped, the remaining jobs change nothing. */
  lemma {:induction false} RestIsNotRun(text: Schema.Text, w: World, s: Series, jobs: seq<BackfillJob>, i: nat,
                                        runId: RunId, slots: map<JobKey, Slot>, scripts: seq<Script>, stopOnError: bool)
    requires |jobs| <= |scripts| && (forall j | j in jobs :: j.key in slots) && i <= |jobs|
    requires i < |jobs| ==> !RunJobs(text, w, s, jobs[..i], runId, slots, scripts, stopOnError).phase.Going?
    ensures RunJobs(text, w, s, jobs, runId, slots, scripts, stopOnError)
            == RunJobs(text, w, s, jobs[..i], runId, slots, scripts, stopOnError)
    decreases |jobs|
  {
    if i == |jobs| {
      assert jobs[..i] == jobs;
    } else {
      var n := |jobs| - 1;
      assert jobs[..n][..i] == jobs[..i];
      RestIsNotRun(text, w, s, jobs[..n], i, runId, slots, scripts, stopOnError);
    }
  }
}
