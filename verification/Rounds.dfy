/** Rounds of backfilling what is missing: plan from the coverage, execute, look again. */
module Rounds {
  import opened Wrappers
  import opened Catalog
  import opened Store
  import opened Safety
  import opened Runs
  import opened Durability
  import opened Outcomes
  import opened Backfill
  import opened Convergence
  import Schema
  import Client
  import Window

  // ---- what is selected ----

  /** The dates whose standing makes them candidates, in order. */
  function CandidateDates(c: Cat, s: Series, dates: seq<Date>, retryFailed: bool): seq<Date> {
    if dates == [] then []
    else
      (if IsCandidate(StandingOf(c, JobFor(s, dates[0])), retryFailed) then [dates[0]] else [])
      + CandidateDates(c, s, dates[1..], retryFailed)
  }

  function MissingDates(c: Cat, s: Series, dates: seq<Date>): seq<Date> {
    CandidateDates(c, s, dates, false)
  }

  lemma {:induction false} CandidatesAreExact(c: Cat, s: Series, dates: seq<Date>, retryFailed: bool, d: Date)
    ensures d in CandidateDates(c, s, dates, retryFailed)
            <==> var standing := StandingOf(c, JobFor(s, d));
                 d in dates && (standing.Absent? || (retryFailed && standing.FailedExists?))
  {
    if dates != [] {
      CandidatesAreExact(c, s, dates[1..], retryFailed, d);
      assert dates == [dates[0]] + dates[1..];
    }
  }

  lemma {:induction false} CandidatesIncrease(c: Cat, s: Series, dates: seq<Date>, retryFailed: bool)
    requires Increasing(dates)
    ensures Increasing(CandidateDates(c, s, dates, retryFailed))
  {
    if dates != [] {
      CandidatesIncrease(c, s, dates[1..], retryFailed);
      var rest := CandidateDates(c, s, dates[1..], retryFailed);
      forall i | 0 <= i < |rest|
        ensures Earlier(dates[0], rest[i])
      {
        assert rest[i] in rest;
        CandidatesAreExact(c, s, dates[1..], retryFailed, rest[i]);
      }
    }
  }

  function JobsOn(c: Cat, s: Series, ds: seq<Date>): seq<BackfillJob> {
    seq(|ds|, i requires 0 <= i < |ds| => PlanJob(c, s, false, ds[i]))
  }

  lemma {:induction false} CandidatesOfItems(c: Cat, s: Series, dates: seq<Date>, retryFailed: bool)
    ensures Candidates(JobsOn(c, s, dates), retryFailed) == CandidateDates(c, s, dates, retryFailed)
  {
    if dates != [] {
      CandidatesOfItems(c, s, dates[1..], retryFailed);
      assert JobsOn(c, s, dates)[1..] == JobsOn(c, s, dates[1..]);
    }
  }

  lemma {:induction false} CoverageItems(c: Cat, s: Series, dates: seq<Date>)
    requires Increasing(dates)
    ensures CoverageOf(c, s, dates).items == JobsOn(c, s, dates)
  {
    SortUniqueOfSorted(dates);
  }

  lemma {:induction false} ItemsTail(c: Cat, s: Series, dates: seq<Date>)
    requires dates != []
    ensures JobsOn(c, s, dates) != [] && JobsOn(c, s, dates)[1..] == JobsOn(c, s, dates[1..])
    ensures JobsOn(c, s, dates)[0].standing == StandingOf(c, JobFor(s, dates[0]))
  {}

  lemma {:induction false} MissingCount(c: Cat, s: Series, dates: seq<Date>)
    ensures CountStanding(JobsOn(c, s, dates), Absent) == |MissingDates(c, s, dates)|
  {
    if dates != [] {
      MissingCount(c, s, dates[1..]);
      ItemsTail(c, s, dates);
    }
  }

  ghost predicate AllCovered(c: Cat, s: Series, dates: seq<Date>) {
    forall i | 0 <= i < |dates| :: StandingOf(c, JobFor(s, dates[i])).ActiveExists?
  }

  lemma {:induction false} AllCoveredTail(c: Cat, s: Series, dates: seq<Date>)
    requires dates != []
    ensures AllCovered(c, s, dates)
            <==> StandingOf(c, JobFor(s, dates[0])).ActiveExists? && AllCovered(c, s, dates[1..])
  {
    if AllCovered(c, s, dates[1..]) {
      assert forall i | 1 <= i < |dates| :: dates[i] == dates[1..][i - 1];
    }
  }

  lemma {:induction false} CoveredCount(c: Cat, s: Series, dates: seq<Date>)
    ensures CountStanding(JobsOn(c, s, dates), ActiveExists) <= |dates|
    ensures CountStanding(JobsOn(c, s, dates), ActiveExists) == |dates| <==> AllCovered(c, s, dates)
  {
    if dates != [] {
      CoveredCount(c, s, dates[1..]);
      ItemsTail(c, s, dates);
      AllCoveredTail(c, s, dates);
    }
  }

  /** The dates with this standing. */
  ghost function WithStanding(c: Cat, s: Series, dates: seq<Date>, standing: Standing): set<Date> {
    set d | d in dates && StandingOf(c, JobFor(s, d)) == standing
  }

  lemma {:induction false} FirstIsEarliest(dates: seq<Date>)
    requires Increasing(dates) && dates != []
    ensures dates[0] !in dates[1..] && Increasing(dates[1..])
  {
    forall i | 1 <= i < |dates|
      ensures dates[i] != dates[0]
    {
      assert Earlier(dates[0], dates[i]);
    }
  }

  lemma {:induction false} WithStandingFirst(c: Cat, s: Series, dates: seq<Date>, standing: Standing)
    requires dates != [] && dates[0] !in dates[1..]
    ensures var rest := WithStanding(c, s, dates[1..], standing);
            |WithStanding(c, s, dates, standing)|
            == |rest| + if StandingOf(c, JobFor(s, dates[0])) == standing then 1 else 0
  {
    var d, rest := dates[0], dates[1..];
    var all, others := WithStanding(c, s, dates, standing), WithStanding(c, s, rest, standing);
    assert dates == [d] + rest;
    forall x
      ensures x in all <==> x in others || (x == d && StandingOf(c, JobFor(s, d)) == standing)
    {
      assert x in dates <==> x == d || x in rest;
    }
    assert all == if StandingOf(c, JobFor(s, d)) == standing then others + {d} else others;
  }

  lemma {:induction false} CountIsCardinality(c: Cat, s: Series, dates: seq<Date>, standing: Standing)
    requires Increasing(dates)
    ensures CountStanding(JobsOn(c, s, dates), standing) == |WithStanding(c, s, dates, standing)|
  {
    if dates != [] {
      FirstIsEarliest(dates);
      CountIsCardinality(c, s, dates[1..], standing);
      ItemsTail(c, s, dates);
      WithStandingFirst(c, s, dates, standing);
    }
  }

  /** A coverage report counts every date once, and of each standing it lists as many as there are
      dates with it; full coverage is reported exactly when every date has active data, and as
      missing exactly the dates that a plan would select. */
  lemma {:induction false} CoverageCounts(c: Cat, s: Series, dates: seq<Date>)
    requires Increasing(dates)
    ensures var report := CoverageOf(c, s, dates);
            && report.total == |dates|
            && report.covered == |WithStanding(c, s, dates, ActiveExists)|
            && report.missing == |WithStanding(c, s, dates, Absent)| == |MissingDates(c, s, dates)|
            && report.failed == |WithStanding(c, s, dates, FailedExists)|
            && report.quarantined == |WithStanding(c, s, dates, QuarantinedExists)|
            && (report.covered == report.total <==> AllCovered(c, s, dates))
  {
    CoverageItems(c, s, dates);
    MissingCount(c, s, dates);
    CoveredCount(c, s, dates);
    CountIsCardinality(c, s, dates, ActiveExists);
    CountIsCardinality(c, s, dates, Absent);
    CountIsCardinality(c, s, dates, FailedExists);
    CountIsCardinality(c, s, dates, QuarantinedExists);
  }

  lemma {:induction false} PlanOfSorted(c: Cat, s: Series, ds: seq<Date>, maxJobs: int)
    requires 0 < maxJobs && Increasing(ds) && |ds| <= maxJobs
    ensures PlanDates(c, s, ds, maxJobs, false).Ok?
            && PlanDates(c, s, ds, maxJobs, false).value.jobs == JobsOn(c, s, ds)
  {
    SortUniqueOfSorted(ds);
  }

  predicate Fetched(job: BackfillJob) {
    job.plan.FetchNow? || job.plan.RetryFailed?
  }

  lemma {:induction false} CandidateIsFetched(c: Cat, s: Series, d: Date, retryFailed: bool)
    requires IsCandidate(StandingOf(c, JobFor(s, d)), retryFailed)
    ensures var j := PlanJob(c, s, false, d); j.date == d && IsCandidate(j.standing, retryFailed) && Fetched(j)
  {}

  lemma {:induction false} ChosenAreFetched(c: Cat, s: Series, dates: seq<Date>, retryFailed: bool, n: nat,
                                            j: BackfillJob)
    requires j in JobsOn(c, s, First(CandidateDates(c, s, dates, retryFailed), n))
    ensures j.date in dates && j == PlanJob(c, s, false, j.date) && IsCandidate(j.standing, retryFailed) && Fetched(j)
  {
    var chosen := First(CandidateDates(c, s, dates, retryFailed), n);
    var i :| 0 <= i < |chosen| && j == PlanJob(c, s, false, chosen[i]);
    assert chosen[i] in CandidateDates(c, s, dates, retryFailed);
    CandidatesAreExact(c, s, dates, retryFailed, chosen[i]);
    CandidateIsFetched(c, s, chosen[i], retryFailed);
  }

  /** What a plan for the missing dates selects: the first candidates, as many as allowed; never a
      date with active, quarantined or staged data. */
  lemma {:induction false} PlanSelectsCandidates(c: Cat, s: Series, dates: seq<Date>, maxJobs: int, retryFailed: bool,
                                                 execute: bool)
    requires Increasing(dates)
    ensures var r := PlanMissing(c, s, dates, maxJobs, retryFailed, execute);
            var candidates := CandidateDates(c, s, dates, retryFailed);
            && (r.Ok? <==> 0 < maxJobs && (execute ==> maxJobs <= 20))
            && (r.Ok? ==>
                  && r.value.candidates == candidates && (r.value.truncated <==> |candidates| > maxJobs)
                  && r.value.plan.jobs == JobsOn(c, s, if |candidates| > maxJobs then candidates[..maxJobs]
                                                 else candidates)
                  && forall j | j in r.value.plan.jobs :: IsCandidate(j.standing, retryFailed) && Fetched(j))
  {
    if 0 < maxJobs {
      var candidates := CandidateDates(c, s, dates, retryFailed);
      CoverageItems(c, s, dates);
      CandidatesOfItems(c, s, dates, retryFailed);
      CandidatesIncrease(c, s, dates, retryFailed);
      PlanOfSorted(c, s, First(candidates, maxJobs), maxJobs);
      forall j | j in JobsOn(c, s, First(candidates, maxJobs))
        ensures IsCandidate(j.standing, retryFailed) && Fetched(j)
      {
        ChosenAreFetched(c, s, dates, retryFailed, maxJobs, j);
      }
    }
  }

  /** Why a plan is refused, and what it reports: the coverage, and as blocked the dates with quarantined
      or staged data. */
  lemma {:induction false} PlanReportsBlocked(c: Cat, s: Series, dates: seq<Date>, maxJobs: int, retryFailed: bool,
                                              execute: bool)
    requires Increasing(dates)
    ensures var r := PlanMissing(c, s, dates, maxJobs, retryFailed, execute);
            && (r.Err? ==> r.error == if maxJobs <= 0 then MaxJobsNotPositive else TooManyToExecute)
            && (r.Ok? ==>
                  && r.value.coverage == CoverageOf(c, s, dates)
                  && r.value.blocked == |WithStanding(c, s, dates, QuarantinedExists)|
                                        + |WithStanding(c, s, dates, StagedExists)|)
  {
    CoverageItems(c, s, dates);
    CountIsCardinality(c, s, dates, QuarantinedExists);
    CountIsCardinality(c, s, dates, StagedExists);
  }

  // ---- jobs that were begun have rows ----

  /** The first catalog call of the fetch works. */
  predicate BeginsJob(sc: Script) {
    sc.begin.Fault? ==> sc.begin.at > 0
  }

  ghost predicate Begins(scripts: seq<Script>) {
    forall sc | sc in scripts :: BeginsJob(sc)
  }

  ghost predicate AllFetched(jobs: seq<BackfillJob>) {
    forall j | j in jobs :: Fetched(j)
  }

  lemma {:induction false} RunJobRow(text: Schema.Text, w: World, s: Series, job: BackfillJob, runId: RunId,
                                     slot: Slot, sc: Script, k: JobKey)
    requires Fetched(job)
    requires k in w.cat.jobs || (k == MakeKey(s.endpoint, job.params, None) && BeginsJob(sc))
    ensures k in RunJob(text, w, s, job, runId, slot, sc).w.cat.jobs
  {
    RunJobWorld(text, w, s, job, runId, slot, sc);
    FetchKeepsRows(text, w, RequestFor(s, job, runId), slot, sc, k);
  }

  ghost predicate HaveRows(w: World, jobs: seq<BackfillJob>, n: int) {
    forall i | 0 <= i < n && i < |jobs| :: jobs[i].key in w.cat.jobs
  }

  lemma {:induction false} RunJobRows(text: Schema.Text, w: World, s: Series, jobs: seq<BackfillJob>, runId: RunId,
                                      slot: Slot, sc: Script)
    requires jobs != [] && AllFetched(jobs) && HaveRows(w, jobs, |jobs| - 1) && BeginsJob(sc)
    requires MakeKey(s.endpoint, jobs[|jobs| - 1].params, None) == jobs[|jobs| - 1].key
    ensures HaveRows(RunJob(text, w, s, jobs[|jobs| - 1], runId, slot, sc).w, jobs, |jobs|)
  {
    var n := |jobs| - 1;
    forall i | 0 <= i < |jobs|
      ensures jobs[i].key in RunJob(text, w, s, jobs[n], runId, slot, sc).w.cat.jobs
    {
      RunJobRow(text, w, s, jobs[n], runId, slot, sc, jobs[i].key);
    }
  }

  lemma {:induction false} AdvanceRows(p: Progress, run: JobRun, jobs: seq<BackfillJob>, stopOnError: bool)
    requires HaveRows(run.w, jobs, |jobs|)
    ensures HaveRows(Advance(p, run, stopOnError).w, jobs, Attempted(Advance(p, run, stopOnError)))
  {}

  lemma {:induction false} PrefixRows(w: World, jobs: seq<BackfillJob>, m: nat, n: nat)
    requires m <= |jobs| && n <= m && HaveRows(w, jobs[..m], n)
    ensures HaveRows(w, jobs, n)
  {
    forall i | 0 <= i < n
      ensures jobs[i].key in w.cat.jobs
    {
      assert jobs[..m][i] == jobs[i];
    }
  }

  /** One job more, all earlier ones having rows. */
  lemma {:induction false} OneMoreHasRow(text: Schema.Text, p: Progress, s: Series, jobs: seq<BackfillJob>,
                                         runId: RunId, slot: Slot, sc: Script, stopOnError: bool)
    requires jobs != [] && AllFetched(jobs) && HaveRows(p.w, jobs, |jobs| - 1) && BeginsJob(sc)
    requires MakeKey(s.endpoint, jobs[|jobs| - 1].params, None) == jobs[|jobs| - 1].key
    ensures var q := Advance(p, RunJob(text, p.w, s, jobs[|jobs| - 1], runId, slot, sc), stopOnError);
            HaveRows(q.w, jobs, Attempted(q))
  {
    RunJobRows(text, p.w, s, jobs, runId, slot, sc);
    AdvanceRows(p, RunJob(text, p.w, s, jobs[|jobs| - 1], runId, slot, sc), jobs, stopOnError);
  }

  lemma {:induction false} FetchedPrefix(jobs: seq<BackfillJob>, n: nat)
    requires AllFetched(jobs) && n <= |jobs|
    ensures AllFetched(jobs[..n])
  {}

  /** How a run of jobs goes on with the last one, unless it has stopped. */
  lemma {:induction false} NextHasRow(text: Schema.Text, p: Progress, s: Series, jobs: seq<BackfillJob>, runId: RunId,
                                      slot: Slot, sc: Script, stopOnError: bool)
    requires jobs != [] && AllFetched(jobs) && BeginsJob(sc)
    requires MakeKey(s.endpoint, jobs[|jobs| - 1].params, None) == jobs[|jobs| - 1].key
    requires FollowsPlan(p, jobs[..|jobs| - 1], stopOnError) && HaveRows(p.w, jobs[..|jobs| - 1], Attempted(p))
    ensures var q := if !p.phase.Going? then p
                     else Advance(p, RunJob(text, p.w, s, jobs[|jobs| - 1], runId, slot, sc), stopOnError);
            HaveRows(q.w, jobs, Attempted(q))
  {
    PrefixRows(p.w, jobs, |jobs| - 1, Attempted(p));
    if p.phase.Going? {
      OneMoreHasRow(text, p, s, jobs, runId, slot, sc, stopOnError);
    }
  }

  lemma {:induction false} BegunHaveRows(text: Schema.Text, w: World, s: Series, jobs: seq<BackfillJob>, runId: RunId,
                                         slots: Slots, scripts: seq<Script>, stopOnError: bool)
    requires |jobs| <= |scripts| && Covered(jobs, s, slots) && Begins(scripts) && AllFetched(jobs)
    ensures var p := RunJobs(text, w, s, jobs, runId, slots, scripts, stopOnError);
            HaveRows(p.w, jobs, Attempted(p))
    decreases |jobs|
  {
    if jobs != [] {
      var n := |jobs| - 1;
      var p := RunJobs(text, w, s, jobs[..n], runId, slots, scripts, stopOnError);
      CoveredPrefix(jobs, s, slots, n);
      FetchedPrefix(jobs, n);
      BegunHaveRows(text, w, s, jobs[..n], runId, slots, scripts, stopOnError);
      ResultsFollowPlan(text, w, s, jobs[..n], runId, slots, scripts, stopOnError);
      assert scripts[n] in scripts && jobs[n] in jobs;
      NextHasRow(text, p, s, jobs, runId, slots[jobs[n].key], scripts[n], stopOnError);
    }
  }

  // ---- jobs that were not begun stay missing ----

  /** The jobs are all missing and all different. */
  ghost predicate NewJobs(c: Cat, jobs: seq<BackfillJob>) {
    && (forall i | 0 <= i < |jobs| :: StandingOf(c, jobs[i].key).Absent?)
    && (forall i, j | 0 <= i < j < |jobs| :: jobs[i].key != jobs[j].key)
  }

  /** What was missing still is, and nothing else has become so, apart from the first n jobs. */
  ghost predicate SameMissing(w: World, x: World, jobs: seq<BackfillJob>, n: int) {
    forall k {:trigger StandingOf(x.cat, k)} | !AmongFirst(k, jobs, n) ::
      StandingOf(x.cat, k).Absent? <==> StandingOf(w.cat, k).Absent?
  }

  lemma {:induction false} NextIsAbsent(w: World, x: World, jobs: seq<BackfillJob>)
    requires jobs != [] && NewJobs(w.cat, jobs) && SameMissing(w, x, jobs[..|jobs| - 1], |jobs| - 1)
    ensures !IsDone(x.cat, jobs[|jobs| - 1].key)
  {
    var n := |jobs| - 1;
    assert !AmongFirst(jobs[n].key, jobs[..n], n);
    assert StandingOf(x.cat, jobs[n].key).Absent?;
  }

  lemma {:induction false} OneMoreKeepsMissing(text: Schema.Text, w: World, x: World, s: Series, jobs: seq<BackfillJob>,
                                               runId: RunId, slots: Slots, sc: Script)
    requires jobs != [] && Covered(jobs, s, slots) && NewJobs(w.cat, jobs)
    requires SameMissing(w, x, jobs[..|jobs| - 1], |jobs| - 1)
    ensures var job := jobs[|jobs| - 1];
            SameMissing(w, RunJob(text, x, s, job, runId, slots[job.key], sc).w, jobs, |jobs|)
  {
    var n := |jobs| - 1;
    var job := jobs[n];
    var y := RunJob(text, x, s, job, runId, slots[job.key], sc).w;
    NextIsAbsent(w, x, jobs);
    RunJobWorld(text, x, s, job, runId, slots[job.key], sc);
    forall k | !AmongFirst(k, jobs, n + 1)
      ensures StandingOf(y.cat, k).Absent? <==> StandingOf(w.cat, k).Absent?
    {
      assert jobs[n].key != k;
      assert !AmongFirst(k, jobs[..n], n);
      FetchKeepsAbsence(text, x, RequestFor(s, job, runId), slots, sc, k);
    }
  }

  lemma {:induction false} MorePrefix(w: World, x: World, jobs: seq<BackfillJob>, m: nat, n: int)
    requires m <= |jobs| && SameMissing(w, x, jobs[..m], n)
    ensures SameMissing(w, x, jobs, n)
  {
    forall k | !AmongFirst(k, jobs, n)
      ensures StandingOf(x.cat, k).Absent? <==> StandingOf(w.cat, k).Absent?
    {
      assert !AmongFirst(k, jobs[..m], n);
    }
  }

  lemma {:induction false} JobsKeepMissing(text: Schema.Text, w: World, s: Series, jobs: seq<BackfillJob>, runId: RunId,
                                           slots: Slots, scripts: seq<Script>, stopOnError: bool)
    requires |jobs| <= |scripts| && Covered(jobs, s, slots) && NewJobs(w.cat, jobs)
    ensures var p := RunJobs(text, w, s, jobs, runId, slots, scripts, stopOnError);
            SameMissing(w, p.w, jobs, Attempted(p))
    decreases |jobs|
  {
    if jobs != [] {
      var n := |jobs| - 1;
      var p := RunJobs(text, w, s, jobs[..n], runId, slots, scripts, stopOnError);
      CoveredPrefix(jobs, s, slots, n);
      JobsKeepMissing(text, w, s, jobs[..n], runId, slots, scripts, stopOnError);
      ResultsFollowPlan(text, w, s, jobs[..n], runId, slots, scripts, stopOnError);
      if p.phase.Going? {
        OneMoreKeepsMissing(text, w, p.w, s, jobs, runId, slots, scripts[n]);
        AdvanceCounts(p, RunJob(text, p.w, s, jobs[n], runId, slots[jobs[n].key], scripts[n]), stopOnError);
      } else {
        MorePrefix(w, p.w, jobs, n, Attempted(p));
      }
    }
  }

  // ---- the missing dates after a round ----

  ghost predicate IsMissing(c: Cat, s: Series, d: Date) {
    StandingOf(c, JobFor(s, d)).Absent?
  }

  function Keep(dates: seq<Date>, among: set<Date>): seq<Date> {
    if dates == [] then [] else (if dates[0] in among then [dates[0]] else []) + Keep(dates[1..], among)
  }

  lemma {:induction false} KeptAreAmong(dates: seq<Date>, among: set<Date>, d: Date)
    ensures d in Keep(dates, among) <==> d in dates && d in among
  {
    if dates != [] {
      KeptAreAmong(dates[1..], among, d);
      assert dates == [dates[0]] + dates[1..];
    }
  }

  lemma {:induction false} KeepSame(dates: seq<Date>, before: set<Date>, after: set<Date>)
    requires forall x | x in dates :: x in after <==> x in before
    ensures Keep(dates, after) == Keep(dates, before)
  {
    if dates != [] {
      KeepSame(dates[1..], before, after);
    }
  }

  /** Of the dates, exactly those not among the gone ones are kept as before. */
  ghost predicate OnlyGone(dates: seq<Date>, gone: seq<Date>, before: set<Date>, after: set<Date>) {
    (forall x | x in gone :: x !in after) && forall x | x in dates && x !in gone :: x in after <==> x in before
  }

  lemma {:induction false} OnlyGoneRest(x: Date, rest: seq<Date>, gone: seq<Date>, before: set<Date>, after: set<Date>)
    requires OnlyGone([x] + rest, [x] + gone, before, after) && x !in rest
    ensures OnlyGone(rest, gone, before, after) && x !in after
  {
    assert ([x] + gone)[0] == x;
    forall y | y in gone
      ensures y !in after
    {
      assert y in [x] + gone;
    }
    forall y | y in rest && y !in gone
      ensures y in after <==> y in before
    {
      assert y in [x] + rest && y !in [x] + gone;
    }
  }

  lemma {:induction false} OnlyGoneTail(x: Date, rest: seq<Date>, gone: seq<Date>, before: set<Date>, after: set<Date>)
    requires OnlyGone([x] + rest, gone, before, after)
    ensures OnlyGone(rest, gone, before, after)
  {
    forall y | y in rest && y !in gone
      ensures y in after <==> y in before
    {
      assert y in [x] + rest;
    }
  }

  /** Without the first n, what is kept is the rest. */
  lemma {:induction false} KeepDrops(dates: seq<Date>, before: set<Date>, after: set<Date>, n: nat)
    requires Increasing(dates) && n <= |Keep(dates, before)|
    requires OnlyGone(dates, Keep(dates, before)[..n], before, after)
    ensures Keep(dates, after) == Keep(dates, before)[n..]
  {
    if n == 0 {
      KeepSame(dates, before, after);
    } else {
      var x, rest := dates[0], dates[1..];
      var kept := Keep(rest, before);
      assert dates == [x] + rest;
      FirstIsEarliest(dates);
      if x in before {
        assert ([x] + kept)[..n] == [x] + kept[..n - 1];
        OnlyGoneRest(x, rest, kept[..n - 1], before, after);
        KeepDrops(rest, before, after, n - 1);
      } else {
        assert Keep(dates, before) == kept;
        OnlyGoneTail(x, rest, kept[..n], before, after);
        KeepDrops(rest, before, after, n);
      }
    }
  }

  ghost function MissingSet(c: Cat, s: Series, dates: seq<Date>): set<Date> {
    set d | d in dates && IsMissing(c, s, d)
  }

  lemma {:induction false} MissingIsKept(c: Cat, s: Series, dates: seq<Date>, among: set<Date>)
    requires forall d | d in dates :: d in among <==> IsMissing(c, s, d)
    ensures MissingDates(c, s, dates) == Keep(dates, among)
  {
    if dates != [] {
      MissingIsKept(c, s, dates[1..], among);
    }
  }

  /** If of the missing dates exactly the first n have got a row, the others are what is left. */
  lemma {:induction false} MissingDrops(c: Cat, d: Cat, s: Series, dates: seq<Date>, n: nat)
    requires Increasing(dates) && n <= |MissingDates(c, s, dates)|
    requires forall x | x in MissingDates(c, s, dates)[..n] :: !IsMissing(d, s, x)
    requires forall x | x in dates && x !in MissingDates(c, s, dates)[..n] :: IsMissing(d, s, x) <==> IsMissing(c, s, x)
    ensures MissingDates(d, s, dates) == MissingDates(c, s, dates)[n..]
  {
    MissingIsKept(c, s, dates, MissingSet(c, s, dates));
    MissingIsKept(d, s, dates, MissingSet(d, s, dates));
    KeepDrops(dates, MissingSet(c, s, dates), MissingSet(d, s, dates), n);
  }

  /** One round with execution: the selected dates are fetched under one run. */
  ghost function Round(text: Schema.Text, w: World, s: Series, dates: seq<Date>, maxJobs: int, slots: Slots,
                       scripts: seq<Script>, stopOnError: bool): Progress
    requires Increasing(dates) && 0 < maxJobs <= EXECUTE_MAX_JOBS <= |scripts|
    requires forall d | d in dates :: JobFor(s, d) in slots
  {
    var jobs := PlanMissing(w.cat, s, dates, maxJobs, false, true).value.plan.jobs;
    SelectedAreCovered(w.cat, s, dates, maxJobs, slots);
    Executed(text, w, s, jobs, slots, scripts, stopOnError)
  }

  lemma {:induction false} SelectedAreCovered(c: Cat, s: Series, dates: seq<Date>, maxJobs: int, slots: Slots)
    requires Increasing(dates) && 0 < maxJobs <= EXECUTE_MAX_JOBS
    requires forall d | d in dates :: JobFor(s, d) in slots
    ensures var jobs := PlanMissing(c, s, dates, maxJobs, false, true).value.plan.jobs;
            && jobs == JobsOn(c, s, First(MissingDates(c, s, dates), maxJobs))
            && |jobs| <= maxJobs && Covered(jobs, s, slots) && AllFetched(jobs)
  {
    PlanSelectsCandidates(c, s, dates, maxJobs, false, true);
    forall j | j in JobsOn(c, s, First(MissingDates(c, s, dates), maxJobs))
      ensures j.key in slots && MakeKey(s.endpoint, j.params, None) == j.key
    {
      ChosenAreFetched(c, s, dates, false, maxJobs, j);
      RekeyIsSame(s, j.date);
    }
  }

  /** Which dates of a round are among the begun jobs. */
  lemma {:induction false} BegunDates(c: Cat, s: Series, missing: seq<Date>, maxJobs: nat, n: nat, d: Date)
    requires n <= |First(missing, maxJobs)|
    ensures AmongFirst(JobFor(s, d), JobsOn(c, s, First(missing, maxJobs)), n) <==> d in missing[..n]
  {
    var chosen := First(missing, maxJobs);
    var jobs := JobsOn(c, s, chosen);
    if AmongFirst(JobFor(s, d), jobs, n) {
      var i :| 0 <= i < n && i < |jobs| && jobs[i].key == JobFor(s, d);
      if chosen[i] != d {
        JobsDiffer(s, chosen[i], d);
      }
      assert missing[..n][i] == d;
    }
    if d in missing[..n] {
      var i :| 0 <= i < n && missing[..n][i] == d;
      assert jobs[i].key == JobFor(s, d);
    }
  }

  lemma {:induction false} ExecutedRows(text: Schema.Text, w: World, s: Series, jobs: seq<BackfillJob>, slots: Slots,
                                        scripts: seq<Script>, stopOnError: bool)
    requires |jobs| <= |scripts| && Covered(jobs, s, slots) && Begins(scripts) && AllFetched(jobs)
    ensures var p := Executed(text, w, s, jobs, slots, scripts, stopOnError);
            HaveRows(p.w, jobs, Attempted(p))
  {
    var begun, p := ExecutionAround(text, w, s, jobs, slots, scripts, stopOnError);
    BegunHaveRows(text, begun, s, jobs, |w.cat.runs|, slots, scripts, stopOnError);
  }

  lemma {:induction false} SameDataNewJobs(a: World, b: World, jobs: seq<BackfillJob>)
    requires SameData(a, b) && NewJobs(a.cat, jobs)
    ensures NewJobs(b.cat, jobs)
  {
    forall i | 0 <= i < |jobs|
      ensures StandingOf(b.cat, jobs[i].key).Absent?
    {
      SameDataSameStanding(a, b, jobs[i].key);
    }
  }

  lemma {:induction false} ExecutedKeepsMissing(text: Schema.Text, w: World, s: Series, jobs: seq<BackfillJob>,
                                                slots: Slots, scripts: seq<Script>, stopOnError: bool)
    requires |jobs| <= |scripts| && Covered(jobs, s, slots) && NewJobs(w.cat, jobs)
    ensures var p := Executed(text, w, s, jobs, slots, scripts, stopOnError);
            SameMissing(w, p.w, jobs, Attempted(p))
  {
    var q := Executed(text, w, s, jobs, slots, scripts, stopOnError);
    var begun, p := ExecutionAround(text, w, s, jobs, slots, scripts, stopOnError);
    SameDataNewJobs(w, begun, jobs);
    JobsKeepMissing(text, begun, s, jobs, |w.cat.runs|, slots, scripts, stopOnError);
    forall k | !AmongFirst(k, jobs, Attempted(q))
      ensures StandingOf(q.w.cat, k).Absent? <==> StandingOf(w.cat, k).Absent?
    {
      SameDataSameStanding(w, begun, k);
      SameDataSameStanding(p.w, q.w, k);
      assert StandingOf(p.w.cat, k).Absent? <==> StandingOf(begun.cat, k).Absent?;
    }
  }

  /** What a round that began n jobs leaves of the missing dates. */
  ghost predicate TookFirst(w: World, x: World, s: Series, dates: seq<Date>, n: nat) {
    var missing := MissingDates(w.cat, s, dates);
    && n <= |missing|
    && MissingDates(x.cat, s, dates) == missing[n..]
    && forall d | d in missing[..n] :: JobFor(s, d) in x.cat.jobs
  }

  lemma {:induction false} BegunAreTaken(w: World, p: Progress, s: Series, dates: seq<Date>, maxJobs: nat)
    requires Increasing(dates)
    requires var jobs := JobsOn(w.cat, s, First(MissingDates(w.cat, s, dates), maxJobs));
             Attempted(p) <= |jobs| && SameMissing(w, p.w, jobs, Attempted(p)) && HaveRows(p.w, jobs, Attempted(p))
    ensures TookFirst(w, p.w, s, dates, Attempted(p))
  {
    var missing, n := MissingDates(w.cat, s, dates), Attempted(p);
    var jobs := JobsOn(w.cat, s, First(missing, maxJobs));
    forall d | d in missing[..n]
      ensures JobFor(s, d) in p.w.cat.jobs
    {
      var i :| 0 <= i < n && missing[..n][i] == d;
      assert jobs[i].key == JobFor(s, d);
    }
    forall d | d !in missing[..n]
      ensures IsMissing(p.w.cat, s, d) <==> IsMissing(w.cat, s, d)
    {
      BegunDates(w.cat, s, missing, maxJobs, n, d);
      assert StandingOf(p.w.cat, JobFor(s, d)).Absent? <==> StandingOf(w.cat, JobFor(s, d)).Absent?;
    }
    MissingDrops(w.cat, p.w.cat, s, dates, n);
  }

  /** The selected dates are missing, and their jobs differ. */
  lemma {:induction false} SelectedAreNew(c: Cat, s: Series, dates: seq<Date>, maxJobs: nat)
    requires Increasing(dates)
    ensures NewJobs(c, JobsOn(c, s, First(MissingDates(c, s, dates), maxJobs)))
  {
    var missing := MissingDates(c, s, dates);
    var chosen := First(missing, maxJobs);
    CandidatesIncrease(c, s, dates, false);
    forall i | 0 <= i < |chosen|
      ensures StandingOf(c, JobFor(s, chosen[i])).Absent?
    {
      assert chosen[i] in missing;
      CandidatesAreExact(c, s, dates, false, chosen[i]);
    }
    forall i, j | 0 <= i < j < |chosen|
      ensures JobFor(s, chosen[i]) != JobFor(s, chosen[j])
    {
      assert Earlier(missing[i], missing[j]);
      JobsDiffer(s, chosen[i], chosen[j]);
    }
  }

  /** In any lake, with any faults after the first call of a fetch: a round takes the first n missing
      dates off the list, and no other date joins or leaves it; n is all it may take unless it was
      stopped, and never 0 while something is missing. */
  lemma {:induction false} RoundTakesTheFirst(text: Schema.Text, w: World, s: Series, dates: seq<Date>, maxJobs: int,
                                              slots: Slots, scripts: seq<Script>, stopOnError: bool)
    requires Increasing(dates) && 0 < maxJobs <= EXECUTE_MAX_JOBS <= |scripts|
    requires (forall d | d in dates :: JobFor(s, d) in slots) && Begins(scripts)
    ensures var p := Round(text, w, s, dates, maxJobs, slots, scripts, stopOnError);
            var missing, n := |MissingDates(w.cat, s, dates)|, Attempted(p);
            && TookFirst(w, p.w, s, dates, n)
            && n <= maxJobs && (p.phase.Going? ==> n == if missing < maxJobs then missing else maxJobs)
            && (missing > 0 ==> n > 0)
  {
    var jobs := JobsOn(w.cat, s, First(MissingDates(w.cat, s, dates), maxJobs));
    SelectedAreCovered(w.cat, s, dates, maxJobs, slots);
    SelectedAreNew(w.cat, s, dates, maxJobs);
    ExecutionFollowsPlan(text, w, s, jobs, slots, scripts, stopOnError);
    ExecutedRows(text, w, s, jobs, slots, scripts, stopOnError);
    ExecutedKeepsMissing(text, w, s, jobs, slots, scripts, stopOnError);
    BegunAreTaken(w, Round(text, w, s, dates, maxJobs, slots, scripts, stopOnError), s, dates, maxJobs);
  }

  /** If the catalog is in order, a round with any faults leaves it in order, and changes the standing
      of none but the first n missing dates. */
  lemma {:induction false} RoundKeepsOthers(text: Schema.Text, w: World, s: Series, dates: seq<Date>, maxJobs: int,
                                            slots: Slots, scripts: seq<Script>, stopOnError: bool, d: Date)
    requires Increasing(dates) && 0 < maxJobs <= EXECUTE_MAX_JOBS <= |scripts|
    requires (forall x | x in dates :: JobFor(s, x) in slots) && Orderly(w.cat)
    ensures var p := Round(text, w, s, dates, maxJobs, slots, scripts, stopOnError);
            && Orderly(p.w.cat) && DoneStay(w, p.w) && Attempted(p) <= |MissingDates(w.cat, s, dates)|
            && (d !in MissingDates(w.cat, s, dates)[..Attempted(p)] ==>
                  StandingOf(p.w.cat, JobFor(s, d)) == StandingOf(w.cat, JobFor(s, d)))
  {
    var missing := MissingDates(w.cat, s, dates);
    var jobs := JobsOn(w.cat, s, First(missing, maxJobs));
    var p := Round(text, w, s, dates, maxJobs, slots, scripts, stopOnError);
    SelectedAreCovered(w.cat, s, dates, maxJobs, slots);
    ExecutionFollowsPlan(text, w, s, jobs, slots, scripts, stopOnError);
    ExecutionKeepsOthers(text, w, s, jobs, slots, scripts, stopOnError);
    BegunDates(w.cat, s, missing, maxJobs, Attempted(p), d);
  }

  /** A round on a lake in order changes nothing that is committed, and leaves the lake in order if
      its faults are safe. */
  lemma {:induction false} RoundKeepsLake(text: Schema.Text, w: World, s: Series, dates: seq<Date>, maxJobs: int,
                                          slots: Slots, scripts: seq<Script>, stopOnError: bool)
    requires Increasing(dates) && 0 < maxJobs <= EXECUTE_MAX_JOBS <= |scripts|
    requires (forall x | x in dates :: JobFor(s, x) in slots) && SlotsDistinct(slots) && Inv(w, slots)
    ensures var p := Round(text, w, s, dates, maxJobs, slots, scripts, stopOnError);
            Durable(w, p.w) && (AllSafe(scripts) ==> Inv(p.w, slots))
  {
    var jobs := JobsOn(w.cat, s, First(MissingDates(w.cat, s, dates), maxJobs));
    SelectedAreCovered(w.cat, s, dates, maxJobs, slots);
    ExecutionKeeps(text, w, s, jobs, slots, scripts, stopOnError);
  }

  // ---- rounds without crashes ----

  ghost predicate NoDeath(fault: Fault) {
    fault.Fault? ==> !fault.crash
  }

  /** The process does not die. */
  ghost predicate Survives(sc: Script) {
    && NoDeath(sc.begin) && NoDeath(sc.write) && NoDeath(sc.stage) && NoDeath(sc.publish) && NoDeath(sc.handler)
  }

  lemma {:induction false} AcceptSurvives(w: World, plan: FetchPlan, runId: RunId, finishRun: bool,
                                          result: Client.QueryResult, prepared: Schema.Preparation, raw: Content,
                                          sc: Script)
    requires Survives(sc)
    ensures !Accept(w, plan, runId, finishRun, result, prepared, raw, sc).end.Died?
  {
    var size := AcceptBranches(w, plan, runId, finishRun, result, prepared, raw, sc);
  }

  lemma {:induction false} StoreSurvives(text: Schema.Text, w: World, plan: FetchPlan, runId: RunId, finishRun: bool,
                                         result: Client.QueryResult, sc: Script)
    requires Survives(sc)
    ensures !Store.Store(text, w, plan, runId, finishRun, result, sc).end.Died?
  {
    var raw := RawContent(runId, plan.key, result.events, sc.rawBytes);
    var write := [Write(runId, RawTmp(plan.key), raw)];
    if !Strikes(sc.write, write) {
      var written := ApplyAll(write, w);
      var prepared := PreparedFor(text, written.cat, plan.key.apiName, result);
      if prepared.decision.Compatible() {
        AcceptSurvives(written, plan, runId, finishRun, result, prepared, raw, sc);
      }
    }
  }

  lemma {:induction false} BodySurvives(text: Schema.Text, w: World, plan: FetchPlan, runId: RunId, finishRun: bool,
                                        sc: Script)
    requires Survives(sc)
    ensures !Body(text, w, plan, runId, finishRun, sc).end.Died?
  {
    var reply := QueryWithRetry(sc.replies, sc.maxAttempts, 1);
    if reply.Answer? {
      StoreSurvives(text, w, plan, runId, finishRun, reply.result, sc);
    }
  }

  lemma {:induction false} FetchSurvives(text: Schema.Text, w: World, req: Request, slot: Slot, sc: Script)
    requires Survives(sc)
    ensures !Fetch(text, w, req, slot, sc).end.Died?
  {
    var begin := BeginActions(w.cat, req);
    if !Strikes(sc.begin, begin) {
      BodySurvives(text, ApplyAll(begin, w), PlanFetch(req.key, sc.today, slot), RunOf(w.cat, req), req.finishRun, sc);
    }
  }

  lemma {:induction false} RunJobSurvives(text: Schema.Text, w: World, s: Series, job: BackfillJob, runId: RunId,
                                          slot: Slot, sc: Script)
    requires Survives(sc)
    ensures RunJob(text, w, s, job, runId, slot, sc).result.Some?
  {
    FetchSurvives(text, w, RequestFor(s, job, runId), slot, sc);
  }

  lemma {:induction false} RunJobsGoOn(text: Schema.Text, w: World, s: Series, jobs: seq<BackfillJob>, runId: RunId,
                                       slots: Slots, scripts: seq<Script>)
    requires |jobs| <= |scripts|
    requires (forall j | j in jobs :: j.key in slots) && forall sc | sc in scripts :: Survives(sc)
    ensures RunJobs(text, w, s, jobs, runId, slots, scripts, false).phase.Going?
    decreases |jobs|
  {
    if jobs != [] {
      var n := |jobs| - 1;
      RunJobsGoOn(text, w, s, jobs[..n], runId, slots, scripts);
      var p := RunJobs(text, w, s, jobs[..n], runId, slots, scripts, false);
      RunJobSurvives(text, p.w, s, jobs[n], runId, slots[jobs[n].key], scripts[n]);
    }
  }

  /** What rounds may meet: any server, any storage, any faults but at the first catalog call of a
      fetch. */
  ghost predicate Startable(batch: seq<Script>) {
    |batch| >= EXECUTE_MAX_JOBS && Begins(batch)
  }

  ghost predicate CrashFree(batch: seq<Script>) {
    forall sc | sc in batch :: Survives(sc)
  }

  lemma {:induction false} RoundGoesOn(text: Schema.Text, w: World, s: Series, dates: seq<Date>, maxJobs: int,
                                       slots: Slots, batch: seq<Script>)
    requires Increasing(dates) && 0 < maxJobs <= EXECUTE_MAX_JOBS && Startable(batch) && CrashFree(batch)
    requires forall d | d in dates :: JobFor(s, d) in slots
    ensures Round(text, w, s, dates, maxJobs, slots, batch, false).phase.Going?
  {
    SelectedAreCovered(w.cat, s, dates, maxJobs, slots);
    var jobs := JobsOn(w.cat, s, First(MissingDates(w.cat, s, dates), maxJobs));
    var runId, begun := |w.cat.runs|, Apply(BeginRun("backfill"), w);
    RunJobsGoOn(text, begun, s, jobs, runId, slots, batch);
    RunRowsAreApart(w, RunJobs(text, begun, s, jobs, runId, slots, batch, false), runId);
  }

  ghost function AfterRounds(text: Schema.Text, w: World, s: Series, dates: seq<Date>, maxJobs: int, slots: Slots,
                             batches: seq<seq<Script>>): World
    requires Increasing(dates) && 0 < maxJobs <= EXECUTE_MAX_JOBS
    requires (forall d | d in dates :: JobFor(s, d) in slots) && forall b | b in batches :: Startable(b)
    decreases |batches|
  {
    if batches == [] then w
    else
      assert batches[0] in batches && Startable(batches[0]);
      AfterRounds(text, Round(text, w, s, dates, maxJobs, slots, batches[0], false).w, s, dates, maxJobs, slots,
                  batches[1..])
  }

  function Without(ds: seq<Date>, n: int): seq<Date> {
    if 0 <= n < |ds| then ds[n..] else []
  }

  /** What is left when every round takes maxJobs. */
  function LeftAfter<T>(ds: seq<Date>, maxJobs: nat, rounds: seq<T>): seq<Date>
    decreases |rounds|
  {
    if rounds == [] then ds else LeftAfter(Without(ds, maxJobs), maxJobs, rounds[1..])
  }

  function Quota(maxJobs: nat, k: nat): nat {
    if k == 0 then 0 else maxJobs + Quota(maxJobs, k - 1)
  }

  lemma {:induction false} QuotaIsProduct(maxJobs: nat, k: nat)
    ensures Quota(maxJobs, k) == maxJobs * k
  {
    if k > 0 {
      QuotaIsProduct(maxJobs, k - 1);
      assert maxJobs * k == maxJobs + maxJobs * (k - 1);
    }
  }

  lemma {:induction false} WithoutTwice(ds: seq<Date>, n: nat, m: nat)
    ensures Without(Without(ds, n), m) == Without(ds, n + m)
  {}

  lemma {:induction false} LeftIsWithout<T>(ds: seq<Date>, maxJobs: nat, rounds: seq<T>)
    ensures LeftAfter(ds, maxJobs, rounds) == Without(ds, Quota(maxJobs, |rounds|))
    decreases |rounds|
  {
    if rounds != [] {
      LeftIsWithout(Without(ds, maxJobs), maxJobs, rounds[1..]);
      WithoutTwice(ds, maxJobs, Quota(maxJobs, |rounds| - 1));
    }
  }

  /** The first round, and the rounds after it. */
  lemma {:induction false} FirstRound(text: Schema.Text, w: World, s: Series, dates: seq<Date>, maxJobs: int,
                                      slots: Slots, batches: seq<seq<Script>>) returns (p: Progress)
    requires Increasing(dates) && 0 < maxJobs <= EXECUTE_MAX_JOBS
    requires (forall d | d in dates :: JobFor(s, d) in slots) && forall b | b in batches :: Startable(b)
    requires batches != []
    ensures Startable(batches[0]) && p == Round(text, w, s, dates, maxJobs, slots, batches[0], false)
    ensures TookFirst(w, p.w, s, dates, Attempted(p)) && (MissingDates(w.cat, s, dates) != [] ==> Attempted(p) > 0)
    ensures CrashFree(batches[0]) ==>
              MissingDates(p.w.cat, s, dates) == Without(MissingDates(w.cat, s, dates), maxJobs)
    ensures forall b | b in batches[1..] :: b in batches && Startable(b)
    ensures AfterRounds(text, w, s, dates, maxJobs, slots, batches)
            == AfterRounds(text, p.w, s, dates, maxJobs, slots, batches[1..])
  {
    assert batches[0] in batches && Startable(batches[0]);
    p := Round(text, w, s, dates, maxJobs, slots, batches[0], false);
    RoundTakesTheFirst(text, w, s, dates, maxJobs, slots, batches[0], false);
    if CrashFree(batches[0]) {
      RoundGoesOn(text, w, s, dates, maxJobs, slots, batches[0]);
    }
  }

  lemma {:induction false} MissingIsLeft(text: Schema.Text, w: World, s: Series, dates: seq<Date>, maxJobs: int,
                                         slots: Slots, batches: seq<seq<Script>>)
    requires Increasing(dates) && 0 < maxJobs <= EXECUTE_MAX_JOBS
    requires (forall d | d in dates :: JobFor(s, d) in slots) && forall b | b in batches :: Startable(b) && CrashFree(b)
    ensures MissingDates(AfterRounds(text, w, s, dates, maxJobs, slots, batches).cat, s, dates)
            == LeftAfter(MissingDates(w.cat, s, dates), maxJobs, batches)
    decreases |batches|
  {
    if batches != [] {
      assert batches[0] in batches;
      var p := FirstRound(text, w, s, dates, maxJobs, slots, batches);
      MissingIsLeft(text, p.w, s, dates, maxJobs, slots, batches[1..]);
    }
  }

  /** In any lake, with any faults short of crashes: every round takes maxJobs dates off the list, or
      all that are left. The loop ends after as many rounds as it takes to cover the missing dates
      in groups of maxJobs. */
  lemma {:induction false} MissingShrinksEveryRound(text: Schema.Text, w: World, s: Series, dates: seq<Date>,
                                                    maxJobs: int, slots: Slots, batches: seq<seq<Script>>)
    requires Increasing(dates) && 0 < maxJobs <= EXECUTE_MAX_JOBS
    requires (forall d | d in dates :: JobFor(s, d) in slots) && forall b | b in batches :: Startable(b) && CrashFree(b)
    ensures MissingDates(AfterRounds(text, w, s, dates, maxJobs, slots, batches).cat, s, dates)
            == Without(MissingDates(w.cat, s, dates), maxJobs * |batches|)
  {
    MissingIsLeft(text, w, s, dates, maxJobs, slots, batches);
    LeftIsWithout(MissingDates(w.cat, s, dates), maxJobs, batches);
    QuotaIsProduct(maxJobs, |batches|);
  }

  /** How many jobs the rounds begin. */
  ghost function Begun(text: Schema.Text, w: World, s: Series, dates: seq<Date>, maxJobs: int, slots: Slots,
                       batches: seq<seq<Script>>): nat
    requires Increasing(dates) && 0 < maxJobs <= EXECUTE_MAX_JOBS
    requires (forall d | d in dates :: JobFor(s, d) in slots) && forall b | b in batches :: Startable(b)
    decreases |batches|
  {
    if batches == [] then 0
    else
      assert batches[0] in batches && Startable(batches[0]);
      var p := Round(text, w, s, dates, maxJobs, slots, batches[0], false);
      Attempted(p) + Begun(text, p.w, s, dates, maxJobs, slots, batches[1..])
  }

  lemma {:induction false} BegunFirst(text: Schema.Text, w: World, s: Series, dates: seq<Date>, maxJobs: int,
                                      slots: Slots, batches: seq<seq<Script>>, p: Progress)
    requires Increasing(dates) && 0 < maxJobs <= EXECUTE_MAX_JOBS
    requires (forall d | d in dates :: JobFor(s, d) in slots) && forall b | b in batches :: Startable(b)
    requires batches != [] && Startable(batches[0])
    requires p == Round(text, w, s, dates, maxJobs, slots, batches[0], false)
    ensures Begun(text, w, s, dates, maxJobs, slots, batches)
            == Attempted(p) + Begun(text, p.w, s, dates, maxJobs, slots, batches[1..])
  {}

  /** Of the list, the first n are gone, at least one for every round unless all are. */
  ghost predicate Shrunk(missing: seq<Date>, left: seq<Date>, n: nat, rounds: nat) {
    n <= |missing| && (n < |missing| ==> n >= rounds) && left == missing[n..]
  }

  lemma {:induction false} ShrunkFurther(missing: seq<Date>, between: seq<Date>, left: seq<Date>, first: nat,
                                         others: nat, n: nat, rounds: nat)
    requires rounds > 0 && n == first + others
    requires first <= |missing| && between == missing[first..] && (missing != [] ==> first > 0)
    requires Shrunk(between, left, others, rounds - 1)
    ensures Shrunk(missing, left, n, rounds)
  {}

  lemma {:induction false} NothingShrunk(missing: seq<Date>)
    ensures Shrunk(missing, missing, 0, 0)
  {}

  /** With crashes as well, in any lake: the rounds take as many dates off the front of the list as
      they begin jobs, and at least one a round while there are any. */
  lemma {:induction false} MissingShrinksByBegun(text: Schema.Text, w: World, s: Series, dates: seq<Date>,
                                                 maxJobs: int, slots: Slots, batches: seq<seq<Script>>)
    requires Increasing(dates) && 0 < maxJobs <= EXECUTE_MAX_JOBS
    requires (forall d | d in dates :: JobFor(s, d) in slots) && forall b | b in batches :: Startable(b)
    ensures Shrunk(MissingDates(w.cat, s, dates),
                   MissingDates(AfterRounds(text, w, s, dates, maxJobs, slots, batches).cat, s, dates),
                   Begun(text, w, s, dates, maxJobs, slots, batches), |batches|)
    decreases |batches|
  {
    if batches == [] {
      NothingShrunk(MissingDates(w.cat, s, dates));
    } else {
      var p := FirstRound(text, w, s, dates, maxJobs, slots, batches);
      MissingShrinksByBegun(text, p.w, s, dates, maxJobs, slots, batches[1..]);
      BegunFirst(text, w, s, dates, maxJobs, slots, batches, p);
      ShrunkFurther(MissingDates(w.cat, s, dates), MissingDates(p.w.cat, s, dates),
                    MissingDates(AfterRounds(text, w, s, dates, maxJobs, slots, batches).cat, s, dates),
                    Attempted(p), Begun(text, p.w, s, dates, maxJobs, slots, batches[1..]),
                    Begun(text, w, s, dates, maxJobs, slots, batches), |batches|);
    }
  }

  // ---- rounds that succeed ----

  lemma {:induction false} SucceededIsDone(text: Schema.Text, w: World, s: Series, job: BackfillJob, runId: RunId,
                                           slots: Slots, sc: Script)
    requires Orderly(w.cat) && job.key in slots && MakeKey(s.endpoint, job.params, None) == job.key && Fetched(job)
    requires var run := RunJob(text, w, s, job, runId, slots[job.key], sc);
             run.result.Some? && run.result.value.verdict.Succeeded?
    ensures IsDone(RunJob(text, w, s, job, runId, slots[job.key], sc).w.cat, job.key)
  {
    ReturnedIsDone(text, w, RequestFor(s, job, runId), slots, sc);
  }

  lemma {:induction false} ReturnedSucceeds(text: Schema.Text, w: World, s: Series, job: BackfillJob, runId: RunId,
                                            slot: Slot, sc: Script)
    requires Fetched(job)
    requires var e := Fetch(text, w, RequestFor(s, job, runId), slot, sc);
             e.end.Finished? && e.end.result.snapshot.Some?
    ensures var run := RunJob(text, w, s, job, runId, slot, sc);
            run.result.Some? && run.result.value.verdict.Succeeded?
  {}

  /** A job that meets no fault and whose answer the schema decision accepts succeeds. */
  lemma {:induction false} CleanJobSucceeds(text: Schema.Text, w: World, s: Series, job: BackfillJob, runId: RunId,
                                            slot: Slot, sc: Script)
    requires MakeKey(s.endpoint, job.params, None) == job.key && Fetched(job)
    requires !IsDone(w.cat, job.key) && Clean(sc) && Accepted(text, w, job.key, sc)
    ensures var run := RunJob(text, w, s, job, runId, slot, sc);
            run.result.Some? && run.result.value.verdict.Succeeded?
  {
    CleanFetchCommits(text, w, RequestFor(s, job, runId), slot, sc);
    ReturnedSucceeds(text, w, s, job, runId, slot, sc);
  }

  ghost predicate SucceededAreDone(p: Progress, jobs: seq<BackfillJob>) {
    && |p.results| <= |jobs|
    && forall i | 0 <= i < |p.results| && p.results[i].verdict.Succeeded? :: IsDone(p.w.cat, jobs[i].key)
  }

  lemma {:induction false} DoneStays(v: World, w: World, key: JobKey)
    requires DoneStay(v, w) && IsDone(v.cat, key)
    ensures IsDone(w.cat, key)
  {
    assert Find(w.cat.jobs, key) == Find(v.cat.jobs, key);
  }

  lemma {:induction false} AdvanceDone(p: Progress, run: JobRun, jobs: seq<BackfillJob>, stopOnError: bool)
    requires jobs != [] && |p.results| == |jobs| - 1 && SucceededAreDone(p, jobs[..|jobs| - 1]) && DoneStay(p.w, run.w)
    requires run.result.Some? && run.result.value.verdict.Succeeded? ==> IsDone(run.w.cat, jobs[|jobs| - 1].key)
    ensures SucceededAreDone(Advance(p, run, stopOnError), jobs)
  {
    var q := Advance(p, run, stopOnError);
    forall i | 0 <= i < |q.results| && q.results[i].verdict.Succeeded?
      ensures IsDone(q.w.cat, jobs[i].key)
    {
      if i < |p.results| {
        assert jobs[..|jobs| - 1][i] == jobs[i];
        DoneStays(p.w, run.w, jobs[i].key);
      }
    }
  }

  lemma {:induction false} RunJobKeepsDone(text: Schema.Text, w: World, s: Series, job: BackfillJob, runId: RunId,
                                           slots: Slots, sc: Script)
    requires Orderly(w.cat) && job.key in slots && MakeKey(s.endpoint, job.params, None) == job.key
    ensures DoneStay(w, RunJob(text, w, s, job, runId, slots[job.key], sc).w)
  {
    RunJobWorld(text, w, s, job, runId, slots[job.key], sc);
    FetchKeepsDone(text, w, RequestFor(s, job, runId), slots, sc);
  }

  lemma {:induction false} RunJobsDone(text: Schema.Text, w: World, s: Series, jobs: seq<BackfillJob>, runId: RunId,
                                       slots: Slots, scripts: seq<Script>, stopOnError: bool)
    requires Orderly(w.cat) && Covered(jobs, s, slots) && |jobs| <= |scripts| && AllFetched(jobs)
    ensures SucceededAreDone(RunJobs(text, w, s, jobs, runId, slots, scripts, stopOnError), jobs)
    decreases |jobs|
  {
    if jobs != [] {
      var n := |jobs| - 1;
      CoveredPrefix(jobs, s, slots, n);
      FetchedPrefix(jobs, n);
      RunJobsDone(text, w, s, jobs[..n], runId, slots, scripts, stopOnError);
      JobsKeepOthers(text, w, s, jobs[..n], runId, slots, scripts, stopOnError);
      ResultsFollowPlan(text, w, s, jobs[..n], runId, slots, scripts, stopOnError);
      var p := RunJobs(text, w, s, jobs[..n], runId, slots, scripts, stopOnError);
      if p.phase.Going? {
        var run := RunJob(text, p.w, s, jobs[n], runId, slots[jobs[n].key], scripts[n]);
        RunJobKeepsDone(text, p.w, s, jobs[n], runId, slots, scripts[n]);
        if run.result.Some? && run.result.value.verdict.Succeeded? {
          SucceededIsDone(text, p.w, s, jobs[n], runId, slots, scripts[n]);
        }
        AdvanceDone(p, run, jobs, stopOnError);
      }
    }
  }

  ghost predicate AllSucceeded(results: seq<JobResult>) {
    forall r | r in results :: r.verdict.Succeeded?
  }

  ghost predicate MissingOrCovered(c: Cat, s: Series, dates: seq<Date>) {
    forall d | d in dates :: StandingOf(c, JobFor(s, d)).Absent? || StandingOf(c, JobFor(s, d)).ActiveExists?
  }

  lemma {:induction false} RoundKeepsOrder(text: Schema.Text, w: World, s: Series, dates: seq<Date>, maxJobs: int,
                                           slots: Slots, batch: seq<Script>)
    requires Increasing(dates) && 0 < maxJobs <= EXECUTE_MAX_JOBS && Startable(batch)
    requires (forall d | d in dates :: JobFor(s, d) in slots) && Orderly(w.cat)
    ensures Orderly(Round(text, w, s, dates, maxJobs, slots, batch, false).w.cat)
  {
    var jobs := JobsOn(w.cat, s, First(MissingDates(w.cat, s, dates), maxJobs));
    SelectedAreCovered(w.cat, s, dates, maxJobs, slots);
    ExecutionKeepsOthers(text, w, s, jobs, slots, batch, false);
  }

  /** In a catalog in order, a round in which every job succeeds covers the dates it takes. */
  lemma {:induction false} SuccessfulRoundCovers(text: Schema.Text, w: World, s: Series, dates: seq<Date>,
                                                 maxJobs: int, slots: Slots, batch: seq<Script>)
    requires Increasing(dates) && 0 < maxJobs <= EXECUTE_MAX_JOBS && Startable(batch) && CrashFree(batch)
    requires forall d | d in dates :: JobFor(s, d) in slots
    requires Orderly(w.cat) && MissingOrCovered(w.cat, s, dates)
    requires AllSucceeded(Round(text, w, s, dates, maxJobs, slots, batch, false).results)
    ensures var p := Round(text, w, s, dates, maxJobs, slots, batch, false);
            Orderly(p.w.cat) && MissingOrCovered(p.w.cat, s, dates)
  {
    var p := Round(text, w, s, dates, maxJobs, slots, batch, false);
    var missing, n := MissingDates(w.cat, s, dates), Attempted(p);
    RoundTakesTheFirst(text, w, s, dates, maxJobs, slots, batch, false);
    RoundGoesOn(text, w, s, dates, maxJobs, slots, batch);
    forall d | d in missing[..n]
      ensures IsDone(p.w.cat, JobFor(s, d))
    {
      var i :| 0 <= i < n && missing[..n][i] == d;
      TakenIsDone(text, w, s, dates, maxJobs, slots, batch, i);
    }
    forall d | d !in missing[..n]
      ensures StandingOf(p.w.cat, JobFor(s, d)) == StandingOf(w.cat, JobFor(s, d))
    {
      RoundKeepsOthers(text, w, s, dates, maxJobs, slots, batch, false, d);
    }
    RoundKeepsOrder(text, w, s, dates, maxJobs, slots, batch);
    CoveredOrAsBefore(w.cat, p.w.cat, s, dates, missing[..n]);
  }

  lemma {:induction false} DoneIsCovered(c: Cat, key: JobKey)
    requires Orderly(c) && IsDone(c, key)
    ensures StandingOf(c, key).ActiveExists?
  {}

  lemma {:induction false} CoveredOrAsBefore(c: Cat, d: Cat, s: Series, dates: seq<Date>, taken: seq<Date>)
    requires Orderly(d) && MissingOrCovered(c, s, dates)
    requires forall x | x in taken :: IsDone(d, JobFor(s, x))
    requires forall x {:trigger JobFor(s, x)} | x !in taken ::
      StandingOf(d, JobFor(s, x)) == StandingOf(c, JobFor(s, x))
    ensures MissingOrCovered(d, s, dates)
  {
    forall x | x in dates
      ensures StandingOf(d, JobFor(s, x)).Absent? || StandingOf(d, JobFor(s, x)).ActiveExists?
    {
      if x in taken {
        DoneIsCovered(d, JobFor(s, x));
      }
    }
  }

  lemma {:induction false} ExecutedDone(text: Schema.Text, w: World, s: Series, jobs: seq<BackfillJob>, slots: Slots,
                                        scripts: seq<Script>)
    requires Orderly(w.cat) && Covered(jobs, s, slots) && |jobs| <= |scripts| && AllFetched(jobs)
    ensures SucceededAreDone(Executed(text, w, s, jobs, slots, scripts, false), jobs)
  {
    var begun, p := ExecutionAround(text, w, s, jobs, slots, scripts, false);
    SameDataOrder(w, begun);
    RunJobsDone(text, begun, s, jobs, |w.cat.runs|, slots, scripts, false);
  }

  lemma {:induction false} TakenIsDone(text: Schema.Text, w: World, s: Series, dates: seq<Date>, maxJobs: int,
                                       slots: Slots, batch: seq<Script>, i: nat)
    requires Increasing(dates) && 0 < maxJobs <= EXECUTE_MAX_JOBS && Startable(batch)
    requires forall d | d in dates :: JobFor(s, d) in slots
    requires Orderly(w.cat)
    requires var p := Round(text, w, s, dates, maxJobs, slots, batch, false);
             i < |p.results| && i < |MissingDates(w.cat, s, dates)| && p.results[i].verdict.Succeeded?
    ensures IsDone(Round(text, w, s, dates, maxJobs, slots, batch, false).w.cat,
                   JobFor(s, MissingDates(w.cat, s, dates)[i]))
  {
    var jobs := JobsOn(w.cat, s, First(MissingDates(w.cat, s, dates), maxJobs));
    SelectedAreCovered(w.cat, s, dates, maxJobs, slots);
    ExecutedDone(text, w, s, jobs, slots, batch);
  }

  ghost predicate RoundsSucceed(text: Schema.Text, w: World, s: Series, dates: seq<Date>, maxJobs: int, slots: Slots,
                                batches: seq<seq<Script>>)
    requires Increasing(dates) && 0 < maxJobs <= EXECUTE_MAX_JOBS
    requires (forall d | d in dates :: JobFor(s, d) in slots) && forall b | b in batches :: Startable(b)
    decreases |batches|
  {
    batches == [] ||
    (assert batches[0] in batches && Startable(batches[0]);
     var p := Round(text, w, s, dates, maxJobs, slots, batches[0], false);
     AllSucceeded(p.results) && RoundsSucceed(text, p.w, s, dates, maxJobs, slots, batches[1..]))
  }

  lemma {:induction false} SuccessfulRoundsCover(text: Schema.Text, w: World, s: Series, dates: seq<Date>,
                                                 maxJobs: int, slots: Slots, batches: seq<seq<Script>>)
    requires Increasing(dates) && 0 < maxJobs <= EXECUTE_MAX_JOBS
    requires (forall d | d in dates :: JobFor(s, d) in slots) && forall b | b in batches :: Startable(b) && CrashFree(b)
    requires Orderly(w.cat) && MissingOrCovered(w.cat, s, dates)
    requires RoundsSucceed(text, w, s, dates, maxJobs, slots, batches)
    ensures MissingOrCovered(AfterRounds(text, w, s, dates, maxJobs, slots, batches).cat, s, dates)
    decreases |batches|
  {
    if batches != [] {
      assert batches[0] in batches;
      var p := FirstRound(text, w, s, dates, maxJobs, slots, batches);
      SuccessfulRoundCovers(text, w, s, dates, maxJobs, slots, batches[0]);
      SuccessfulRoundsCover(text, p.w, s, dates, maxJobs, slots, batches[1..]);
    }
  }

  /** When all jobs succeed, enough rounds to take every missing date leave every date covered. */
  lemma {:induction false} BackfillCompletes(text: Schema.Text, w: World, s: Series, dates: seq<Date>, maxJobs: int,
                                             slots: Slots, batches: seq<seq<Script>>, d: Date)
    requires Increasing(dates) && 0 < maxJobs <= EXECUTE_MAX_JOBS
    requires (forall x | x in dates :: JobFor(s, x) in slots) && forall b | b in batches :: Startable(b) && CrashFree(b)
    requires Orderly(w.cat) && MissingOrCovered(w.cat, s, dates)
    requires RoundsSucceed(text, w, s, dates, maxJobs, slots, batches)
    requires |MissingDates(w.cat, s, dates)| <= maxJobs * |batches| && d in dates
    ensures StandingOf(AfterRounds(text, w, s, dates, maxJobs, slots, batches).cat, JobFor(s, d)).ActiveExists?
  {
    var after := AfterRounds(text, w, s, dates, maxJobs, slots, batches);
    MissingShrinksEveryRound(text, w, s, dates, maxJobs, slots, batches);
    SuccessfulRoundsCover(text, w, s, dates, maxJobs, slots, batches);
    CandidatesAreExact(after.cat, s, dates, false, d);
  }

  // ---- rounds that are sure to succeed ----

  /** The fetch meets no fault, and its answer is one that the schema decision accepts, whatever
      has been recorded before. */
  ghost predicate Benign(text: Schema.Text, sc: Script) {
    Clean(sc) && forall w: World, key: JobKey :: Accepted(text, w, key, sc)
  }

  /** For one, an answer of a single page without columns is always accepted. */
  lemma {:induction false} EmptyAnswersAreBenign(text: Schema.Text, page: Client.Event, today: string)
    ensures Benign(text, Window.Calm(page, today, NoFault))
  {
    forall w: World, key: JobKey
      ensures Accepted(text, w, key, Window.Calm(page, today, NoFault))
    {
      Window.CalmIsAccepted(text, w, key, page, today, NoFault);
    }
  }

  lemma {:induction false} BenignFetchReturns(text: Schema.Text, w: World, req: Request, slot: Slot, sc: Script)
    requires Orderly(w.cat) && Benign(text, sc)
    ensures var e := Fetch(text, w, req, slot, sc); e.end.Finished? && e.end.result.snapshot.Some?
  {
    if IsDone(w.cat, req.key) {
      DoneIsSkipped(text, w, req, slot, sc);
    } else {
      CleanFetchCommits(text, w, req, slot, sc);
    }
  }

  lemma {:induction false} BenignJobSucceeds(text: Schema.Text, w: World, s: Series, job: BackfillJob, runId: RunId,
                                             slot: Slot, sc: Script)
    requires Orderly(w.cat) && Fetched(job) && Benign(text, sc)
    ensures var run := RunJob(text, w, s, job, runId, slot, sc);
            run.result.Some? && run.result.value.verdict.Succeeded?
  {
    BenignFetchReturns(text, w, RequestFor(s, job, runId), slot, sc);
    ReturnedSucceeds(text, w, s, job, runId, slot, sc);
  }

  lemma {:induction false} BenignJobsSucceed(text: Schema.Text, w: World, s: Series, jobs: seq<BackfillJob>,
                                             runId: RunId, slots: Slots, scripts: seq<Script>)
    requires Orderly(w.cat) && Covered(jobs, s, slots) && |jobs| <= |scripts| && AllFetched(jobs)
    requires forall sc | sc in scripts :: Benign(text, sc)
    ensures AllSucceeded(RunJobs(text, w, s, jobs, runId, slots, scripts, false).results)
    decreases |jobs|
  {
    if jobs != [] {
      var n := |jobs| - 1;
      CoveredPrefix(jobs, s, slots, n);
      FetchedPrefix(jobs, n);
      BenignJobsSucceed(text, w, s, jobs[..n], runId, slots, scripts);
      JobsKeepOthers(text, w, s, jobs[..n], runId, slots, scripts, false);
      var p := RunJobs(text, w, s, jobs[..n], runId, slots, scripts, false);
      if p.phase.Going? {
        BenignJobSucceeds(text, p.w, s, jobs[n], runId, slots[jobs[n].key], scripts[n]);
      }
    }
  }

  lemma {:induction false} BenignRoundSucceeds(text: Schema.Text, w: World, s: Series, dates: seq<Date>, maxJobs: int,
                                               slots: Slots, batch: seq<Script>)
    requires Increasing(dates) && 0 < maxJobs <= EXECUTE_MAX_JOBS && Startable(batch)
    requires forall d | d in dates :: JobFor(s, d) in slots
    requires Orderly(w.cat) && forall sc | sc in batch :: Benign(text, sc)
    ensures var p := Round(text, w, s, dates, maxJobs, slots, batch, false);
            Orderly(p.w.cat) && AllSucceeded(p.results)
  {
    var jobs := JobsOn(w.cat, s, First(MissingDates(w.cat, s, dates), maxJobs));
    SelectedAreCovered(w.cat, s, dates, maxJobs, slots);
    var begun, p := ExecutionAround(text, w, s, jobs, slots, batch, false);
    SameDataOrder(w, begun);
    BenignJobsSucceed(text, begun, s, jobs, |w.cat.runs|, slots, batch);
    ExecutionKeepsOthers(text, w, s, jobs, slots, batch, false);
  }

  lemma {:induction false} BenignRoundsSucceed(text: Schema.Text, w: World, s: Series, dates: seq<Date>, maxJobs: int,
                                               slots: Slots, batches: seq<seq<Script>>)
    requires Increasing(dates) && 0 < maxJobs <= EXECUTE_MAX_JOBS
    requires (forall x | x in dates :: JobFor(s, x) in slots) && forall b | b in batches :: Startable(b)
    requires Orderly(w.cat) && forall b, sc | b in batches && sc in b :: Benign(text, sc)
    ensures RoundsSucceed(text, w, s, dates, maxJobs, slots, batches)
    decreases |batches|
  {
    if batches != [] {
      assert batches[0] in batches && Startable(batches[0]);
      BenignRoundSucceeds(text, w, s, dates, maxJobs, slots, batches[0]);
      BenignRoundsSucceed(text, Round(text, w, s, dates, maxJobs, slots, batches[0], false).w, s, dates, maxJobs,
                          slots, batches[1..]);
    }
  }

  /** If no fetch meets a fault and every answer is acceptable, all dates are covered after as many
      rounds as it takes to go through the missing ones in groups of maxJobs. */
  lemma {:induction false} BenignBackfillCompletes(text: Schema.Text, w: World, s: Series, dates: seq<Date>,
                                                   maxJobs: int, slots: Slots, batches: seq<seq<Script>>)
    requires Increasing(dates) && 0 < maxJobs <= EXECUTE_MAX_JOBS
    requires (forall x | x in dates :: JobFor(s, x) in slots) && forall b | b in batches :: Startable(b) && CrashFree(b)
    requires Orderly(w.cat) && MissingOrCovered(w.cat, s, dates)
    requires forall b, sc | b in batches && sc in b :: Benign(text, sc)
    requires |MissingDates(w.cat, s, dates)| <= maxJobs * |batches|
    ensures AllCovered(AfterRounds(text, w, s, dates, maxJobs, slots, batches).cat, s, dates)
  {
    BenignRoundsSucceed(text, w, s, dates, maxJobs, slots, batches);
    forall i | 0 <= i < |dates|
      ensures StandingOf(AfterRounds(text, w, s, dates, maxJobs, slots, batches).cat, JobFor(s, dates[i])).ActiveExists?
    {
      BackfillCompletes(text, w, s, dates, maxJobs, slots, batches, dates[i]);
    }
  }
}
