/** Backfilling what is missing converges: every attempted date leaves the missing ones for good,
    no other date is touched, and each round attempts as many as it may. */
module Convergence {
  import opened Wrappers
  import opened Errors
  import opened Catalog
  import opened Store
  import opened Safety
  import opened Runs
  import opened Durability
  import opened Snapshots
  import opened Outcomes
  import opened Backfill
  import Schema
  import Client

  // ---- job rows are never lost ----

  lemma {:induction false} RowStaysConclude(actions: seq<Action>, fault: Fault, w: World, end: End, key: JobKey)
    requires key in w.cat.jobs
    ensures key in Conclude(Perform(actions, fault, w), end).w.cat.jobs
  {
    JobRowsStayPerform(actions, fault, w, key);
  }

  lemma {:induction false} RowStaysAccept(w: World, plan: FetchPlan, runId: RunId, finishRun: bool,
                                          result: Client.QueryResult, prepared: Schema.Preparation, raw: Content,
                                          sc: Script, key: JobKey)
    requires key in w.cat.jobs
    ensures key in Accept(w, plan, runId, finishRun, result, prepared, raw, sc).w.cat.jobs
  {
    var lake := LakeContent(runId, plan.key, prepared.decision.schema, result.fields, prepared.items, sc.lakeBytes);
    var stage := StageActions(plan, runId, result, prepared.decision, raw, lake, sc);
    var size := AcceptBranches(w, plan, runId, finishRun, result, prepared, raw, sc);
    JobRowsStayPerform(stage, sc.stage, w, key);
    var staged := ApplyAll(stage, w);
    JobRowsStay(stage, w, key);
    RowStaysConclude([] + RejectActions(plan.key, runId, finishRun, ValidationFailed, size, None), sc.publish, staged,
                     NoData(runId, plan.key), key);
    RowStaysConclude(PublishActions(plan, runId, finishRun, |w.cat.files|, |w.cat.files| + 1, result), sc.publish,
                     staged, Finished(FetchResult(Some(runId), plan.key, Some(|staged.cat.snapshots|), |result.items|,
                                                  false)), key);
  }

  lemma {:induction false} RowStaysStore(text: Schema.Text, w: World, plan: FetchPlan, runId: RunId, finishRun: bool,
                                         result: Client.QueryResult, sc: Script, key: JobKey)
    requires key in w.cat.jobs
    ensures key in Store.Store(text, w, plan, runId, finishRun, result, sc).w.cat.jobs
  {
    var raw := RawContent(runId, plan.key, result.events, sc.rawBytes);
    var write := [Write(runId, RawTmp(plan.key), raw)];
    JobRowsStayPerform(write, sc.write, w, key);
    if !Strikes(sc.write, write) {
      var written := ApplyAll(write, w);
      var prepared := PreparedFor(text, written.cat, plan.key.apiName, result);
      if prepared.decision.Compatible() {
        RowStaysAccept(written, plan, runId, finishRun, result, prepared, raw, sc, key);
      } else {
        RowStaysConclude(ChangeActions(prepared.decision)
                         + RejectActions(plan.key, runId, finishRun, SchemaIncompatible, Some(raw.bytes),
                                         Some(Sha256(raw))),
                         sc.stage, written, NoData(runId, plan.key), key);
      }
    }
  }

  lemma {:induction false} RowStaysBody(text: Schema.Text, w: World, plan: FetchPlan, runId: RunId, finishRun: bool,
                                        sc: Script, key: JobKey)
    requires key in w.cat.jobs
    ensures key in Body(text, w, plan, runId, finishRun, sc).w.cat.jobs
  {
    var reply := QueryWithRetry(sc.replies, sc.maxAttempts, 1);
    if reply.Answer? {
      RowStaysStore(text, w, plan, runId, finishRun, reply.result, sc, key);
    }
  }

  lemma {:induction false} RowStaysHandle(e: Ending, key: JobKey, runId: RunId, finishRun: bool, fault: Fault,
                                          k: JobKey)
    requires k in e.w.cat.jobs
    ensures k in Handle(e, key, runId, finishRun, fault).w.cat.jobs
  {
    if e.end.Threw? {
      RowStaysConclude(HandlerActions(e.w, key, runId, finishRun, e.end.error), fault, e.w, e.end, k);
    }
  }

  /** No fetch, however it ends, loses a job row; one whose first catalog call works leaves a row
      of its own job. */
  lemma {:induction false} FetchKeepsRows(text: Schema.Text, w: World, req: Request, slot: Slot, sc: Script, k: JobKey)
    requires k in w.cat.jobs || (k == req.key && !Strikes(sc.begin, BeginActions(w.cat, req)))
    ensures k in Fetch(text, w, req, slot, sc).w.cat.jobs
  {
    var key, runId := req.key, RunOf(w.cat, req);
    var plan := PlanFetch(key, sc.today, slot);
    var begin := BeginActions(w.cat, req);
    if k in w.cat.jobs {
      JobRowsStayPerform(begin, sc.begin, w, k);
    }
    if !Strikes(sc.begin, begin) {
      var begun := ApplyAll(begin, w);
      BeginMakesRow(w, req);
      RowStaysBody(text, begun, plan, runId, req.finishRun, sc, k);
      RowStaysHandle(Body(text, begun, plan, runId, req.finishRun, sc), key, runId, req.finishRun, sc.handler, k);
    }
  }

  /** Once a job has a row, its date is never missing again, over any run of fetches and faults. */
  lemma {:induction false} NeverMissingAgain(text: Schema.Text, w: World, slots: Slots, commands: seq<Command>,
                                             key: JobKey)
    requires Known(commands, slots) && key in w.cat.jobs
    ensures !StandingOf(RunAll(text, w, slots, commands).cat, key).Absent?
    decreases |commands|
  {
    if commands != [] {
      var c := commands[0];
      FetchKeepsRows(text, w, c.req, slots[c.req.key], c.sc, key);
      NeverMissingAgain(text, Fetch(text, w, c.req, slots[c.req.key], c.sc).w, slots, commands[1..], key);
    }
  }

  // ---- other jobs keep their standing ----

  /** For this job the two catalogs have the same job row, and agree on whether it has quarantine
      entries and staged files. */
  ghost predicate SameTraces(c: Cat, d: Cat, k: JobKey) {
    && Find(d.jobs, k) == Find(c.jobs, k)
    && (QuarantinedJob(d, k) <==> QuarantinedJob(c, k))
    && (StagedJob(d, k) <==> StagedJob(c, k))
  }

  /** For this job the two catalogs say the same. */
  ghost predicate SameFor(c: Cat, d: Cat, k: JobKey) {
    SameTraces(c, d, k) && ActiveLakeFiles(d, k) == ActiveLakeFiles(c, k)
  }

  /** A job without traces is missing, whatever the latest snapshots hold. */
  lemma {:induction false} SameTracesSameAbsence(c: Cat, d: Cat, k: JobKey)
    requires SameTraces(c, d, k)
    ensures StandingOf(d, k).Absent? <==> StandingOf(c, k).Absent?
  {
    assert k in d.jobs <==> Find(d.jobs, k).Some?;
    assert k in c.jobs <==> Find(c.jobs, k).Some?;
  }

  lemma {:induction false} SameForSameStanding(c: Cat, d: Cat, k: JobKey)
    requires SameFor(c, d, k)
    ensures StandingOf(d, k) == StandingOf(c, k)
  {
    assert k in d.jobs <==> Find(d.jobs, k).Some?;
    assert k in c.jobs <==> Find(c.jobs, k).Some?;
  }

  lemma {:induction false} ApartSameQuarantine(c: Cat, d: Cat, key: JobKey, k: JobKey)
    requires ApartQuarantine(c, d, key) && k != key
    ensures QuarantinedJob(d, k) <==> QuarantinedJob(c, k)
  {
    if QuarantinedJob(c, k) {
      var i :| 0 <= i < |c.quarantine| && c.quarantine[i].key == k;
      assert d.quarantine[i] in d.quarantine;
    }
    if QuarantinedJob(d, k) {
      var i :| 0 <= i < |d.quarantine| && d.quarantine[i].key == k;
      assert d.quarantine[i] == c.quarantine[i];
    }
  }

  lemma {:induction false} ApartSameStaged(c: Cat, d: Cat, key: JobKey, k: JobKey)
    requires ApartFiles(c, d, key) && k != key
    ensures StagedJob(d, k) <==> StagedJob(c, k)
  {
    SameRowsSameStaged(c.files, d.files, k);
  }

  /** The rows of one job are the same in both tables, at the same places. */
  lemma {:induction false} SameRowsSameStaged(c: seq<FileRow>, d: seq<FileRow>, k: JobKey)
    requires |c| <= |d|
    requires forall f | 0 <= f < |c| :: d[f] == c[f]
    requires forall f | |c| <= f < |d| :: d[f].key != k
    ensures (exists row | row in d :: row.key == k && row.apiName == k.apiName && row.status == Staged)
            <==> (exists row | row in c :: row.key == k && row.apiName == k.apiName && row.status == Staged)
  {
    forall row: FileRow | row.key == k
      ensures row in d <==> row in c
    {
      if row in c {
        var f :| 0 <= f < |c| && c[f] == row;
        assert d[f] == row;
      }
      if row in d {
        var f :| 0 <= f < |d| && d[f] == row;
        assert c[f] == row;
      }
    }
  }

  lemma {:induction false} ApartSameTraces(v: World, w: World, key: JobKey, slots: Slots, k: JobKey)
    requires key in slots && Apart(v, w, key, slots) && k != key
    ensures SameTraces(v.cat, w.cat, k)
  {
    ApartSameQuarantine(v.cat, w.cat, key, k);
    ApartSameStaged(v.cat, w.cat, key, k);
  }

  lemma {:induction false} PastSameStaged(v: World, x: World, y: World, slots: Slots, p: Publication, k: JobKey)
    requires p.key in slots && Past(v, x, y, slots, p) && k != p.key
    ensures StagedJob(y.cat, k) <==> StagedJob(v.cat, k)
  {
    CommitRows(v, x, slots, p);
    CommittedKeys(x.cat, p);
    SameRowsSameStaged(v.cat.files, y.cat.files, k);
  }

  lemma {:induction false} CommittedKeys(c: Cat, p: Publication)
    ensures |CommittedCat(c, p).files| == |c.files|
    ensures forall f | 0 <= f < |c.files| :: CommittedCat(c, p).files[f].key == c.files[f].key
  {}

  lemma {:induction false} PastSameTraces(v: World, x: World, y: World, slots: Slots, p: Publication, k: JobKey)
    requires p.key in slots && Past(v, x, y, slots, p) && k != p.key
    ensures SameTraces(v.cat, y.cat, k)
  {
    ApartSameQuarantine(v.cat, y.cat, p.key, k);
    PastSameStaged(v, x, y, slots, p, k);
  }

  lemma {:induction false} EndedSameTraces(v: World, e: Ending, key: JobKey, slots: Slots, safe: bool, k: JobKey)
    requires key in slots && Ended(v, e, key, slots, safe) && k != key
    ensures SameTraces(v.cat, e.w.cat, k)
    ensures Listed(v.cat) ==> SameFor(v.cat, e.w.cat, k)
  {
    if EndedApart(v, e, key, slots) {
      ApartSameTraces(v, e.w, key, slots, k);
      if Listed(v.cat) {
        ApartSameActive(v, e.w, key, slots, k);
      }
    } else {
      var x: World, p: Publication :| p.key == key && Past(v, x, e.w, slots, p);
      PastSameTraces(v, x, e.w, slots, p, k);
      if Listed(v.cat) {
        PastSameActive(v, x, e.w, slots, p, k);
      }
    }
  }

  /** A fetch of a job that is not done makes no other job missing, and none that is missing leave
      the list: in any lake, with any faults. */
  lemma {:induction false} FetchKeepsAbsence(text: Schema.Text, w: World, req: Request, slots: Slots, sc: Script,
                                             k: JobKey)
    requires req.key in slots && k != req.key && !IsDone(w.cat, req.key)
    ensures StandingOf(Fetch(text, w, req, slots[req.key], sc).w.cat, k).Absent? <==> StandingOf(w.cat, k).Absent?
  {
    var e := Fetch(text, w, req, slots[req.key], sc);
    UndoneFetchEnded(text, w, req, slots, sc);
    EndedSameTraces(w, e, req.key, slots, Safe(sc, req.finishRun), k);
    SameTracesSameAbsence(w.cat, e.w.cat, k);
  }

  /** A fetch of one job changes the standing of no other, whatever the faults. */
  lemma {:induction false} FetchKeepsStanding(text: Schema.Text, w: World, req: Request, slots: Slots, sc: Script,
                                              k: JobKey)
    requires Orderly(w.cat) && req.key in slots && k != req.key
    ensures StandingOf(Fetch(text, w, req, slots[req.key], sc).w.cat, k) == StandingOf(w.cat, k)
  {
    FetchEnded(text, w, req, slots, sc);
    if !IsDone(w.cat, req.key) {
      var e := Fetch(text, w, req, slots[req.key], sc);
      EndedSameTraces(w, e, req.key, slots, Safe(sc, req.finishRun), k);
      SameForSameStanding(w.cat, e.w.cat, k);
    }
  }

  // ---- what a run of jobs reports ----

  ghost predicate ReportsJob(r: JobResult, job: BackfillJob) {
    && r.date == job.date && r.key == job.key && r.plan == job.plan
    && (r.verdict.Skipped? <==> job.plan.SkipExisting?)
    && (r.verdict.Blocked? <==> job.plan.BlockedQuarantined?)
    && (r.verdict.Succeeded? ==> r.snapshot.Some?) && (r.verdict.FailedJob? ==> r.snapshot.None?)
  }

  lemma {:induction false} RunJobReports(text: Schema.Text, w: World, s: Series, job: BackfillJob, runId: RunId,
                                         slot: Slot, sc: Script)
    ensures var run := RunJob(text, w, s, job, runId, slot, sc);
            run.result.Some? ==> ReportsJob(run.result.value, job)
  {}

  /** How many jobs have been begun: those with a result, and the one the process died in. */
  function Attempted(p: Progress): nat {
    |p.results| + if p.phase.Dead? then 1 else 0
  }

  ghost predicate FollowsPlan(p: Progress, jobs: seq<BackfillJob>, stopOnError: bool) {
    && Attempted(p) <= |jobs|
    && (forall i | 0 <= i < |p.results| :: ReportsJob(p.results[i], jobs[i]))
    && (p.phase.Going? ==> |p.results| == |jobs|)
    && (stopOnError ==> forall i | 0 <= i < |p.results| - 1 ::
                          p.results[i].verdict.Skipped? || p.results[i].verdict.Succeeded?)
    && (stopOnError && p.results != [] ==>
          (p.results[|p.results| - 1].verdict.Blocked? || p.results[|p.results| - 1].verdict.FailedJob?
           <==> p.phase.StoppedOnError?))
    && (p.phase.StoppedOnError? ==> stopOnError && p.results != [])
  }

  lemma {:induction false} AdvanceFollowsPlan(p: Progress, run: JobRun, jobs: seq<BackfillJob>, stopOnError: bool)
    requires jobs != [] && p.phase.Going? && FollowsPlan(p, jobs[..|jobs| - 1], stopOnError)
    requires run.result.Some? ==> ReportsJob(run.result.value, jobs[|jobs| - 1])
    ensures FollowsPlan(Advance(p, run, stopOnError), jobs, stopOnError)
  {}

  /** The results follow the plan in order; there is one for every job unless the process died or
      the run was to stop on an error, and then it stops right at the first one. */
  lemma {:induction false} ResultsFollowPlan(text: Schema.Text, w: World, s: Series, jobs: seq<BackfillJob>,
                                             runId: RunId, slots: Slots, scripts: seq<Script>, stopOnError: bool)
    requires |jobs| <= |scripts| && forall j | j in jobs :: j.key in slots
    ensures FollowsPlan(RunJobs(text, w, s, jobs, runId, slots, scripts, stopOnError), jobs, stopOnError)
    decreases |jobs|
  {
    if jobs != [] {
      var n := |jobs| - 1;
      ResultsFollowPlan(text, w, s, jobs[..n], runId, slots, scripts, stopOnError);
      var p := RunJobs(text, w, s, jobs[..n], runId, slots, scripts, stopOnError);
      if p.phase.Going? {
        RunJobReports(text, p.w, s, jobs[n], runId, slots[jobs[n].key], scripts[n]);
        AdvanceFollowsPlan(p, RunJob(text, p.w, s, jobs[n], runId, slots[jobs[n].key], scripts[n]), jobs, stopOnError);
      }
    }
  }

  /** The four counts of a summary add up to the number of results. */
  lemma {:induction false} VerdictsAddUp(results: seq<JobResult>)
    ensures CountVerdict(results, Skipped) + CountVerdict(results, Blocked)
            + CountVerdict(results, Succeeded) + CountVerdict(results, FailedJob) == |results|
  {
    if results != [] {
      VerdictsAddUp(results[..|results| - 1]);
    }
  }

  // ---- what a run of jobs keeps ----

  ghost predicate Covered(jobs: seq<BackfillJob>, s: Series, slots: Slots) {
    forall j | j in jobs :: j.key in slots && MakeKey(s.endpoint, j.params, None) == j.key
  }

  ghost predicate AllSafe(scripts: seq<Script>) {
    forall sc | sc in scripts :: Safe(sc, false)
  }

  ghost predicate AmongFirst(k: JobKey, jobs: seq<BackfillJob>, n: int) {
    exists i :: 0 <= i < n && i < |jobs| && jobs[i].key == k
  }

  lemma {:induction false} RunJobWorld(text: Schema.Text, w: World, s: Series, job: BackfillJob, runId: RunId,
                                       slot: Slot, sc: Script)
    ensures RunJob(text, w, s, job, runId, slot, sc).w
            == if job.plan.SkipExisting? || job.plan.BlockedQuarantined? then w
               else Fetch(text, w, RequestFor(s, job, runId), slot, sc).w
  {}

  lemma {:induction false} RunOneMore(text: Schema.Text, w: World, slots: Slots, commands: seq<Command>, c: Command)
    requires Known(commands + [c], slots)
    ensures Known(commands, slots) && c.req.key in slots
    ensures RunAll(text, w, slots, commands + [c])
            == Fetch(text, RunAll(text, w, slots, commands), c.req, slots[c.req.key], c.sc).w
    decreases |commands|
  {
    assert c in commands + [c];
    if commands == [] {
      assert commands + [c] == [c] && [c][1..] == [];
    } else {
      var first := commands[0];
      assert (commands + [c])[1..] == commands[1..] + [c];
      RunOneMore(text, Fetch(text, w, first.req, slots[first.req.key], first.sc).w, slots, commands[1..], c);
    }
  }

  /** Fetches of jobs among the first n, with these scripts, none of which ends its run. */
  ghost predicate OfJobs(commands: seq<Command>, jobs: seq<BackfillJob>, n: int, scripts: seq<Script>) {
    forall c | c in commands :: AmongFirst(c.req.key, jobs, n) && c.sc in scripts && !c.req.finishRun
  }

  lemma {:induction false} OfMoreJobs(commands: seq<Command>, jobs: seq<BackfillJob>, m: nat, n: int,
                                      scripts: seq<Script>)
    requires m <= |jobs| && OfJobs(commands, jobs[..m], n, scripts)
    ensures OfJobs(commands, jobs, n, scripts) && OfJobs(commands, jobs, n + 1, scripts)
  {
    forall c | c in commands
      ensures AmongFirst(c.req.key, jobs, n) && AmongFirst(c.req.key, jobs, n + 1)
    {
      var i :| 0 <= i < n && i < m && jobs[..m][i].key == c.req.key;
      assert jobs[i].key == c.req.key;
    }
  }

  /** The last job, after a run that has not stopped. */
  lemma {:induction false} OneMoreCommand(text: Schema.Text, w: World, p: Progress, s: Series, jobs: seq<BackfillJob>,
                                          runId: RunId, slots: Slots, scripts: seq<Script>, commands: seq<Command>)
    returns (more: seq<Command>)
    requires jobs != [] && Covered(jobs, s, slots) && |jobs| <= |scripts|
    requires Known(commands, slots) && OfJobs(commands, jobs[..|jobs| - 1], |jobs| - 1, scripts)
    requires p.w == RunAll(text, w, slots, commands)
    ensures Known(more, slots) && OfJobs(more, jobs, |jobs|, scripts)
    ensures RunAll(text, w, slots, more)
            == (var n := |jobs| - 1; RunJob(text, p.w, s, jobs[n], runId, slots[jobs[n].key], scripts[n]).w)
  {
    var n := |jobs| - 1;
    var job, sc := jobs[n], scripts[n];
    OfMoreJobs(commands, jobs, n, n, scripts);
    RunJobWorld(text, p.w, s, job, runId, slots[job.key], sc);
    if job.plan.SkipExisting? || job.plan.BlockedQuarantined? {
      more := commands;
    } else {
      var c := Command(RequestFor(s, job, runId), sc);
      more := commands + [c];
      assert AmongFirst(c.req.key, jobs, n + 1);
      RunOneMore(text, w, slots, commands, c);
    }
  }

  /** One result more, or the death of the process: one more job has been begun. */
  lemma {:induction false} AdvanceCounts(p: Progress, run: JobRun, stopOnError: bool)
    requires p.phase.Going?
    ensures Attempted(Advance(p, run, stopOnError)) == |p.results| + 1 && Advance(p, run, stopOnError).w == run.w
  {}

  lemma {:induction false} CoveredPrefix(jobs: seq<BackfillJob>, s: Series, slots: Slots, n: nat)
    requires Covered(jobs, s, slots) && n <= |jobs|
    ensures Covered(jobs[..n], s, slots)
  {}

  lemma {:induction false} BegunAtMost(text: Schema.Text, w: World, s: Series, jobs: seq<BackfillJob>, runId: RunId,
                                       slots: Slots, scripts: seq<Script>, stopOnError: bool)
    requires |jobs| <= |scripts| && forall j | j in jobs :: j.key in slots
    ensures var p := RunJobs(text, w, s, jobs, runId, slots, scripts, stopOnError);
            Attempted(p) <= |jobs| && (p.phase.Going? ==> |p.results| == |jobs|)
  {
    ResultsFollowPlan(text, w, s, jobs, runId, slots, scripts, stopOnError);
  }

  /** A run of jobs is a run of fetches of the jobs it began. */
  lemma {:induction false} JobsAreARun(text: Schema.Text, w: World, s: Series, jobs: seq<BackfillJob>, runId: RunId,
                                       slots: Slots, scripts: seq<Script>, stopOnError: bool)
    returns (commands: seq<Command>)
    requires Covered(jobs, s, slots) && |jobs| <= |scripts|
    ensures var p := RunJobs(text, w, s, jobs, runId, slots, scripts, stopOnError);
            && Known(commands, slots) && OfJobs(commands, jobs, Attempted(p), scripts)
            && p.w == RunAll(text, w, slots, commands)
    decreases |jobs|
  {
    commands := [];
    if jobs != [] {
      var n := |jobs| - 1;
      var p := RunJobs(text, w, s, jobs[..n], runId, slots, scripts, stopOnError);
      CoveredPrefix(jobs, s, slots, n);
      commands := JobsAreARun(text, w, s, jobs[..n], runId, slots, scripts, stopOnError);
      BegunAtMost(text, w, s, jobs[..n], runId, slots, scripts, stopOnError);
      OfMoreJobs(commands, jobs, n, Attempted(p), scripts);
      if p.phase.Going? {
        commands := OneMoreCommand(text, w, p, s, jobs, runId, slots, scripts, commands);
        AdvanceCounts(p, RunJob(text, p.w, s, jobs[n], runId, slots[jobs[n].key], scripts[n]), stopOnError);
      }
    }
  }

  // ---- what a run of jobs keeps ----

  lemma {:induction false} RunsKeepStanding(text: Schema.Text, w: World, slots: Slots, commands: seq<Command>,
                                            k: JobKey)
    requires Orderly(w.cat) && Known(commands, slots) && forall c | c in commands :: c.req.key != k
    ensures StandingOf(RunAll(text, w, slots, commands).cat, k) == StandingOf(w.cat, k)
    decreases |commands|
  {
    if commands != [] {
      var c := commands[0];
      FetchKeepsStanding(text, w, c.req, slots, c.sc, k);
      FetchKeepsOrder(text, w, c.req, slots, c.sc);
      RunsKeepStanding(text, Fetch(text, w, c.req, slots[c.req.key], c.sc).w, slots, commands[1..], k);
    }
  }

  /** The catalog stays in order, done jobs stay, and only jobs that were begun change. */
  ghost predicate OthersKeep(w: World, p: Progress, jobs: seq<BackfillJob>) {
    && Orderly(p.w.cat) && DoneStay(w, p.w)
    && forall k {:trigger StandingOf(p.w.cat, k)} | !AmongFirst(k, jobs, Attempted(p)) ::
         StandingOf(p.w.cat, k) == StandingOf(w.cat, k)
  }

  lemma {:induction false} JobsKeepOthers(text: Schema.Text, w: World, s: Series, jobs: seq<BackfillJob>, runId: RunId,
                                          slots: Slots, scripts: seq<Script>, stopOnError: bool)
    requires Orderly(w.cat) && Covered(jobs, s, slots) && |jobs| <= |scripts|
    ensures OthersKeep(w, RunJobs(text, w, s, jobs, runId, slots, scripts, stopOnError), jobs)
  {
    var p := RunJobs(text, w, s, jobs, runId, slots, scripts, stopOnError);
    var commands := JobsAreARun(text, w, s, jobs, runId, slots, scripts, stopOnError);
    RunsKeepOrder(text, w, slots, commands);
    RunsKeepDone(text, w, slots, commands);
    forall k | !AmongFirst(k, jobs, Attempted(p))
      ensures StandingOf(p.w.cat, k) == StandingOf(w.cat, k)
    {
      RunsKeepStanding(text, w, slots, commands, k);
    }
  }

  // ---- the run row changes nothing of this ----

  lemma {:induction false} SameDataSameStanding(a: World, b: World, k: JobKey)
    requires SameData(a, b)
    ensures StandingOf(b.cat, k) == StandingOf(a.cat, k)
  {
    SameForSameStanding(a.cat, b.cat, k);
  }

  lemma {:induction false} SameDataOrder(a: World, b: World)
    requires SameData(a, b) && Orderly(a.cat)
    ensures Orderly(b.cat) && DoneStay(a, b)
  {
    OthersKeepChain(a.cat, b.cat);
    forall api, f | f in HeadFiles(b.cat, api)
      ensures f < |b.cat.files|
    {
      assert f in HeadFiles(a.cat, api);
    }
    forall k | IsDone(b.cat, k)
      ensures ActiveLakeFiles(b.cat, k) != {}
    {
      assert IsDone(a.cat, k) && ActiveLakeFiles(b.cat, k) == ActiveLakeFiles(a.cat, k);
    }
  }

  lemma {:induction false} SameDataDurable(a: World, b: World)
    requires SameData(a, b)
    ensures Durable(a, b)
  {
    forall f | Live(a.cat, f)
      ensures StillThere(a, b, f)
    {}
  }

  lemma {:induction false} RunRowsAreApart(w: World, p: Progress, runId: RunId)
    ensures SameData(w, Apply(BeginRun("backfill"), w)) && SameData(p.w, EndRunOf(p, runId).w)
    ensures EndRunOf(p, runId) == p.(w := EndRunOf(p, runId).w)
  {}

  /** A whole backfill is a run of jobs between two steps that only concern its run row. */
  lemma {:induction false} ExecutionAround(text: Schema.Text, w: World, s: Series, jobs: seq<BackfillJob>, slots: Slots,
                                           scripts: seq<Script>, stopOnError: bool)
    returns (begun: World, p: Progress)
    requires Covered(jobs, s, slots) && |jobs| <= |scripts|
    ensures p == RunJobs(text, begun, s, jobs, |w.cat.runs|, slots, scripts, stopOnError)
    ensures var q := Executed(text, w, s, jobs, slots, scripts, stopOnError);
            SameData(w, begun) && SameData(p.w, q.w) && q == p.(w := q.w)
  {
    begun := Apply(BeginRun("backfill"), w);
    p := RunJobs(text, begun, s, jobs, |w.cat.runs|, slots, scripts, stopOnError);
    RunRowsAreApart(w, p, |w.cat.runs|);
  }

  /** Executing a plan, with any faults, keeps the catalog in order and the done jobs done, and
      changes the standing of no job but the ones it began. */
  lemma {:induction false} ExecutionKeepsOthers(text: Schema.Text, w: World, s: Series, jobs: seq<BackfillJob>,
                                                slots: Slots, scripts: seq<Script>, stopOnError: bool)
    requires Orderly(w.cat) && Covered(jobs, s, slots) && |jobs| <= |scripts|
    ensures OthersKeep(w, Executed(text, w, s, jobs, slots, scripts, stopOnError), jobs)
  {
    var q := Executed(text, w, s, jobs, slots, scripts, stopOnError);
    var begun, p := ExecutionAround(text, w, s, jobs, slots, scripts, stopOnError);
    SameDataOrder(w, begun);
    JobsKeepOthers(text, begun, s, jobs, |w.cat.runs|, slots, scripts, stopOnError);
    SameDataOrder(p.w, q.w);
    StayTransitive(w, begun, p.w);
    StayTransitive(w, p.w, q.w);
    forall k | !AmongFirst(k, jobs, Attempted(q))
      ensures StandingOf(q.w.cat, k) == StandingOf(w.cat, k)
    {
      SameDataSameStanding(w, begun, k);
      SameDataSameStanding(p.w, q.w, k);
      assert StandingOf(p.w.cat, k) == StandingOf(begun.cat, k);
    }
  }

  lemma {:induction false} ExecutionFollowsPlan(text: Schema.Text, w: World, s: Series, jobs: seq<BackfillJob>,
                                                slots: Slots, scripts: seq<Script>, stopOnError: bool)
    requires Covered(jobs, s, slots) && |jobs| <= |scripts|
    ensures FollowsPlan(Executed(text, w, s, jobs, slots, scripts, stopOnError), jobs, stopOnError)
  {
    var begun, p := ExecutionAround(text, w, s, jobs, slots, scripts, stopOnError);
    ResultsFollowPlan(text, begun, s, jobs, |w.cat.runs|, slots, scripts, stopOnError);
  }

  lemma {:induction false} SafeJobsAreLegal(commands: seq<Command>, jobs: seq<BackfillJob>, n: int,
                                            scripts: seq<Script>, slots: Slots)
    requires Known(commands, slots) && OfJobs(commands, jobs, n, scripts) && AllSafe(scripts)
    ensures Legal(commands, slots)
  {}

  /** Executing a plan on a lake in order, with any faults, changes nothing that is committed; with
      safe faults it leaves the lake in order. */
  lemma {:induction false} ExecutionKeeps(text: Schema.Text, w: World, s: Series, jobs: seq<BackfillJob>, slots: Slots,
                                          scripts: seq<Script>, stopOnError: bool)
    requires SlotsDistinct(slots) && Inv(w, slots) && Covered(jobs, s, slots) && |jobs| <= |scripts|
    ensures Durable(w, Executed(text, w, s, jobs, slots, scripts, stopOnError).w)
    ensures AllSafe(scripts) ==> Inv(Executed(text, w, s, jobs, slots, scripts, stopOnError).w, slots)
  {
    var q := Executed(text, w, s, jobs, slots, scripts, stopOnError);
    var begun, p := ExecutionAround(text, w, s, jobs, slots, scripts, stopOnError);
    var commands := JobsAreARun(text, begun, s, jobs, |w.cat.runs|, slots, scripts, stopOnError);
    SameDataSameInv(w, begun, slots);
    SameDataDurable(w, begun);
    RunsAreDurable(text, begun, slots, commands);
    SameDataDurable(p.w, q.w);
    DurableTransitive(w, begun, p.w);
    DurableTransitive(w, p.w, q.w);
    if AllSafe(scripts) {
      SafeJobsAreLegal(commands, jobs, Attempted(p), scripts, slots);
      RunsAreSafe(text, begun, slots, commands);
      SameDataSameInv(p.w, q.w, slots);
    }
  }
}
