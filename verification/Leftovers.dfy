/** What a temp directory that is left behind leads to: the next job of the run that fails moves it
    to quarantine under its own name. */
module Leftovers {
  import opened Wrappers
  import opened Errors
  import opened Catalog
  import opened Store
  import opened Runs
  import opened Outcomes
  import opened TempDirs
  import opened Backfill
  import opened Records
  import opened Window
  import Schema
  import Client

  // ---- when the temp directory is gone ----

  /** A fetch that nothing disturbs before its last stretch, and does not die, removes the temp
      directory exactly if the removal after the commit works. */
  lemma {:induction false} GoneIffRemoved(text: Schema.Text, w: World, req: Request, slot: Slot, sc: Script)
    requires Gone(w, RunOf(w.cat, req)) && !ExistingActiveData(w.cat, req.key)
    requires CleanUntilPublish(sc) && Accepted(text, w, req.key, sc) && sc.handler.NoFault?
    requires !Fetch(text, w, req, slot, sc).end.Died?
    ensures Gone(Fetch(text, w, req, slot, sc).w, RunOf(w.cat, req)) <==> !CleanUpFails(sc.publish, req.finishRun)
  {
    var runId, plan := RunOf(w.cat, req), PlanFetch(req.key, sc.today, slot);
    var begun := ApplyAll(BeginActions(w.cat, req), w);
    BeginKeepsRest(w, req);
    CleanBody(text, begun, plan, runId, req.finishRun, sc);
    FetchClearsTemp(text, w, req, slot, sc);
    var result := QueryWithRetry(sc.replies, sc.maxAttempts, 1).result;
    StagedHasDir(text, begun, plan, runId, result, sc);
    PublishedClears(StagedWorld(text, begun, plan, runId, result, sc), plan, runId, req.finishRun, |begun.cat.files|,
                    result, sc.publish);
  }

  lemma {:induction false} StagedHasDir(text: Schema.Text, w: World, plan: FetchPlan, runId: RunId,
                                        result: Client.QueryResult, sc: Script)
    ensures !Gone(StagedWorld(text, w, plan, runId, result, sc), runId)
  {
    var prepared := PreparedFor(text, w.cat, plan.key.apiName, result);
    StageKeepsDir(Written(w, plan, runId, result, sc), plan, runId, result, prepared.decision,
                  RawContent(runId, plan.key, result.events, sc.rawBytes),
                  LakeContent(runId, plan.key, prepared.decision.schema, result.fields, prepared.items, sc.lakeBytes),
                  sc);
  }

  // ---- a job refused before it writes ----

  lemma {:induction false} HandlerMoves(w: World, key: JobKey, runId: RunId, finishRun: bool, error: ErrorType)
    ensures var dir := QuarantineDir(runId, key, error);
            ApplyAll(HandlerActions(w, key, runId, finishRun, error), w).disk
            == ApplyDisk(MoveToQuarantine(runId, dir), w.disk)
  {
    var move := MoveToQuarantine(runId, QuarantineDir(runId, key, error));
    var before := [FailJob(key, error)] + EndActions(finishRun, runId, RunFailed(Some(error)));
    var all := HandlerActions(w, key, runId, finishRun, error);
    var after := all[|before| + 1..];
    assert all == before + ([move] + after);
    ApplyAppend(before, [move] + after, w);
    DiskLeft(before, w);
    ApplyCons(move, after, ApplyAll(before, w));
    DiskLeft(after, Apply(move, ApplyAll(before, w)));
  }

  /** A job that fails before it writes puts nothing of its own in quarantine: it is noted there,
      and a directory moved there, exactly if the run had a temp directory before. */
  lemma {:induction false} RefusedTakesLeftovers(text: Schema.Text, w: World, req: Request, slot: Slot, sc: Script)
    requires !ExistingActiveData(w.cat, req.key) && sc.begin.NoFault? && sc.handler.NoFault? && FailsUnwritten(sc)
    requires Fetch(text, w, req, slot, sc).end.Threw?
    ensures var e, runId := Fetch(text, w, req, slot, sc), RunOf(w.cat, req);
            var dir := QuarantineDir(runId, req.key, e.end.error);
            && e.w.disk == ApplyDisk(MoveToQuarantine(runId, dir), w.disk)
            && e.w.cat.quarantine == w.cat.quarantine
                 + if Gone(w, runId) then [] else [QuarantineRow(runId, req.key, e.end.error, None, None)]
  {
    var e, runId := Fetch(text, w, req, slot, sc), RunOf(w.cat, req);
    var begun := ApplyAll(BeginActions(w.cat, req), w);
    BeginKeepsRest(w, req);
    QuarantineRowsLeft(BeginActions(w.cat, req), w);
    UnwrittenBody(text, begun, PlanFetch(req.key, sc.today, slot), runId, req.finishRun, sc);
    FetchThrew(text, w, req, slot, sc);
    HandlerMoves(begun, req.key, runId, req.finishRun, e.end.error);
    HandlerNotes(begun, req.key, runId, req.finishRun, e.end.error);
  }

  // ---- two jobs of one run ----

  /** The script of a fetch that the server refuses at once. */
  function RefusedScript(error: ErrorType): Script {
    Script([Refusal(error)], 1, "", 1, 1, NoRot, NoRot, NoFault, NoFault, NoFault, NoFault, NoFault)
  }

  function JobOf(key: JobKey, runId: RunId): Request {
    Request(key, Some(runId), false, "fetch")
  }

  lemma {:induction false} RefusedRaises(text: Schema.Text, w: World, key: JobKey, runId: RunId, slot: Slot,
                                         error: ErrorType)
    requires !ExistingActiveData(w.cat, key)
    ensures FailsUnwritten(RefusedScript(error))
    ensures Fetch(text, w, JobOf(key, runId), slot, RefusedScript(error)).end == Threw(error)
  {
    var sc := RefusedScript(error);
    assert QueryWithRetry(sc.replies, 1, 1) == Refusal(error);
    assert Body(text, ApplyAll(BeginActions(w.cat, JobOf(key, runId)), w), PlanFetch(key, sc.today, slot), runId,
                false, sc).end == Threw(error);
  }

  lemma {:induction false} NotedIsQuarantined(c: Cat, d: Cat, key: JobKey, row: QuarantineRow)
    requires row.key == key && d.quarantine == c.quarantine + [row] && !IsDone(d, key)
    ensures StandingOf(d, key).QuarantinedExists?
  {
    OneMoreQuarantined(c, d, key, row);
  }

  /** A job of the run that the server refuses while the run has a temp directory is classified as
      quarantined, and the directory is in quarantine under its name. */
  lemma {:induction false} RefusedAfterLeftover(text: Schema.Text, w: World, key: JobKey, runId: RunId, slot: Slot,
                                                error: ErrorType)
    requires !ExistingActiveData(w.cat, key) && !Gone(w, runId)
    ensures var e := Fetch(text, w, JobOf(key, runId), slot, RefusedScript(error));
            && e.end == Threw(error) && StandingOf(e.w.cat, key).QuarantinedExists?
            && Find(e.w.disk.quarantined, QuarantineDir(runId, key, error)) == Some(w.disk.tmp[runId])
  {
    var sc := RefusedScript(error);
    RefusedRaises(text, w, key, runId, slot, error);
    RefusedTakesLeftovers(text, w, JobOf(key, runId), slot, sc);
    RaisedIsRecorded(text, w, JobOf(key, runId), slot, sc);
    NotedIsQuarantined(w.cat, Fetch(text, w, JobOf(key, runId), slot, sc).w.cat, key,
                       QuarantineRow(runId, key, error, None, None));
  }

  /** The removal after the commit fails, in a run that the fetch does not end. */
  const REMOVAL_FAILS := Fault(6, false, NoDirectory)

  /** After a commit whose removal of the temp directory failed, the next job of the run that the
      server refuses is classified as quarantined, though nothing of it was ever written. */
  lemma {:induction false} FailedRemovalQuarantinesTheNext(text: Schema.Text, w: World, first: JobKey, second: JobKey,
                                                           runId: RunId, slots: map<JobKey, Slot>, page: Client.Event,
                                                           today: string, error: ErrorType)
    requires first in slots && second in slots && Gone(w, runId) && !ExistingActiveData(w.cat, first)
    requires var e := Fetch(text, w, JobOf(first, runId), slots[first], Calm(page, today, REMOVAL_FAILS));
             !ExistingActiveData(e.w.cat, second)
    ensures var e := Fetch(text, w, JobOf(first, runId), slots[first], Calm(page, today, REMOVAL_FAILS));
            && e.end.Finished? && e.end.result.snapshot.Some?
            && StandingOf(Fetch(text, e.w, JobOf(second, runId), slots[second], RefusedScript(error)).w.cat,
                          second).QuarantinedExists?
  {
    var sc := Calm(page, today, REMOVAL_FAILS);
    CalmReturns(text, w, first, runId, slots[first], page, today);
    GoneIffRemoved(text, w, JobOf(first, runId), slots[first], sc);
    RefusedAfterLeftover(text, Fetch(text, w, JobOf(first, runId), slots[first], sc).w, second, runId, slots[second],
                         error);
  }

  lemma {:induction false} CalmReturns(text: Schema.Text, w: World, key: JobKey, runId: RunId, slot: Slot,
                                       page: Client.Event, today: string)
    requires !ExistingActiveData(w.cat, key)
    ensures var sc := Calm(page, today, REMOVAL_FAILS);
            var e := Fetch(text, w, JobOf(key, runId), slot, sc);
            Accepted(text, w, key, sc) && e.end.Finished? && e.end.result.snapshot.Some?
  {
    var sc, req := Calm(page, today, REMOVAL_FAILS), JobOf(key, runId);
    var begun := ApplyAll(BeginActions(w.cat, req), w);
    var plan := PlanFetch(key, today, slot);
    BeginKeepsRest(w, req);
    CalmIsAccepted(text, w, key, page, today, REMOVAL_FAILS);
    CalmIsAccepted(text, begun, key, page, today, REMOVAL_FAILS);
    CleanBody(text, begun, plan, runId, false, sc);
    StagedHasDir(text, begun, plan, runId, EmptyAnswer(page), sc);
    PublishedClears(StagedWorld(text, begun, plan, runId, EmptyAnswer(page), sc), plan, runId, false, |begun.cat.files|,
                    EmptyAnswer(page), REMOVAL_FAILS);
  }

  // ---- an except clause that fails at its first call ----

  const AT_ONCE := Fault(0, false, NoDirectory)

  /** Recording the schema fails after the raw file was written, and so does the except clause. */
  function CutTwice(page: Client.Event, today: string): Script {
    Calm(page, today, NoFault).(stage := AT_ONCE, handler := AT_ONCE)
  }

  lemma {:induction false} CutTwiceBody(text: Schema.Text, w: World, plan: FetchPlan, runId: RunId,
                                        page: Client.Event, today: string)
    ensures var e := Body(text, w, plan, runId, false, CutTwice(page, today));
            e.end.Threw? && e.w.disk == Written(w, plan, runId, EmptyAnswer(page), CutTwice(page, today)).disk
  {
    var sc, result := CutTwice(page, today), EmptyAnswer(page);
    assert QueryWithRetry(sc.replies, sc.maxAttempts, 1) == Answer(result);
    var raw := RawContent(runId, plan.key, result.events, 1);
    var written := Written(w, plan, runId, result, sc);
    ApplyOne(Write(runId, RawTmp(plan.key), raw), w);
    CalmIsAccepted(text, w, plan.key, page, today, NoFault);
    var prepared := PreparedFor(text, w.cat, plan.key.apiName, result);
    CutStage(written, plan, runId, result, prepared, raw, sc);
  }

  lemma {:induction false} CutStage(w: World, plan: FetchPlan, runId: RunId, result: Client.QueryResult,
                                    prepared: Schema.Preparation, raw: Content, sc: Script)
    requires sc.stage == AT_ONCE
    ensures Accept(w, plan, runId, false, result, prepared, raw, sc) == Ending(w, Threw(UnknownError))
  {
    var lake := LakeContent(runId, plan.key, prepared.decision.schema, result.fields, prepared.items, sc.lakeBytes);
    var stage := StageActions(plan, runId, result, prepared.decision, raw, lake, sc);
    assert stage[0] == AddSchema(prepared.decision.schema) && stage[..0] == [];
    var size := AcceptBranches(w, plan, runId, false, result, prepared, raw, sc);
  }

  /** The fetch leaves its raw file in the temp directory of the run. */
  lemma {:induction false} CutTwiceLeavesFile(text: Schema.Text, w: World, key: JobKey, runId: RunId, slot: Slot,
                                              page: Client.Event, today: string)
    requires !ExistingActiveData(w.cat, key)
    ensures var e := Fetch(text, w, JobOf(key, runId), slot, CutTwice(page, today));
            e.end.Threw? && runId in e.w.disk.tmp && RawTmp(key) in e.w.disk.tmp[runId]
  {
    var req, sc := JobOf(key, runId), CutTwice(page, today);
    var begun := ApplyAll(BeginActions(w.cat, req), w);
    var plan := PlanFetch(key, today, slot);
    CutTwiceBody(text, begun, plan, runId, page, today);
    var body := Body(text, begun, plan, runId, false, sc);
    HandleClears(body, key, runId, false, sc.handler);
    HandlerCutAtOnce(body.w, key, runId, false, body.end.error, sc.handler);
  }

  /** After an except clause that failed at its first call, the next failing job of the run has in
      quarantine a directory with a file of the other job. */
  lemma {:induction false} CutExceptMixesJobs(text: Schema.Text, w: World, first: JobKey, second: JobKey,
                                              runId: RunId, slots: map<JobKey, Slot>, page: Client.Event,
                                              today: string, error: ErrorType)
    requires first in slots && second in slots && first != second && !ExistingActiveData(w.cat, first)
    requires var e := Fetch(text, w, JobOf(first, runId), slots[first], CutTwice(page, today));
             !ExistingActiveData(e.w.cat, second)
    ensures var e := Fetch(text, w, JobOf(first, runId), slots[first], CutTwice(page, today));
            var d := Fetch(text, e.w, JobOf(second, runId), slots[second], RefusedScript(error)).w.disk;
            var dir := QuarantineDir(runId, second, error);
            dir in d.quarantined && RawTmp(first) in d.quarantined[dir] && !QuarantineOwned(d)
  {
    CutTwiceLeavesFile(text, w, first, runId, slots[first], page, today);
    var e := Fetch(text, w, JobOf(first, runId), slots[first], CutTwice(page, today));
    RefusedAfterLeftover(text, e.w, second, runId, slots[second], error);
  }
}
