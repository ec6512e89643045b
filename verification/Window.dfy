/** The window between the snapshot commit and the job being safely done: which faults in it break
    the invariant, exactly, and how an ordinary refetch then overwrites committed data. */
module Window {
  import opened Wrappers
  import opened Errors
  import opened Catalog
  import opened Snapshots
  import opened Store
  import opened Safety
  import opened Runs
  import opened Durability
  import opened Outcomes
  import Schema
  import Client

  /** An answer of one page without columns: every registry accepts it. */
  function EmptyAnswer(page: Client.Event): Client.QueryResult {
    Client.QueryResult([page], [], [])
  }

  /** The script of a fetch that gets this answer at once and meets no fault but the given one in
      its last stretch. */
  function Calm(page: Client.Event, today: string, publish: Fault): Script {
    Script([Answer(EmptyAnswer(page))], 3, today, 1, 1, NoRot, NoRot, NoFault, NoFault, NoFault, publish, NoFault)
  }

  lemma {:induction false} CalmIsAccepted(text: Schema.Text, w: World, key: JobKey, page: Client.Event, today: string,
                                          publish: Fault)
    ensures Accepted(text, w, key, Calm(page, today, publish))
    ensures QueryWithRetry(Calm(page, today, publish).replies, 3, 1) == Answer(EmptyAnswer(page))
  {
    var latest := Schema.LatestSchema(w.cat.schemas, key.apiName);
    if latest.Some? {
      var d := PreparedFor(text, w.cat, key.apiName, EmptyAnswer(page)).decision.schema;
      assert Schema.IncompatibleChanges(latest.value.fields, latest.value.types, d.fields, d.types) == {};
    }
  }

  /** The exception at the update of the job row, right after the commit. */
  const AFTER_COMMIT := Fault(5, false, NoDirectory)

  /** A live file that a refetch on the same day would overwrite: its job is not done. */
  ghost predicate Exposed(w: World, key: JobKey, today: string, f: FileId, content: Content) {
    && ChainOk(w.cat) && !IsDone(w.cat, key) && Live(w.cat, f)
    && w.cat.files[f].path == RawPath(key.apiName, today, key) && w.cat.files[f].sha == Sha256(content)
  }

  lemma {:induction false} HandlerLeavesUndone(w: World, key: JobKey, runId: RunId, finishRun: bool, error: ErrorType)
    requires key in w.cat.jobs
    ensures !IsDone(ApplyAll(HandlerActions(w, key, runId, finishRun, error), w).cat, key)
  {
    var actions := HandlerActions(w, key, runId, finishRun, error);
    assert actions == [actions[0]] + actions[1..] && actions[0] == FailJob(key, error);
    ApplyCons(actions[0], actions[1..], w);
    StaysUndone(actions[1..], Apply(actions[0], w), key);
  }

  lemma {:induction false} HandlerLeavesFiles(w: World, key: JobKey, runId: RunId, finishRun: bool, error: ErrorType)
    requires ChainOk(w.cat)
    ensures var z := ApplyAll(HandlerActions(w, key, runId, finishRun, error), w);
            && z.cat.files == w.cat.files && ChainOk(z.cat) && forall a :: HeadFiles(z.cat, a) == HeadFiles(w.cat, a)
  {
    var actions := HandlerActions(w, key, runId, finishRun, error);
    FilesLeft(actions, w);
    SnapshotsLeft(actions, w);
    OthersKeepChain(w.cat, ApplyAll(actions, w).cat);
  }

  lemma {:induction false} HandledKeepsExposed(e: Ending, key: JobKey, runId: RunId, finishRun: bool, today: string,
                                               f: FileId, content: Content)
    requires e.end.Threw? && key in e.w.cat.jobs && ChainOk(e.w.cat) && Live(e.w.cat, f)
    requires e.w.cat.files[f].path == RawPath(key.apiName, today, key) && e.w.cat.files[f].sha == Sha256(content)
    ensures Exposed(Handle(e, key, runId, finishRun, NoFault).w, key, today, f, content)
  {
    HandlerLeavesUndone(e.w, key, runId, finishRun, e.end.error);
    HandlerLeavesFiles(e.w, key, runId, finishRun, e.end.error);
  }

  lemma {:induction false} StaysUndone(actions: seq<Action>, w: World, key: JobKey)
    requires !IsDone(w.cat, key) && forall i | 0 <= i < |actions| :: !actions[i].FinishJob?
    ensures !IsDone(ApplyAll(actions, w).cat, key)
  {
    if actions != [] {
      StaysUndone(actions[..|actions| - 1], w, key);
    }
  }

  /** The catalog right after the commit: the chain is fine and the raw file is live. */
  lemma {:induction false} CommittedIsLive(w: World, x: World, p: Publication, key: JobKey, slots: Slots)
    requires ChainOk(w.cat) && key in slots && Apart(w, x, key, slots) && p.key == key
    requires |w.cat.files| <= p.rawId < |x.cat.files| && |w.cat.files| <= p.lakeId < |x.cat.files|
    requires x.cat.files[p.rawId].apiName == key.apiName
    ensures ChainOk(CommittedCat(x.cat, p)) && Live(CommittedCat(x.cat, p), p.rawId)
    ensures CommittedCat(x.cat, p).files[p.rawId] == CommittedRow(x.cat.files[p.rawId], |x.cat.snapshots|)
  {
    OthersKeepChain(w.cat, x.cat);
    CommitKeepsChain(x.cat, key.apiName, [p.rawId, p.lakeId], p.runId, key, key.params);
    CommittedHeads(x.cat, p, key.apiName);
  }

  /** A raw file whose job row exists and whose row has this path and hash. */
  ghost predicate RawFileOf(w: World, key: JobKey, today: string, f: FileId, content: Content) {
    && key in w.cat.jobs && f < |w.cat.files| && w.cat.files[f].apiName == key.apiName
    && w.cat.files[f].path == RawPath(key.apiName, today, key) && w.cat.files[f].sha == Sha256(content)
  }

  lemma {:induction false} CalmStaged(text: Schema.Text, v: World, w: World, slots: Slots, plan: FetchPlan,
                                      runId: RunId, page: Client.Event, today: string)
    requires PlanOk(plan, slots) && Apart(v, w, plan.key, slots) && plan.key in w.cat.jobs
    requires plan.rawPath == RawPath(plan.key.apiName, today, plan.key)
    ensures var staged := StagedWorld(text, w, plan, runId, EmptyAnswer(page), Calm(page, today, AFTER_COMMIT));
            && Apart(v, staged, plan.key, slots) && |staged.cat.files| == |w.cat.files| + 2
            && RawFileOf(staged, plan.key, today, |w.cat.files|, RawContent(runId, plan.key, [page], 1))
  {
    var sc, result, key := Calm(page, today, AFTER_COMMIT), EmptyAnswer(page), plan.key;
    var prepared := PreparedFor(text, w.cat, key.apiName, result);
    var raw := RawContent(runId, key, result.events, 1);
    var lake := LakeContent(runId, key, prepared.decision.schema, result.fields, prepared.items, 1);
    var stage := StageActions(plan, runId, result, prepared.decision, raw, lake, sc);
    var written := Written(w, plan, runId, result, sc);
    StagedRows(written, plan, runId, result, prepared.decision, raw, lake, sc);
    StageHarmless(plan, runId, result, prepared.decision, raw, lake, sc, slots, |v.cat.files|);
    ApplyApart(Write(runId, RawTmp(key), raw), v, w, key, slots);
    ApplyAllApart(stage, v, written, key, slots);
    JobRowsStay(stage, written, key);
  }

  lemma {:induction false} MovesKeepRawFile(v: World, w: World, slots: Slots, plan: FetchPlan, runId: RunId,
                                            rawId: FileId, today: string, content: Content)
    requires PlanOk(plan, slots) && Apart(v, w, plan.key, slots)
    requires |v.cat.files| <= rawId && rawId + 2 == |w.cat.files| && RawFileOf(w, plan.key, today, rawId, content)
    ensures var x := ApplyAll(MoveActions(plan, runId, rawId, rawId + 1), w);
            && Apart(v, x, plan.key, slots) && |x.cat.files| == rawId + 2
            && RawFileOf(x, plan.key, today, rawId, content)
  {
    var moves := MoveActions(plan, runId, rawId, rawId + 1);
    ApplyAllApart(moves, v, w, plan.key, slots);
    JobRowsStay(moves, w, plan.key);
    MoveFour(w, plan, runId, rawId, rawId + 1);
  }

  lemma {:induction false} CutPublish(v: World, w: World, slots: Slots, plan: FetchPlan, runId: RunId,
                                      finishRun: bool, rawId: FileId, result: Client.QueryResult, today: string,
                                      content: Content)
    requires ChainOk(v.cat) && PlanOk(plan, slots) && Apart(v, w, plan.key, slots)
    requires |v.cat.files| <= rawId && rawId + 2 == |w.cat.files| && RawFileOf(w, plan.key, today, rawId, content)
    ensures var e := Published(w, plan, runId, finishRun, rawId, result, AFTER_COMMIT);
            e.end.Threw? && ChainOk(e.w.cat) && Live(e.w.cat, rawId) && RawFileOf(e.w, plan.key, today, rawId, content)
  {
    var x := ApplyAll(MoveActions(plan, runId, rawId, rawId + 1), w);
    var p := PublicationOf(plan, runId, rawId, rawId + 1, result);
    MovesKeepRawFile(v, w, slots, plan, runId, rawId, today, content);
    UpdateData(w, plan, runId, finishRun, rawId, result, AFTER_COMMIT);
    CommittedIsLive(v, x, p, plan.key, slots);
    assert CommittedCat(x.cat, p).jobs == x.cat.jobs;
  }

  lemma {:induction false} CutBodyLeavesFileLive(text: Schema.Text, v: World, w: World, slots: Slots, plan: FetchPlan,
                                                 runId: RunId, finishRun: bool, page: Client.Event, today: string)
    requires ChainOk(v.cat) && PlanOk(plan, slots) && Apart(v, w, plan.key, slots) && plan.key in w.cat.jobs
    requires plan.rawPath == RawPath(plan.key.apiName, today, plan.key)
    ensures var e := Body(text, w, plan, runId, finishRun, Calm(page, today, AFTER_COMMIT));
            && e.end.Threw? && ChainOk(e.w.cat) && Live(e.w.cat, |w.cat.files|)
            && RawFileOf(e.w, plan.key, today, |w.cat.files|, RawContent(runId, plan.key, [page], 1))
  {
    var sc, result := Calm(page, today, AFTER_COMMIT), EmptyAnswer(page);
    CalmIsAccepted(text, w, plan.key, page, today, AFTER_COMMIT);
    CleanBody(text, w, plan, runId, finishRun, sc);
    CalmStaged(text, v, w, slots, plan, runId, page, today);
    CutPublish(v, StagedWorld(text, w, plan, runId, result, sc), slots, plan, runId, finishRun, |w.cat.files|, result,
               today, RawContent(runId, plan.key, [page], 1));
  }

  /** A fetch cut off right after its commit leaves a live file exposed. */
  lemma {:induction false} CutFetchExposes(text: Schema.Text, w: World, req: Request, slots: Slots,
                                           page: Client.Event, today: string)
    requires ChainOk(w.cat) && !IsDone(w.cat, req.key) && req.key in slots
    ensures var e := Fetch(text, w, req, slots[req.key], Calm(page, today, AFTER_COMMIT));
            Exposed(e.w, req.key, today, |w.cat.files|, RawContent(RunOf(w.cat, req), req.key, [page], 1))
  {
    var key, runId := req.key, RunOf(w.cat, req);
    var plan := PlanFetch(key, today, slots[key]);
    var begin := BeginActions(w.cat, req);
    var begun := ApplyAll(begin, w);
    ApartItself(w, key, slots);
    BeginHarmless(w.cat, req, slots, |w.cat.files|);
    ApplyAllApart(begin, w, w, key, slots);
    BeginMakesRow(w, req);
    BeginKeepsRest(w, req);
    CutBodyLeavesFileLive(text, w, begun, slots, plan, runId, req.finishRun, page, today);
    HandledKeepsExposed(Body(text, begun, plan, runId, req.finishRun, Calm(page, today, AFTER_COMMIT)),
                        key, runId, req.finishRun, today, |w.cat.files|, RawContent(runId, key, [page], 1));
  }

  lemma {:induction false} ExposedStaysLive(w: World, e: Ending, key: JobKey, slots: Slots, f: int)
    requires key in slots && ChainOk(w.cat) && Live(w.cat, f) && EndedCommitted(w, e, key, slots, true)
    ensures Live(e.w.cat, f) && e.w.cat.files[f] == w.cat.files[f]
  {
    var x: World, p: Publication :| p.key == key && Past(w, x, e.w, slots, p) && CommittedVia(w, e, slots, x, p);
    PastKeepsLive(w, x, e.w, slots, p, f);
  }

  lemma {:induction false} ChecksumTells(row: FileRow, before: Content, now: Content)
    requires row.sha == Sha256(before) && now != before
    ensures FileFailures(row, Some(now)) != []
  {
    assert ChecksumMismatch in FileFailures(row, Some(now));
  }

  lemma {:induction false} RunsDiffer(key: JobKey, page: Client.Event, first: Client.Event, now: RunId, before: RunId)
    requires now != before
    ensures RawContent(now, key, [page], 1) != RawContent(before, key, [first], 1)
  {
    assert RawContent(now, key, [page], 1).events[0].runId != RawContent(before, key, [first], 1).events[0].runId;
  }

  /** What an undisturbed refetch puts at the path of the raw file. */
  lemma {:induction false} RefetchOverwrites(text: Schema.Text, w: World, req: Request, slots: Slots,
                                             page: Client.Event, today: string)
    requires req.key in slots && !IsDone(w.cat, req.key)
    ensures var e := Fetch(text, w, req, slots[req.key], Calm(page, today, NoFault));
            && EndedCommitted(w, e, req.key, slots, true)
            && Find(e.w.disk.final, RawPath(req.key.apiName, today, req.key))
               == Some(RawContent(RunOf(w.cat, req), req.key, [page], 1))
  {
    var sc := Calm(page, today, NoFault);
    CalmIsAccepted(text, w, req.key, page, today, NoFault);
    CleanFetchCommits(text, w, req, slots[req.key], sc);
    UndoneFetchEnded(text, w, req, slots, sc);
    var result := FetchedFiles(text, w, req, slots[req.key], sc);
  }

  /** An undisturbed refetch of an exposed job on the same day, in another run, leaves a live file
      whose content is no longer what its row says. */
  lemma {:induction false} RefetchCorrupts(text: Schema.Text, w: World, req: Request, slots: Slots,
                                           page: Client.Event, today: string, f: FileId, runId: RunId,
                                           first: Client.Event)
    requires req.key in slots && RunOf(w.cat, req) != runId
    requires Exposed(w, req.key, today, f, RawContent(runId, req.key, [first], 1))
    ensures var e := Fetch(text, w, req, slots[req.key], Calm(page, today, NoFault));
            Live(e.w.cat, f) && !Intact(e.w, f)
  {
    var e := Fetch(text, w, req, slots[req.key], Calm(page, today, NoFault));
    RefetchOverwrites(text, w, req, slots, page, today);
    ExposedStaysLive(w, e, req.key, slots, f);
    RunsDiffer(req.key, page, first, RunOf(w.cat, req), runId);
    ChecksumTells(e.w.cat.files[f], RawContent(runId, req.key, [first], 1),
                  RawContent(RunOf(w.cat, req), req.key, [page], 1));
  }

  /** What the window costs: from any lake in order, for any job not done, a fetch cut off between
      its commit and the update of its job row, followed by an undisturbed fetch of the same job
      on the same day, leaves a live file whose content is not what its row says. */
  lemma {:induction false} WindowLosesData(text: Schema.Text, w: World, key: JobKey, slots: Slots, page: Client.Event,
                                           today: string)
    requires Inv(w, slots) && key in slots && !IsDone(w.cat, key)
    ensures var first := Request(key, None, false, "fetch");
            var cut := Fetch(text, w, first, slots[key], Calm(page, today, AFTER_COMMIT)).w;
            var second := Request(key, Some(|w.cat.runs| + 1), false, "fetch");
            var after := Fetch(text, cut, second, slots[key], Calm(page, today, NoFault)).w;
            Live(after.cat, |w.cat.files|) && !Intact(after, |w.cat.files|)
  {
    var first := Request(key, None, false, "fetch");
    CutFetchExposes(text, w, first, slots, page, today);
    var cut := Fetch(text, w, first, slots[key], Calm(page, today, AFTER_COMMIT)).w;
    var second := Request(key, Some(|w.cat.runs| + 1), false, "fetch");
    RefetchCorrupts(text, cut, second, slots, page, today, |w.cat.files|, |w.cat.runs|, page);
  }

  // ---- the exact window ----

  lemma {:induction false} CleanStaged(text: Schema.Text, v: World, w: World, slots: Slots, plan: FetchPlan,
                                       runId: RunId, result: Client.QueryResult, sc: Script)
    requires PlanOk(plan, slots) && Apart(v, w, plan.key, slots) && plan.key in w.cat.jobs
    requires CleanUntilPublish(sc)
    ensures var staged := StagedWorld(text, w, plan, runId, result, sc);
            && Apart(v, staged, plan.key, slots) && plan.key in staged.cat.jobs
            && HasStagedRows(staged, plan, runId, result, |w.cat.files|)
            && Validated(staged, plan, runId, |w.cat.files|, |w.cat.files| + 1)
  {
    var key, prepared := plan.key, PreparedFor(text, w.cat, plan.key.apiName, result);
    var raw := RawContent(runId, key, result.events, sc.rawBytes);
    var lake := LakeContent(runId, key, prepared.decision.schema, result.fields, prepared.items, sc.lakeBytes);
    var stage := StageActions(plan, runId, result, prepared.decision, raw, lake, sc);
    var written := Written(w, plan, runId, result, sc);
    StageHarmless(plan, runId, result, prepared.decision, raw, lake, sc, slots, |v.cat.files|);
    ApplyApart(Write(runId, RawTmp(key), raw), v, w, key, slots);
    ApplyAllApart(stage, v, written, key, slots);
    JobRowsStay(stage, written, key);
    StagedHasRows(written, plan, runId, result, prepared.decision, raw, lake, sc);
    CleanStage(w, plan, runId, result, prepared, sc);
  }

  lemma {:induction false} PerformStaysUndone(actions: seq<Action>, fault: Fault, w: World, key: JobKey)
    requires !IsDone(w.cat, key) && forall i | 0 <= i < |actions| :: !actions[i].FinishJob?
    ensures !IsDone(Perform(actions, fault, w).w.cat, key)
  {
    if Strikes(fault, actions) {
      StaysUndone(actions[..fault.at], w, key);
    } else {
      StaysUndone(actions, w, key);
    }
  }

  lemma {:induction false} FailedStaysUndone(rest: seq<Action>, w: World, key: JobKey, error: ErrorType)
    requires key in w.cat.jobs && forall i | 0 <= i < |rest| :: !rest[i].FinishJob?
    ensures !IsDone(ApplyAll([FailJob(key, error)] + rest, w).cat, key)
  {
    ApplyCons(FailJob(key, error), rest, w);
    StaysUndone(rest, Apply(FailJob(key, error), w), key);
  }

  lemma {:induction false} HandlerFails(w: World, key: JobKey, runId: RunId, finishRun: bool, error: ErrorType)
    returns (rest: seq<Action>)
    ensures HandlerActions(w, key, runId, finishRun, error) == [FailJob(key, error)] + rest
    ensures forall i | 0 <= i < |rest| :: !rest[i].FinishJob?
  {
    rest := HandlerActions(w, key, runId, finishRun, error)[1..];
  }

  /** An except clause that gets past its first call leaves the job undone. */
  lemma {:induction false} HandlerUndoes(w: World, key: JobKey, runId: RunId, finishRun: bool, error: ErrorType,
                                         fault: Fault)
    requires key in w.cat.jobs && (fault.Fault? ==> fault.at > 0)
    ensures !IsDone(Perform(HandlerActions(w, key, runId, finishRun, error), fault, w).w.cat, key)
  {
    var rest := HandlerFails(w, key, runId, finishRun, error);
    var actions := [FailJob(key, error)] + rest;
    if Strikes(fault, actions) {
      assert actions[..fault.at] == [FailJob(key, error)] + rest[..fault.at - 1];
      FailedStaysUndone(rest[..fault.at - 1], w, key, error);
    } else {
      FailedStaysUndone(rest, w, key, error);
    }
  }

  lemma {:induction false} UpdateIsUndone(e: Ending, key: JobKey, runId: RunId, finishRun: bool, handler: Fault)
    requires !IsDone(e.w.cat, key)
    ensures !IsDone(Handle(e, key, runId, finishRun, handler).w.cat, key)
  {
    if e.end.Threw? {
      PerformStaysUndone(HandlerActions(e.w, key, runId, finishRun, e.end.error), handler, e.w, key);
    }
  }

  lemma {:induction false} RunEndIsUndone(e: Ending, key: JobKey, runId: RunId, finishRun: bool, handler: Fault)
    requires key in e.w.cat.jobs && e.end.Threw? && (handler.Fault? ==> handler.at > 0)
    ensures !IsDone(Handle(e, key, runId, finishRun, handler).w.cat, key)
  {
    HandlerUndoes(e.w, key, runId, finishRun, e.end.error, handler);
  }

  /** After an unsafe fault the job is not done, whatever the except clause does. */
  lemma {:induction false} UnsafeIsUndone(v: World, e: Ending, slots: Slots, runId: RunId, finishRun: bool,
                                          publish: Fault, handler: Fault, x: World, p: Publication)
    requires p.key in slots && LandedAs(v, e, slots, x, p, publish, finishRun)
    requires !SafeFaults(publish, handler, finishRun)
    ensures !IsDone(Handle(e, p.key, runId, finishRun, handler).w.cat, p.key)
  {
    if AtUpdate(publish) {
      UpdateIsUndone(e, p.key, runId, finishRun, handler);
    } else {
      CommitJobs(v, x, slots, p, p.key);
      RunEndIsUndone(e, p.key, runId, finishRun, handler);
    }
  }

  /** The job is not done, but has a file in the latest snapshot. */
  ghost predicate LiveUndone(c: Cat, key: JobKey) {
    !IsDone(c, key) && exists f :: Live(c, f) && c.files[f].key == key
  }

  lemma {:induction false} LiveUndoneBreaks(w: World, slots: Slots, key: JobKey)
    requires LiveUndone(w.cat, key)
    ensures !Inv(w, slots)
  {}

  lemma {:induction false} UndoneIsLive(v: World, x: World, y: World, slots: Slots, p: Publication)
    requires p.key in slots && Listed(v.cat) && Past(v, x, y, slots, p) && !IsDone(y.cat, p.key)
    ensures LiveUndone(y.cat, p.key)
  {
    CommittedRows(v, x, y, slots, p);
    PastLiveIff(v, x, y, slots, p, p.lakeId);
    assert Live(y.cat, p.lakeId) && y.cat.files[p.lakeId].key == p.key;
  }

  lemma {:induction false} UnsafeLeavesUndone(v: World, e: Ending, key: JobKey, slots: Slots, runId: RunId,
                                              finishRun: bool, publish: Fault, handler: Fault)
    requires key in slots && Listed(v.cat) && BodyCommitted(v, e, key, slots, publish, finishRun)
    requires !SafeFaults(publish, handler, finishRun)
    ensures LiveUndone(Handle(e, key, runId, finishRun, handler).w.cat, key)
  {
    var x: World, p: Publication :|
      p.key == key && Past(v, x, e.w, slots, p) && LandedAs(v, e, slots, x, p, publish, finishRun);
    UnsafeIsUndone(v, e, slots, runId, finishRun, publish, handler, x, p);
    if e.end.Threw? {
      HandlerStaysPast(v, e, runId, finishRun, handler, slots, x, p);
    }
    UndoneIsLive(v, x, Handle(e, key, runId, finishRun, handler).w, slots, p);
  }

  /** A last stretch with an unsafe fault, and the except clause after it. */
  lemma {:induction false} UnsafeStretch(v: World, w: World, slots: Slots, plan: FetchPlan, runId: RunId,
                                         finishRun: bool, rawId: FileId, result: Client.QueryResult,
                                         publish: Fault, handler: Fault)
    requires PlanOk(plan, slots) && Listed(v.cat) && Apart(v, w, plan.key, slots) && plan.key in w.cat.jobs
    requires |v.cat.files| <= rawId && HasStagedRows(w, plan, runId, result, rawId)
             && Validated(w, plan, runId, rawId, rawId + 1)
    requires !SafeFaults(publish, handler, finishRun)
    ensures LiveUndone(Handle(Published(w, plan, runId, finishRun, rawId, result, publish), plan.key, runId, finishRun,
                              handler).w.cat, plan.key)
  {
    PublishLate(v, w, slots, plan, runId, finishRun, rawId, result, publish);
    UnsafeLeavesUndone(v, Published(w, plan, runId, finishRun, rawId, result, publish), plan.key, slots, runId,
                       finishRun, publish, handler);
  }

  lemma {:induction false} UnsafeStaged(text: Schema.Text, v: World, w: World, slots: Slots, plan: FetchPlan,
                                        runId: RunId, finishRun: bool, result: Client.QueryResult, sc: Script)
    requires PlanOk(plan, slots) && Listed(v.cat) && Apart(v, w, plan.key, slots) && plan.key in w.cat.jobs
    requires CleanUntilPublish(sc) && !Safe(sc, finishRun)
    ensures var staged := StagedWorld(text, w, plan, runId, result, sc);
            LiveUndone(Handle(Published(staged, plan, runId, finishRun, |w.cat.files|, result, sc.publish), plan.key,
                              runId, finishRun, sc.handler).w.cat, plan.key)
  {
    CleanStaged(text, v, w, slots, plan, runId, result, sc);
    UnsafeStretch(v, StagedWorld(text, w, plan, runId, result, sc), slots, plan, runId, finishRun, |w.cat.files|,
                  result, sc.publish, sc.handler);
  }

  lemma {:induction false} UnsafeBody(text: Schema.Text, v: World, w: World, slots: Slots, plan: FetchPlan,
                                      runId: RunId, finishRun: bool, sc: Script)
    requires PlanOk(plan, slots) && Listed(v.cat) && Apart(v, w, plan.key, slots) && plan.key in w.cat.jobs
    requires CleanUntilPublish(sc) && Accepted(text, w, plan.key, sc) && !Safe(sc, finishRun)
    ensures LiveUndone(Handle(Body(text, w, plan, runId, finishRun, sc), plan.key, runId, finishRun, sc.handler).w.cat,
                       plan.key)
  {
    var result := QueryWithRetry(sc.replies, sc.maxAttempts, 1).result;
    CleanBody(text, w, plan, runId, finishRun, sc);
    UnsafeStaged(text, v, w, slots, plan, runId, finishRun, result, sc);
  }

  lemma {:induction false} BegunIsApart(w: World, req: Request, slots: Slots)
    requires req.key in slots && !IsDone(w.cat, req.key)
    ensures var begun := ApplyAll(BeginActions(w.cat, req), w);
            && Apart(w, begun, req.key, slots) && req.key in begun.cat.jobs
            && begun.cat.schemas == w.cat.schemas
  {
    ApartItself(w, req.key, slots);
    BeginHarmless(w.cat, req, slots, |w.cat.files|);
    ApplyAllApart(BeginActions(w.cat, req), w, w, req.key, slots);
    BeginMakesRow(w, req);
    BeginKeepsRest(w, req);
  }

  /** An unsafe fault leaves a job with live files that is not done. */
  lemma {:induction false} UnsafeFetch(text: Schema.Text, w: World, req: Request, slots: Slots, sc: Script)
    requires Listed(w.cat) && req.key in slots && !IsDone(w.cat, req.key)
    requires CleanUntilPublish(sc) && Accepted(text, w, req.key, sc) && !Safe(sc, req.finishRun)
    ensures LiveUndone(Fetch(text, w, req, slots[req.key], sc).w.cat, req.key)
  {
    BegunIsApart(w, req, slots);
    UnsafeBody(text, w, ApplyAll(BeginActions(w.cat, req), w), slots, PlanFetch(req.key, sc.today, slots[req.key]),
               RunOf(w.cat, req), req.finishRun, sc);
  }

  /** The window is exact: for a fetch of an undone job that nothing disturbs before its last
      stretch and whose answer is accepted, the invariant survives if and only if no fault of
      that stretch, together with the except clause, leaves the committed job undone. */
  lemma {:induction false} WindowIsExact(text: Schema.Text, w: World, req: Request, slots: Slots, sc: Script)
    requires SlotsDistinct(slots) && Inv(w, slots) && req.key in slots && !IsDone(w.cat, req.key)
    requires CleanUntilPublish(sc) && Accepted(text, w, req.key, sc)
    ensures Inv(Fetch(text, w, req, slots[req.key], sc).w, slots) <==> Safe(sc, req.finishRun)
  {
    if Safe(sc, req.finishRun) {
      FetchKeepsInv(text, w, req, slots, sc);
    } else {
      InvIsOrderly(w, slots);
      UnsafeFetch(text, w, req, slots, sc);
      LiveUndoneBreaks(Fetch(text, w, req, slots[req.key], sc).w, slots, req.key);
    }
  }
}
