/** The temp directory that the jobs of a backfill share: between two jobs it is empty, so that every
    directory in quarantine holds files of its own job only. */
module SharedTemp {
  import opened Wrappers
  import opened Errors
  import opened Catalog
  import opened Store
  import opened Runs
  import opened Outcomes
  import opened TempDirs
  import opened Backfill
  import Schema
  import Client

  // ---- a fetch that returns leaves the directory empty ----

  /** The run has no temp directory, or one without files. */
  ghost predicate Empty(w: World, runId: RunId) {
    DirOf(w.disk, runId) == map[]
  }

  lemma {:induction false} StaysEmpty(actions: seq<Action>, w: World, runId: RunId)
    requires Empty(w, runId) && forall i | 0 <= i < |actions| :: !actions[i].Write?
    ensures Empty(ApplyAll(actions, w), runId)
  {
    if actions != [] {
      StaysEmpty(actions[..|actions| - 1], w, runId);
    }
  }

  /** Both files have been moved away. */
  lemma {:induction false} MovesEmpty(w: World, plan: FetchPlan, runId: RunId, rawId: FileId, lakeId: FileId)
    requires DirOf(w.disk, runId).Keys <= NamesOf(plan.key)
    ensures Empty(ApplyAll(MoveActions(plan, runId, rawId, lakeId), w), runId)
  {
    MoveFour(w, plan, runId, rawId, lakeId);
    var a := ApplyDisk(Publish(runId, RawTmp(plan.key), plan.rawPath), w.disk);
    var b := ApplyDisk(Publish(runId, LakeTmp(plan.key), plan.lakePath), a);
    assert DirOf(a, runId).Keys <= {LakeTmp(plan.key)};
    assert DirOf(b, runId).Keys == {};
  }

  lemma {:induction false} PublishBeginsWithMoves(plan: FetchPlan, runId: RunId, finishRun: bool, rawId: FileId,
                                                  result: Client.QueryResult, n: nat)
    requires 4 <= n <= |PublishActions(plan, runId, finishRun, rawId, rawId + 1, result)|
    ensures var all := PublishActions(plan, runId, finishRun, rawId, rawId + 1, result);
            all[..n] == MoveActions(plan, runId, rawId, rawId + 1) + all[4..n]
            && forall i | 4 <= i < |all| :: !all[i].Write?
  {}

  lemma {:induction false} LateIsEmpty(w: World, plan: FetchPlan, runId: RunId, finishRun: bool, rawId: FileId,
                                       result: Client.QueryResult, n: nat)
    requires DirOf(w.disk, runId).Keys <= NamesOf(plan.key)
    requires 4 <= n <= |PublishActions(plan, runId, finishRun, rawId, rawId + 1, result)|
    ensures Empty(ApplyAll(PublishActions(plan, runId, finishRun, rawId, rawId + 1, result)[..n], w), runId)
  {
    var all := PublishActions(plan, runId, finishRun, rawId, rawId + 1, result);
    var moves := MoveActions(plan, runId, rawId, rawId + 1);
    PublishBeginsWithMoves(plan, runId, finishRun, rawId, result, n);
    ApplyAppend(moves, all[4..n], w);
    MovesEmpty(w, plan, runId, rawId, rawId + 1);
    StaysEmpty(all[4..n], ApplyAll(moves, w), runId);
  }

  lemma {:induction false} PublishedEmpties(w: World, plan: FetchPlan, runId: RunId, finishRun: bool, rawId: FileId,
                                            result: Client.QueryResult, fault: Fault)
    requires DirOf(w.disk, runId).Keys <= NamesOf(plan.key)
    ensures var e := Published(w, plan, runId, finishRun, rawId, result, fault); e.end.Finished? ==> Empty(e.w, runId)
  {
    var all := PublishActions(plan, runId, finishRun, rawId, rawId + 1, result);
    var n := Reach(all, fault);
    PublishRemovesLast(plan, runId, finishRun, rawId, rawId + 1, result);
    if !Strikes(fault, all) || all[fault.at].CleanUp? {
      assert all[..|all|] == all;
      LateIsEmpty(w, plan, runId, finishRun, rawId, result, n);
    }
  }

  lemma {:induction false} AcceptEmpties(w: World, plan: FetchPlan, runId: RunId, finishRun: bool,
                                         result: Client.QueryResult, prepared: Schema.Preparation, raw: Content,
                                         sc: Script)
    requires OwnDirs(w, w, runId, plan.key)
    ensures var e := Accept(w, plan, runId, finishRun, result, prepared, raw, sc); e.end.Finished? ==> Empty(e.w, runId)
  {
    var lake := LakeContent(runId, plan.key, prepared.decision.schema, result.fields, prepared.items, sc.lakeBytes);
    var stage := StageActions(plan, runId, result, prepared.decision, raw, lake, sc);
    var staged := ApplyAll(stage, w);
    var size := AcceptBranches(w, plan, runId, finishRun, result, prepared, raw, sc);
    StageOwn(plan, runId, result, prepared.decision, raw, lake, sc);
    ApplyAllOwn(stage, w, w, runId, plan.key);
    RejectedClears([], staged, plan.key, runId, finishRun, ValidationFailed, size, None, sc.publish);
    PublishedEmpties(staged, plan, runId, finishRun, |w.cat.files|, result, sc.publish);
  }

  lemma {:induction false} StoreEmpties(text: Schema.Text, w: World, plan: FetchPlan, runId: RunId, finishRun: bool,
                                        result: Client.QueryResult, sc: Script)
    requires OwnDirs(w, w, runId, plan.key)
    ensures var e := Store.Store(text, w, plan, runId, finishRun, result, sc); e.end.Finished? ==> Empty(e.w, runId)
  {
    var key := plan.key;
    var raw := RawContent(runId, key, result.events, sc.rawBytes);
    var write := [Write(runId, RawTmp(key), raw)];
    if Strikes(sc.write, write) {
      assert write[sc.write.at].Write?;
    } else {
      var written := ApplyAll(write, w);
      ApplyAllOwn(write, w, w, runId, key);
      var prepared := PreparedFor(text, written.cat, key.apiName, result);
      if prepared.decision.Compatible() {
        AcceptEmpties(written, plan, runId, finishRun, result, prepared, raw, sc);
      } else {
        RejectedClears(ChangeActions(prepared.decision), written, key, runId, finishRun, SchemaIncompatible,
                       Some(raw.bytes), Some(Sha256(raw)), sc.stage);
      }
    }
  }

  /** An exception in the except clause comes after the move of the temp directory; a crash may
      strike anywhere, and so may everything else. */
  predicate Tidy(sc: Script, finishRun: bool) {
    CutsRemoval(sc.handler, finishRun) ==> sc.handler.crash
  }

  lemma {:induction false} HandleEmpties(e: Ending, key: JobKey, runId: RunId, finishRun: bool, fault: Fault)
    requires CutsRemoval(fault, finishRun) ==> fault.crash
    requires e.end.Finished? ==> Empty(e.w, runId)
    ensures var h := Handle(e, key, runId, finishRun, fault); !h.end.Died? ==> Empty(h.w, runId)
  {
    if e.end.Threw? {
      HandleClears(e, key, runId, finishRun, fault);
      HandlerLength(e.w, key, runId, finishRun, e.end.error);
    }
  }

  lemma {:induction false} HandlerLength(w: World, key: JobKey, runId: RunId, finishRun: bool, error: ErrorType)
    ensures |HandlerActions(w, key, runId, finishRun, error)| >= if finishRun then 3 else 2
  {}

  /** A fetch that starts with an empty directory and does not die ends with an empty one. */
  lemma {:induction false} FetchEmpties(text: Schema.Text, w: World, req: Request, slot: Slot, sc: Script)
    requires Empty(w, RunOf(w.cat, req)) && QuarantineOwned(w.disk) && Tidy(sc, req.finishRun)
    ensures var e := Fetch(text, w, req, slot, sc); !e.end.Died? ==> Empty(e.w, RunOf(w.cat, req))
  {
    var key, runId := req.key, RunOf(w.cat, req);
    var plan := PlanFetch(key, sc.today, slot);
    var begin := BeginActions(w.cat, req);
    if Strikes(sc.begin, begin) {
      BeginCutOwn(w, req, sc.begin);
    } else {
      var begun, reply := ApplyAll(begin, w), QueryWithRetry(sc.replies, sc.maxAttempts, 1);
      BeginOwn(w, req);
      if reply.Answer? {
        StoreEmpties(text, begun, plan, runId, req.finishRun, reply.result, sc);
      }
      HandleEmpties(Body(text, begun, plan, runId, req.finishRun, sc), key, runId, req.finishRun, sc.handler);
    }
  }

  // ---- whole backfills ----

  /** Every quarantined directory holds files of its own job, and every temp directory belongs to a
      run that the catalog knows. */
  ghost predicate OwnTemp(w: World) {
    TmpRunsExist(w) && QuarantineOwned(w.disk)
  }

  /** In addition the run is known, and its temp directory is empty unless the process has died. */
  ghost predicate OwnTempOf(w: World, runId: RunId, dead: bool) {
    OwnTemp(w) && runId < |w.cat.runs| && (!dead ==> Empty(w, runId))
  }

  lemma {:induction false} FetchKeepsOwnTemp(text: Schema.Text, w: World, req: Request, slot: Slot, sc: Script)
    requires req.runId.Some? && OwnTempOf(w, req.runId.value, false) && Tidy(sc, req.finishRun)
    ensures var e := Fetch(text, w, req, slot, sc); OwnTempOf(e.w, req.runId.value, e.end.Died?)
  {
    FetchKeepsOwn(text, w, req, slot, sc);
    FetchEmpties(text, w, req, slot, sc);
  }

  lemma {:induction false} JobKeepsOwnTemp(text: Schema.Text, w: World, s: Series, job: BackfillJob, runId: RunId,
                                           slot: Slot, sc: Script)
    requires OwnTempOf(w, runId, false) && Tidy(sc, false)
    ensures var run := RunJob(text, w, s, job, runId, slot, sc); OwnTempOf(run.w, runId, run.result.None?)
  {
    FetchKeepsOwnTemp(text, w, RequestFor(s, job, runId), slot, sc);
  }

  ghost predicate AllTidy(scripts: seq<Script>) {
    forall sc | sc in scripts :: Tidy(sc, false)
  }

  lemma {:induction false} JobsKeepOwnTemp(text: Schema.Text, w: World, s: Series, jobs: seq<BackfillJob>,
                                           runId: RunId, slots: map<JobKey, Slot>, scripts: seq<Script>,
                                           stopOnError: bool)
    requires |jobs| <= |scripts| && (forall j | j in jobs :: j.key in slots)
    requires OwnTempOf(w, runId, false) && AllTidy(scripts)
    ensures var p := RunJobs(text, w, s, jobs, runId, slots, scripts, stopOnError);
            OwnTempOf(p.w, runId, p.phase.Dead?)
    decreases |jobs|
  {
    if jobs != [] {
      var n := |jobs| - 1;
      JobsKeepOwnTemp(text, w, s, jobs[..n], runId, slots, scripts, stopOnError);
      var p := RunJobs(text, w, s, jobs[..n], runId, slots, scripts, stopOnError);
      if p.phase.Going? {
        JobKeepsOwnTemp(text, p.w, s, jobs[n], runId, slots[jobs[n].key], scripts[n]);
      }
    }
  }

  /** A whole backfill keeps every quarantined directory to files of its own job, crashes and failed
      removals included, and unless the process dies it leaves its run, which is a new one, without
      temp files. */
  lemma {:induction false} BackfillKeepsOwnTemp(text: Schema.Text, w: World, s: Series, jobs: seq<BackfillJob>,
                                                slots: map<JobKey, Slot>, scripts: seq<Script>, stopOnError: bool)
    requires |jobs| <= |scripts| && (forall j | j in jobs :: j.key in slots)
    requires OwnTemp(w) && AllTidy(scripts)
    ensures var p := Executed(text, w, s, jobs, slots, scripts, stopOnError);
            OwnTempOf(p.w, |w.cat.runs|, p.phase.Dead?)
  {
    JobsKeepOwnTemp(text, Apply(BeginRun("backfill"), w), s, jobs, |w.cat.runs|, slots, scripts, stopOnError);
  }

  // ---- when the directory itself is gone ----

  lemma {:induction false} FetchStaysGone(text: Schema.Text, w: World, req: Request, slot: Slot, sc: Script)
    requires Gone(w, RunOf(w.cat, req)) && Tidy(sc, req.finishRun) && !CleanUpFails(sc.publish, req.finishRun)
    ensures var e := Fetch(text, w, req, slot, sc); !e.end.Died? ==> Gone(e.w, RunOf(w.cat, req))
  {
    if !ExistingActiveData(w.cat, req.key) {
      FetchClearsTemp(text, w, req, slot, sc);
      var body := BodyOf(text, w, req, slot, sc);
      if body.end.Threw? {
        HandlerLength(body.w, req.key, RunOf(w.cat, req), req.finishRun, body.end.error);
      }
    }
  }

  lemma {:induction false} JobStaysGone(text: Schema.Text, w: World, s: Series, job: BackfillJob, runId: RunId,
                                        slot: Slot, sc: Script)
    requires Gone(w, runId) && Tidy(sc, false) && !CleanUpFails(sc.publish, false)
    ensures var run := RunJob(text, w, s, job, runId, slot, sc); run.result.Some? ==> Gone(run.w, runId)
  {
    FetchStaysGone(text, w, RequestFor(s, job, runId), slot, sc);
  }

  lemma {:induction false} JobsStayGone(text: Schema.Text, w: World, s: Series, jobs: seq<BackfillJob>, runId: RunId,
                                        slots: map<JobKey, Slot>, scripts: seq<Script>, stopOnError: bool)
    requires |jobs| <= |scripts| && (forall j | j in jobs :: j.key in slots) && Gone(w, runId)
    requires AllTidy(scripts) && forall sc | sc in scripts :: !CleanUpFails(sc.publish, false)
    ensures var p := RunJobs(text, w, s, jobs, runId, slots, scripts, stopOnError);
            !p.phase.Dead? ==> Gone(p.w, runId)
    decreases |jobs|
  {
    if jobs != [] {
      var n := |jobs| - 1;
      JobsStayGone(text, w, s, jobs[..n], runId, slots, scripts, stopOnError);
      var p := RunJobs(text, w, s, jobs[..n], runId, slots, scripts, stopOnError);
      if p.phase.Going? {
        JobStaysGone(text, p.w, s, jobs[n], runId, slots[jobs[n].key], scripts[n]);
      }
    }
  }

  /** If the removals after commits work as well, a backfill that does not die leaves its run without
      a temp directory. */
  lemma {:induction false} BackfillStaysClear(text: Schema.Text, w: World, s: Series, jobs: seq<BackfillJob>,
                                              slots: map<JobKey, Slot>, scripts: seq<Script>, stopOnError: bool)
    requires |jobs| <= |scripts| && (forall j | j in jobs :: j.key in slots) && TmpRunsExist(w)
    requires AllTidy(scripts) && forall sc | sc in scripts :: !CleanUpFails(sc.publish, false)
    ensures var p := Executed(text, w, s, jobs, slots, scripts, stopOnError);
            !p.phase.Dead? ==> Gone(p.w, |w.cat.runs|)
  {
    JobsStayGone(text, Apply(BeginRun("backfill"), w), s, jobs, |w.cat.runs|, slots, scripts, stopOnError);
  }

  // ---- from an empty lake ----

  /** A fetch under a run of its own, or a whole backfill. */
  datatype Operation =
    | OneFetch(command: Command)
    | WholeBackfill(s: Series, jobs: seq<BackfillJob>, scripts: seq<Script>, stopOnError: bool)

  ghost predicate CanOperate(op: Operation, slots: map<JobKey, Slot>) {
    match op
    case OneFetch(c) => c.req.key in slots && c.req.runId.None?
    case WholeBackfill(_, jobs, scripts, _) =>
      |jobs| <= |scripts| && (forall j | j in jobs :: j.key in slots) && AllTidy(scripts)
  }

  ghost function Operate(text: Schema.Text, w: World, slots: map<JobKey, Slot>, op: Operation): World
    requires CanOperate(op, slots)
  {
    match op
    case OneFetch(c) => Fetch(text, w, c.req, slots[c.req.key], c.sc).w
    case WholeBackfill(s, jobs, scripts, stopOnError) => Executed(text, w, s, jobs, slots, scripts, stopOnError).w
  }

  ghost function OperateAll(text: Schema.Text, w: World, slots: map<JobKey, Slot>, ops: seq<Operation>): World
    requires forall op | op in ops :: CanOperate(op, slots)
    decreases |ops|
  {
    if ops == [] then w else OperateAll(text, Operate(text, w, slots, ops[0]), slots, ops[1..])
  }

  lemma {:induction false} OperateKeepsOwnTemp(text: Schema.Text, w: World, slots: map<JobKey, Slot>, op: Operation)
    requires CanOperate(op, slots) && OwnTemp(w)
    ensures OwnTemp(Operate(text, w, slots, op))
  {
    match op
    case OneFetch(c) =>
      FetchKeepsOwn(text, w, c.req, slots[c.req.key], c.sc);
    case WholeBackfill(s, jobs, scripts, stopOnError) =>
      BackfillKeepsOwnTemp(text, w, s, jobs, slots, scripts, stopOnError);
  }

  lemma {:induction false} OperationsKeepOwnTemp(text: Schema.Text, w: World, slots: map<JobKey, Slot>,
                                                 ops: seq<Operation>)
    requires (forall op | op in ops :: CanOperate(op, slots)) && OwnTemp(w)
    ensures OwnTemp(OperateAll(text, w, slots, ops))
    decreases |ops|
  {
    if ops != [] {
      OperateKeepsOwnTemp(text, w, slots, ops[0]);
      OperationsKeepOwnTemp(text, Operate(text, w, slots, ops[0]), slots, ops[1..]);
    }
  }

  /** From an empty lake, over any fetches and backfills, with crashes anywhere: every directory in
      quarantine holds files of its own job only. */
  lemma {:induction false} QuarantineHoldsOwnFiles(text: Schema.Text, slots: map<JobKey, Slot>, ops: seq<Operation>,
                                                   q: QuarantineDir)
    requires forall op | op in ops :: CanOperate(op, slots)
    requires q in OperateAll(text, EMPTY_LAKE, slots, ops).disk.quarantined
    ensures OperateAll(text, EMPTY_LAKE, slots, ops).disk.quarantined[q].Keys <= NamesOf(q.key)
  {
    OperationsKeepOwnTemp(text, EMPTY_LAKE, slots, ops);
  }
}
