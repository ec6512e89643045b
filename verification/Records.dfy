/** What a fetch leaves in the catalog in each case, and how its job is classified afterwards. */
module Records {
  import opened Wrappers
  import opened Errors
  import opened Catalog
  import opened Store
  import opened Safety
  import opened Runs
  import opened Outcomes
  import opened TempDirs
  import opened Backfill
  import opened Convergence
  import opened RunRows
  import Schema
  import Client

  // ---- tables that a stretch of actions leaves alone ----

  predicate LeavesJobs(a: Action) {
    !a.BeginJob? && !a.FinishJob? && !a.FailJob?
  }

  ghost predicate AllLeaveJobs(actions: seq<Action>) {
    forall i | 0 <= i < |actions| :: LeavesJobs(actions[i])
  }

  lemma {:induction false} JobsLeft(actions: seq<Action>, w: World)
    requires AllLeaveJobs(actions)
    ensures ApplyAll(actions, w).cat.jobs == w.cat.jobs
  {
    if actions != [] {
      JobsLeft(actions[..|actions| - 1], w);
    }
  }

  lemma {:induction false} SchemasGrow(actions: seq<Action>, w: World, s: Schema.SchemaDef)
    requires s in w.cat.schemas
    ensures s in ApplyAll(actions, w).cat.schemas
  {
    if actions != [] {
      SchemasGrow(actions[..|actions| - 1], w, s);
    }
  }

  lemma {:induction false} QuarantineGrows(actions: seq<Action>, w: World, q: QuarantineRow)
    requires q in w.cat.quarantine
    ensures q in ApplyAll(actions, w).cat.quarantine
  {
    if actions != [] {
      QuarantineGrows(actions[..|actions| - 1], w, q);
    }
  }

  // ---- the end of a run ----

  /** The run row, if there is one and it is to be finished, has this status. */
  ghost predicate RunIs(c: Cat, runId: RunId, finishRun: bool, status: RunStatus) {
    finishRun && runId < |c.runs| ==> c.runs[runId].status == status
  }

  lemma {:induction false} EndSetsRun(before: seq<Action>, finishRun: bool, runId: RunId, status: RunStatus,
                                      after: seq<Action>, w: World)
    requires AllLeaveRuns(after)
    ensures RunIs(ApplyAll(before + (EndActions(finishRun, runId, status) + after), w).cat, runId, finishRun, status)
  {
    ApplyAppend(before, EndActions(finishRun, runId, status) + after, w);
    var x := ApplyAll(before, w);
    if finishRun {
      ApplyCons(EndRun(runId, status), after, x);
      RunsLeft(after, Apply(EndRun(runId, status), x));
    }
  }

  // ---- a job that has failed ----

  ghost predicate JobFailedWith(c: Cat, key: JobKey, error: ErrorType) {
    key in c.jobs && c.jobs[key].status.Failed? && c.jobs[key].lastError == Some(error)
  }

  lemma {:induction false} FailSetsJob(before: seq<Action>, key: JobKey, error: ErrorType, after: seq<Action>, w: World)
    requires key in w.cat.jobs && AllLeaveJobs(after)
    ensures JobFailedWith(ApplyAll(before + ([FailJob(key, error)] + after), w).cat, key, error)
  {
    ApplyAppend(before, [FailJob(key, error)] + after, w);
    JobRowsStay(before, w, key);
    ApplyCons(FailJob(key, error), after, ApplyAll(before, w));
    JobsLeft(after, Apply(FailJob(key, error), ApplyAll(before, w)));
  }

  lemma {:induction false} NoteIsKept(before: seq<Action>, q: QuarantineRow, after: seq<Action>, w: World)
    ensures q in ApplyAll(before + ([NoteQuarantine(q)] + after), w).cat.quarantine
  {
    ApplyAppend(before, [NoteQuarantine(q)] + after, w);
    ApplyCons(NoteQuarantine(q), after, ApplyAll(before, w));
    QuarantineGrows(after, Apply(NoteQuarantine(q), ApplyAll(before, w)), q);
  }

  /** The rejecting actions fail the job and its run and record the quarantine. */
  lemma {:induction false} RejectingRecords(before: seq<Action>, w: World, key: JobKey, runId: RunId, finishRun: bool,
                                            reason: ErrorType, size: Option<nat>, sha: Option<Digest>)
    requires key in w.cat.jobs
    ensures var c := ApplyAll(before + RejectActions(key, runId, finishRun, reason, size, sha), w).cat;
            && JobFailedWith(c, key, reason) && RunIs(c, runId, finishRun, RunFailed(Some(reason)))
            && QuarantineRow(runId, key, reason, size, sha) in c.quarantine
  {
    var q, fail := QuarantineRow(runId, key, reason, size, sha), FailJob(key, reason);
    var move := MoveToQuarantine(runId, QuarantineDir(runId, key, reason));
    var end := EndActions(finishRun, runId, RunFailed(Some(reason)));
    var all := before + RejectActions(key, runId, finishRun, reason, size, sha);
    assert all == before + [move, NoteQuarantine(q)] + ([fail] + end);
    assert all == before + [move] + ([NoteQuarantine(q)] + ([fail] + end));
    assert all == before + [move, NoteQuarantine(q), fail] + (end + []);
    FailSetsJob(before + [move, NoteQuarantine(q)], key, reason, end, w);
    NoteIsKept(before + [move], q, [fail] + end, w);
    EndSetsRun(before + [move, NoteQuarantine(q), fail], finishRun, runId, RunFailed(Some(reason)), [], w);
  }

  /** A rejection that is carried out has taken effect. */
  lemma {:induction false} RejectedRecords(before: seq<Action>, w: World, key: JobKey, runId: RunId, finishRun: bool,
                                           reason: ErrorType, size: Option<nat>, sha: Option<Digest>, fault: Fault)
    requires key in w.cat.jobs && forall i | 0 <= i < |before| :: !before[i].CleanUp?
    requires Rejected(before, w, key, runId, finishRun, reason, size, sha, fault).end.Finished?
    ensures var c := Rejected(before, w, key, runId, finishRun, reason, size, sha, fault).w.cat;
            && JobFailedWith(c, key, reason) && RunIs(c, runId, finishRun, RunFailed(Some(reason)))
            && QuarantineRow(runId, key, reason, size, sha) in c.quarantine
  {
    var all := before + RejectActions(key, runId, finishRun, reason, size, sha);
    assert forall i | 0 <= i < |all| :: !all[i].CleanUp?;
    RejectingRecords(before, w, key, runId, finishRun, reason, size, sha);
  }

  /** The except clause fails the job and its run, and records a quarantine iff there was
      something to move. */
  lemma {:induction false} HandledRecords(w: World, key: JobKey, runId: RunId, finishRun: bool, error: ErrorType)
    requires key in w.cat.jobs
    ensures var c := ApplyAll(HandlerActions(w, key, runId, finishRun, error), w).cat;
            && JobFailedWith(c, key, error) && RunIs(c, runId, finishRun, RunFailed(Some(error)))
            && (runId in w.disk.tmp ==> QuarantineRow(runId, key, error, None, None) in c.quarantine)
            && (runId !in w.disk.tmp ==> c.quarantine == w.cat.quarantine)
            && c.files == w.cat.files
  {
    var all := HandlerActions(w, key, runId, finishRun, error);
    var end := EndActions(finishRun, runId, RunFailed(Some(error)));
    var move := MoveToQuarantine(runId, QuarantineDir(runId, key, error));
    var q := QuarantineRow(runId, key, error, None, None);
    var note := if runId in w.disk.tmp then [NoteQuarantine(q)] else [];
    assert all == [] + ([FailJob(key, error)] + (end + [move] + note));
    FailSetsJob([], key, error, end + [move] + note, w);
    assert all == [FailJob(key, error)] + (end + ([move] + note));
    EndSetsRun([FailJob(key, error)], finishRun, runId, RunFailed(Some(error)), [move] + note, w);
    FilesLeft(all, w);
    if runId in w.disk.tmp {
      assert all == [FailJob(key, error)] + end + [move] + ([NoteQuarantine(q)] + []);
      NoteIsKept([FailJob(key, error)] + end + [move], q, [], w);
    } else {
      QuarantineRowsLeft(all, w);
    }
  }

  // ---- a job that has succeeded ----

  ghost predicate JobDoneWith(c: Cat, key: JobKey, items: nat, events: nat) {
    key in c.jobs && c.jobs[key].status.Done? && c.jobs[key].lastError.None?
    && c.jobs[key].recordCount == Some(items) && c.jobs[key].sourceItemCount == Some(items)
    && c.jobs[key].rawEventCount == Some(events)
  }

  lemma {:induction false} CommittedJob(x: World, p: Publication, e: World)
    requires p.key in x.cat.jobs && SameData(CommittedWorld(x, p), e) && p.sourceItemCount == p.recordCount
    ensures JobDoneWith(e.cat, p.key, p.recordCount, p.rawEventCount)
  {}

  lemma {:induction false} PublishedRecords(w: World, plan: FetchPlan, runId: RunId, finishRun: bool, rawId: FileId,
                                            result: Client.QueryResult, fault: Fault)
    requires plan.key in w.cat.jobs && Published(w, plan, runId, finishRun, rawId, result, fault).end.Finished?
    ensures var c := Published(w, plan, runId, finishRun, rawId, result, fault).w.cat;
            && JobDoneWith(c, plan.key, |result.items|, |result.events|) && RunIs(c, runId, finishRun, RunSucceeded)
  {
    var all := PublishActions(plan, runId, finishRun, rawId, rawId + 1, result);
    var n := Reach(all, fault);
    var first := MoveActions(plan, runId, rawId, rawId + 1) + CommitActions(plan, runId, rawId, rawId + 1, result);
    var end := EndActions(finishRun, runId, RunSucceeded);
    assert n >= 6 + |end| && all[..n] == first + (end + all[6 + |end|..n]) by {
      if Strikes(fault, all) {
        assert all[fault.at].CleanUp?;
      }
      assert all == first + (end + [CleanUp(runId)]);
    }
    assert all[..|all|] == all;
    EndSetsRun(first, finishRun, runId, RunSucceeded, all[6 + |end|..n], w);
    PublishedData(w, plan, runId, finishRun, rawId, result, n);
    var x := ApplyAll(MoveActions(plan, runId, rawId, rawId + 1), w);
    JobRowsStay(MoveActions(plan, runId, rawId, rawId + 1), w, plan.key);
    CommittedJob(x, PublicationOf(plan, runId, rawId, rawId + 1, result),
                 Published(w, plan, runId, finishRun, rawId, result, fault).w);
  }

  // ---- the schema change of an accepted or rejected batch ----

  /** Unless nothing has changed, the change table tells what the decision was. */
  ghost predicate ChangeRecorded(c: Cat, d: Schema.Decision) {
    d.changeType.Same? || SchemaChange(d.schema.apiName, d.schema, d.changeType, d.Compatible()) in c.schemaChanges
  }

  lemma {:induction false} ChangeStays(actions: seq<Action>, w: World, d: Schema.Decision)
    requires ChangeRecorded(w.cat, d)
    ensures ChangeRecorded(ApplyAll(actions, w).cat, d)
  {
    if actions != [] {
      ChangeStays(actions[..|actions| - 1], w, d);
    }
  }

  lemma {:induction false} ChangeStaysPerform(actions: seq<Action>, fault: Fault, w: World, d: Schema.Decision)
    requires ChangeRecorded(w.cat, d)
    ensures ChangeRecorded(Perform(actions, fault, w).w.cat, d)
  {
    if Strikes(fault, actions) {
      ChangeStays(actions[..fault.at], w, d);
    } else {
      ChangeStays(actions, w, d);
    }
  }

  lemma {:induction false} ChangeIsNoted(before: seq<Action>, d: Schema.Decision, after: seq<Action>, w: World)
    ensures ChangeRecorded(ApplyAll(before + (ChangeActions(d) + after), w).cat, d)
  {
    var x := ApplyAll(before, w);
    ApplyAppend(before, ChangeActions(d) + after, w);
    ApplyAppend(ChangeActions(d), after, x);
    if !d.changeType.Same? {
      ApplyOne(ChangeActions(d)[0], x);
    }
    ChangeStays(after, ApplyAll(ChangeActions(d), x), d);
  }

  lemma {:induction false} AcceptNotesChange(w: World, plan: FetchPlan, runId: RunId, finishRun: bool,
                                             result: Client.QueryResult, prepared: Schema.Preparation, raw: Content,
                                             sc: Script)
    ensures var e := Accept(w, plan, runId, finishRun, result, prepared, raw, sc);
            e.end.Finished? ==> ChangeRecorded(e.w.cat, prepared.decision)
  {
    var d := prepared.decision;
    var lake := LakeContent(runId, plan.key, d.schema, result.fields, prepared.items, sc.lakeBytes);
    var stage := StageActions(plan, runId, result, d, raw, lake, sc);
    var size := AcceptBranches(w, plan, runId, finishRun, result, prepared, raw, sc);
    var rest := stage[1 + |ChangeActions(d)|..];
    assert stage == [AddSchema(d.schema)] + (ChangeActions(d) + rest);
    ChangeIsNoted([AddSchema(d.schema)], d, rest, w);
    ChangeStaysPerform([] + RejectActions(plan.key, runId, finishRun, ValidationFailed, size, None), sc.publish,
                       ApplyAll(stage, w), d);
    ChangeStaysPerform(PublishActions(plan, runId, finishRun, |w.cat.files|, |w.cat.files| + 1, result), sc.publish,
                       ApplyAll(stage, w), d);
  }

  lemma {:induction false} RejectionNotesChange(d: Schema.Decision, w: World, key: JobKey, runId: RunId,
                                                finishRun: bool, reason: ErrorType, size: Option<nat>,
                                                sha: Option<Digest>, fault: Fault)
    ensures var e := Rejected(ChangeActions(d), w, key, runId, finishRun, reason, size, sha, fault);
            e.end.Finished? ==> ChangeRecorded(e.w.cat, d)
  {
    var all := ChangeActions(d) + RejectActions(key, runId, finishRun, reason, size, sha);
    assert forall i | 0 <= i < |all| :: !all[i].CleanUp?;
    assert [] + all == all;
    ChangeIsNoted([], d, RejectActions(key, runId, finishRun, reason, size, sha), w);
  }

  // ---- the whole fetch ----

  /** The schema that staging records stays recorded. */
  lemma {:induction false} StagedSchema(w: World, plan: FetchPlan, runId: RunId, result: Client.QueryResult,
                                        decision: Schema.Decision, raw: Content, lake: Content, sc: Script)
    ensures decision.schema in ApplyAll(StageActions(plan, runId, result, decision, raw, lake, sc), w).cat.schemas
  {
    var all := StageActions(plan, runId, result, decision, raw, lake, sc);
    var add := AddSchema(decision.schema);
    assert all == [add] + all[1..];
    ApplyCons(add, all[1..], w);
    SchemasGrow(all[1..], Apply(add, w), decision.schema);
  }

  lemma {:induction false} PublishedKeepsSchema(w: World, plan: FetchPlan, runId: RunId, finishRun: bool, rawId: FileId,
                                                result: Client.QueryResult, fault: Fault, s: Schema.SchemaDef)
    requires s in w.cat.schemas
    ensures s in Published(w, plan, runId, finishRun, rawId, result, fault).w.cat.schemas
  {
    var all := PublishActions(plan, runId, finishRun, rawId, rawId + 1, result);
    if Strikes(fault, all) {
      SchemasGrow(all[..fault.at], w, s);
    } else {
      SchemasGrow(all, w, s);
    }
  }

  /** The catalog after a fetch that returned: the job is done with these counts, its schema
      recorded and its run succeeded; or it failed for this reason and a quarantine says so. */
  ghost predicate Recorded(c: Cat, key: JobKey, runId: RunId, finishRun: bool, committed: bool,
                           result: Client.QueryResult, schema: Schema.SchemaDef, reason: ErrorType)
  {
    if committed then
      JobDoneWith(c, key, |result.items|, |result.events|) && schema in c.schemas
          && RunIs(c, runId, finishRun, RunSucceeded)
    else
      && JobFailedWith(c, key, reason) && RunIs(c, runId, finishRun, RunFailed(Some(reason)))
      && exists size, sha :: QuarantineRow(runId, key, reason, size, sha) in c.quarantine
  }

  lemma {:induction false} RejectedIsRecorded(before: seq<Action>, w: World, key: JobKey, runId: RunId,
                                              finishRun: bool, reason: ErrorType, size: Option<nat>,
                                              sha: Option<Digest>, fault: Fault, result: Client.QueryResult,
                                              schema: Schema.SchemaDef)
    requires key in w.cat.jobs && forall i | 0 <= i < |before| :: !before[i].CleanUp?
    ensures var e := Rejected(before, w, key, runId, finishRun, reason, size, sha, fault);
            e.end.Finished? ==>
              && e.end.result.snapshot.None?
              && Recorded(e.w.cat, key, runId, finishRun, false, result, schema, reason)
  {
    if Rejected(before, w, key, runId, finishRun, reason, size, sha, fault).end.Finished? {
      RejectedRecords(before, w, key, runId, finishRun, reason, size, sha, fault);
      RejectedHasNoData(before, w, key, runId, finishRun, reason, size, sha, fault);
    }
  }

  lemma {:induction false} PublishedIsRecorded(w: World, plan: FetchPlan, runId: RunId, finishRun: bool, rawId: FileId,
                                               result: Client.QueryResult, fault: Fault, schema: Schema.SchemaDef)
    requires plan.key in w.cat.jobs && schema in w.cat.schemas
    ensures var e := Published(w, plan, runId, finishRun, rawId, result, fault);
            e.end.Finished? ==> e.end.result.snapshot.Some?
                                && Recorded(e.w.cat, plan.key, runId, finishRun, true, result, schema, ValidationFailed)
  {
    PublishedKeepsSchema(w, plan, runId, finishRun, rawId, result, fault, schema);
    if Published(w, plan, runId, finishRun, rawId, result, fault).end.Finished? {
      PublishedRecords(w, plan, runId, finishRun, rawId, result, fault);
    }
  }

  lemma {:induction false} AcceptIsRecorded(w: World, plan: FetchPlan, runId: RunId, finishRun: bool,
                                            result: Client.QueryResult, prepared: Schema.Preparation, raw: Content,
                                            sc: Script)
    requires plan.key in w.cat.jobs
    ensures var e := Accept(w, plan, runId, finishRun, result, prepared, raw, sc);
            e.end.Finished? ==> Recorded(e.w.cat, plan.key, runId, finishRun, e.end.result.snapshot.Some?, result,
                                         prepared.decision.schema, ValidationFailed)
  {
    var lake := LakeContent(runId, plan.key, prepared.decision.schema, result.fields, prepared.items, sc.lakeBytes);
    var stage := StageActions(plan, runId, result, prepared.decision, raw, lake, sc);
    var staged := ApplyAll(stage, w);
    var size := AcceptBranches(w, plan, runId, finishRun, result, prepared, raw, sc);
    JobRowsStay(stage, w, plan.key);
    StagedSchema(w, plan, runId, result, prepared.decision, raw, lake, sc);
    RejectedIsRecorded([], staged, plan.key, runId, finishRun, ValidationFailed, size, None, sc.publish, result,
                       prepared.decision.schema);
    PublishedIsRecorded(staged, plan, runId, finishRun, |w.cat.files|, result, sc.publish, prepared.decision.schema);
  }

  /** How a body that returns has gone: the answer came, the raw file was written, and the batch
      was accepted or rejected by the schema decision. */
  lemma {:induction false} BodyFinished(text: Schema.Text, w: World, plan: FetchPlan, runId: RunId, finishRun: bool,
                                        sc: Script)
    requires Body(text, w, plan, runId, finishRun, sc).end.Finished?
    ensures var reply := QueryWithRetry(sc.replies, sc.maxAttempts, 1);
            && reply.Answer?
            && var raw := RawContent(runId, plan.key, reply.result.events, sc.rawBytes);
               var written := Written(w, plan, runId, reply.result, sc);
               var prepared := PreparedFor(text, w.cat, plan.key.apiName, reply.result);
               Body(text, w, plan, runId, finishRun, sc)
               == if prepared.decision.Compatible() then Accept(written, plan, runId, finishRun, reply.result,
                                                                prepared, raw, sc)
                  else Rejected(ChangeActions(prepared.decision), written, plan.key, runId, finishRun,
                                SchemaIncompatible, Some(raw.bytes), Some(Sha256(raw)), sc.stage)
  {
    var result := QueryWithRetry(sc.replies, sc.maxAttempts, 1).result;
    ApplyOne(Write(runId, RawTmp(plan.key), RawContent(runId, plan.key, result.events, sc.rawBytes)), w);
  }

  lemma {:induction false} BodyIsRecorded(text: Schema.Text, w: World, plan: FetchPlan, runId: RunId, finishRun: bool,
                                          sc: Script)
    requires plan.key in w.cat.jobs && Body(text, w, plan, runId, finishRun, sc).end.Finished?
    ensures var e := Body(text, w, plan, runId, finishRun, sc);
            var result := QueryWithRetry(sc.replies, sc.maxAttempts, 1).result;
            var d := PreparedFor(text, w.cat, plan.key.apiName, result).decision;
            Recorded(e.w.cat, plan.key, runId, finishRun, e.end.result.snapshot.Some?, result, d.schema,
                     if d.Compatible() then ValidationFailed else SchemaIncompatible)
  {
    BodyFinished(text, w, plan, runId, finishRun, sc);
    var result := QueryWithRetry(sc.replies, sc.maxAttempts, 1).result;
    var raw := RawContent(runId, plan.key, result.events, sc.rawBytes);
    var prepared := PreparedFor(text, w.cat, plan.key.apiName, result);
    var written := Written(w, plan, runId, result, sc);
    if prepared.decision.Compatible() {
      AcceptIsRecorded(written, plan, runId, finishRun, result, prepared, raw, sc);
    } else {
      RejectedIsRecorded(ChangeActions(prepared.decision), written, plan.key, runId, finishRun, SchemaIncompatible,
                         Some(raw.bytes), Some(Sha256(raw)), sc.stage, result, prepared.decision.schema);
    }
  }

  lemma {:induction false} BodyNotesChange(text: Schema.Text, w: World, plan: FetchPlan, runId: RunId,
                                           finishRun: bool, sc: Script)
    requires Body(text, w, plan, runId, finishRun, sc).end.Finished?
    ensures var result := QueryWithRetry(sc.replies, sc.maxAttempts, 1).result;
            ChangeRecorded(Body(text, w, plan, runId, finishRun, sc).w.cat,
                           PreparedFor(text, w.cat, plan.key.apiName, result).decision)
  {
    BodyFinished(text, w, plan, runId, finishRun, sc);
    var result := QueryWithRetry(sc.replies, sc.maxAttempts, 1).result;
    var raw := RawContent(runId, plan.key, result.events, sc.rawBytes);
    var prepared := PreparedFor(text, w.cat, plan.key.apiName, result);
    var written := Written(w, plan, runId, result, sc);
    if prepared.decision.Compatible() {
      AcceptNotesChange(written, plan, runId, finishRun, result, prepared, raw, sc);
    } else {
      RejectionNotesChange(prepared.decision, written, plan.key, runId, finishRun, SchemaIncompatible, Some(raw.bytes),
                           Some(Sha256(raw)), sc.stage);
    }
  }

  lemma {:induction false} FetchFinished(text: Schema.Text, w: World, req: Request, slot: Slot, sc: Script)
    requires !ExistingActiveData(w.cat, req.key) && Fetch(text, w, req, slot, sc).end.Finished?
    ensures Fetch(text, w, req, slot, sc)
            == Body(text, ApplyAll(BeginActions(w.cat, req), w), PlanFetch(req.key, sc.today, slot),
                    RunOf(w.cat, req), req.finishRun, sc)
  {
    var begin := BeginActions(w.cat, req);
    if !Strikes(sc.begin, begin) {
      var body := Body(text, ApplyAll(begin, w), PlanFetch(req.key, sc.today, slot), RunOf(w.cat, req), req.finishRun,
                       sc);
      assert !body.end.Threw?;
    }
  }

  /** What a fetch that returns has recorded: on success the counts of the job, its schema and the
      run; otherwise which of the two checks failed, on the job, the run and in quarantine. */
  lemma {:induction false} FetchIsRecorded(text: Schema.Text, w: World, req: Request, slot: Slot, sc: Script)
    requires !ExistingActiveData(w.cat, req.key) && Fetch(text, w, req, slot, sc).end.Finished?
    ensures var e := Fetch(text, w, req, slot, sc);
            var reply := QueryWithRetry(sc.replies, sc.maxAttempts, 1);
            && reply.Answer?
            && var d := PreparedFor(text, w.cat, req.key.apiName, reply.result).decision;
               && ChangeRecorded(e.w.cat, d)
               && Recorded(e.w.cat, req.key, RunOf(w.cat, req), req.finishRun, e.end.result.snapshot.Some?,
                           reply.result, d.schema, if d.Compatible() then ValidationFailed else SchemaIncompatible)
  {
    var plan := PlanFetch(req.key, sc.today, slot);
    var begun := ApplyAll(BeginActions(w.cat, req), w);
    FetchFinished(text, w, req, slot, sc);
    BeginKeepsRest(w, req);
    BeginMakesRow(w, req);
    BodyFinished(text, begun, plan, RunOf(w.cat, req), req.finishRun, sc);
    BodyIsRecorded(text, begun, plan, RunOf(w.cat, req), req.finishRun, sc);
    BodyNotesChange(text, begun, plan, RunOf(w.cat, req), req.finishRun, sc);
  }

  lemma {:induction false} FetchThrew(text: Schema.Text, w: World, req: Request, slot: Slot, sc: Script)
    requires !ExistingActiveData(w.cat, req.key) && sc.begin.NoFault? && sc.handler.NoFault?
    requires Fetch(text, w, req, slot, sc).end.Threw?
    ensures var e := Fetch(text, w, req, slot, sc);
            var body := Body(text, ApplyAll(BeginActions(w.cat, req), w), PlanFetch(req.key, sc.today, slot),
                             RunOf(w.cat, req), req.finishRun, sc);
            && body.end == e.end
            && e.w == ApplyAll(HandlerActions(body.w, req.key, RunOf(w.cat, req), req.finishRun, e.end.error), body.w)
  {}

  /** A fetch that raises, its except clause working, has failed its job and its run with the
      error it raises. */
  lemma {:induction false} RaisedIsRecorded(text: Schema.Text, w: World, req: Request, slot: Slot, sc: Script)
    requires !ExistingActiveData(w.cat, req.key) && sc.begin.NoFault? && sc.handler.NoFault?
    requires Fetch(text, w, req, slot, sc).end.Threw?
    ensures var e := Fetch(text, w, req, slot, sc);
            && JobFailedWith(e.w.cat, req.key, e.end.error)
            && RunIs(e.w.cat, RunOf(w.cat, req), req.finishRun, RunFailed(Some(e.end.error)))
  {
    var key, runId := req.key, RunOf(w.cat, req);
    var plan := PlanFetch(key, sc.today, slot);
    var begun := ApplyAll(BeginActions(w.cat, req), w);
    FetchThrew(text, w, req, slot, sc);
    BeginMakesRow(w, req);
    RowStaysBody(text, begun, plan, runId, req.finishRun, sc, key);
    HandledRecords(Body(text, begun, plan, runId, req.finishRun, sc).w, key, runId, req.finishRun,
                   Fetch(text, w, req, slot, sc).end.error);
  }

  // ---- how the job is classified afterwards ----

  lemma {:induction false} HandlerNotes(w: World, key: JobKey, runId: RunId, finishRun: bool, error: ErrorType)
    ensures ApplyAll(HandlerActions(w, key, runId, finishRun, error), w).cat.quarantine
            == w.cat.quarantine + if Gone(w, runId) then [] else [QuarantineRow(runId, key, error, None, None)]
  {
    var row := QuarantineRow(runId, key, error, None, None);
    var before := [FailJob(key, error)] + EndActions(finishRun, runId, RunFailed(Some(error)))
                  + [MoveToQuarantine(runId, QuarantineDir(runId, key, error))];
    QuarantineRowsLeft(before, w);
    if !Gone(w, runId) {
      ApplyAppend(before, [NoteQuarantine(row)], w);
      ApplyOne(NoteQuarantine(row), ApplyAll(before, w));
    } else {
      assert HandlerActions(w, key, runId, finishRun, error) == before;
    }
  }

  lemma {:induction false} OneMoreQuarantined(c: Cat, d: Cat, key: JobKey, row: QuarantineRow)
    requires row.key == key && d.quarantine == c.quarantine + [row]
    ensures QuarantinedJob(d, key)
  {
    assert d.quarantine[|c.quarantine|] == row;
  }

  /** A fetch that raises, its except clause working, leaves its job classified as quarantined
      exactly when there was a temp directory at the time of the raise, its own or one left over, or
      the job had been quarantined by then. */
  lemma {:induction false} RaisedIsQuarantinedIff(text: Schema.Text, w: World, req: Request, slot: Slot, sc: Script)
    requires !ExistingActiveData(w.cat, req.key) && sc.begin.NoFault? && sc.handler.NoFault?
    requires Fetch(text, w, req, slot, sc).end.Threw?
    ensures var body := BodyOf(text, w, req, slot, sc);
            StandingOf(Fetch(text, w, req, slot, sc).w.cat, req.key).QuarantinedExists?
            <==> !Gone(body.w, RunOf(w.cat, req)) || QuarantinedJob(body.w.cat, req.key)
  {
    var key, runId := req.key, RunOf(w.cat, req);
    var body, e := BodyOf(text, w, req, slot, sc), Fetch(text, w, req, slot, sc);
    FetchThrew(text, w, req, slot, sc);
    RaisedIsRecorded(text, w, req, slot, sc);
    HandlerNotes(body.w, key, runId, req.finishRun, e.end.error);
    if !Gone(body.w, runId) {
      OneMoreQuarantined(body.w.cat, e.w.cat, key, QuarantineRow(runId, key, e.end.error, None, None));
    }
  }

  lemma {:induction false} QuarantineBlocks(c: Cat, key: JobKey, q: QuarantineRow)
    requires q in c.quarantine && q.key == key && !IsDone(c, key)
    ensures StandingOf(c, key).QuarantinedExists?
  {}

  /** A new job that fails before anything is written can be retried: it is classified as failed. */
  lemma {:induction false} UnwrittenIsRetryable(text: Schema.Text, w: World, req: Request, slot: Slot, sc: Script)
    requires StandingOf(w.cat, req.key).Absent? && Gone(w, RunOf(w.cat, req))
    requires sc.begin.NoFault? && sc.handler.NoFault? && FailsUnwritten(sc)
    ensures var e := Fetch(text, w, req, slot, sc);
            e.end.Threw? ==> StandingOf(e.w.cat, req.key).FailedExists?
  {
    var key, runId := req.key, RunOf(w.cat, req);
    var e := Fetch(text, w, req, slot, sc);
    if e.end.Threw? {
      RaisedIsRecorded(text, w, req, slot, sc);
      UnwrittenLeavesNoQuarantine(text, w, req, slot, sc);
      UnwrittenLeavesNoFiles(text, w, req, slot, sc);
      NewFailureIsFailed(w.cat, e.w.cat, key, e.end.error);
    }
  }

  lemma {:induction false} UnwrittenLeavesNoFiles(text: Schema.Text, w: World, req: Request, slot: Slot, sc: Script)
    requires !ExistingActiveData(w.cat, req.key) && sc.begin.NoFault? && sc.handler.NoFault? && FailsUnwritten(sc)
    requires Fetch(text, w, req, slot, sc).end.Threw?
    ensures Fetch(text, w, req, slot, sc).w.cat.files == w.cat.files
  {
    var key, runId := req.key, RunOf(w.cat, req);
    var begun := ApplyAll(BeginActions(w.cat, req), w);
    FetchThrew(text, w, req, slot, sc);
    UnwrittenBody(text, begun, PlanFetch(key, sc.today, slot), runId, req.finishRun, sc);
    BeginKeepsRest(w, req);
    FilesLeft(HandlerActions(begun, key, runId, req.finishRun, Fetch(text, w, req, slot, sc).end.error), begun);
  }

  lemma {:induction false} NewFailureIsFailed(c: Cat, d: Cat, key: JobKey, error: ErrorType)
    requires StandingOf(c, key).Absent? && JobFailedWith(d, key, error)
    requires d.files == c.files && d.quarantine == c.quarantine
    ensures StandingOf(d, key).FailedExists?
  {}

  /** A fetch that returns leaves its job covered, or blocked by a quarantine: a plan that is not
      told to retry quarantined jobs will not run it again. */
  lemma {:induction false} ReturnedStanding(text: Schema.Text, w: World, req: Request, slots: Slots, sc: Script)
    requires SlotsDistinct(slots) && Inv(w, slots) && req.key in slots
    requires !IsDone(w.cat, req.key) && Fetch(text, w, req, slots[req.key], sc).end.Finished?
    ensures var e := Fetch(text, w, req, slots[req.key], sc);
            var standing := StandingOf(e.w.cat, req.key);
            && (if e.end.result.snapshot.Some? then standing.ActiveExists? else standing.QuarantinedExists?)
            && (PlanFor(standing, false).SkipExisting? || PlanFor(standing, false).BlockedQuarantined?)
  {
    var e := Fetch(text, w, req, slots[req.key], sc);
    FetchKeepsInv(text, w, req, slots, sc);
    FetchIsRecorded(text, w, req, slots[req.key], sc);
    DoneIffActive(e.w, slots, req.key);
    if e.end.result.snapshot.None? {
      var q :| q in e.w.cat.quarantine && q.key == req.key;
      QuarantineBlocks(e.w.cat, req.key, q);
    }
  }
}
