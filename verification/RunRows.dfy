/** The run table: which actions leave it alone, and that a fetch on behalf of a run that goes on
    does. */
module RunRows {
  import opened Wrappers
  import opened Errors
  import opened Catalog
  import opened Store
  import Schema
  import Client

  predicate LeavesRuns(a: Action) {
    !a.BeginRun? && !a.EndRun?
  }

  ghost predicate AllLeaveRuns(actions: seq<Action>) {
    forall i | 0 <= i < |actions| :: LeavesRuns(actions[i])
  }

  lemma {:induction false} RunsLeft(actions: seq<Action>, w: World)
    requires AllLeaveRuns(actions)
    ensures ApplyAll(actions, w).cat.runs == w.cat.runs
  {
    if actions != [] {
      RunsLeft(actions[..|actions| - 1], w);
    }
  }

  lemma {:induction false} PerformLeavesRuns(actions: seq<Action>, fault: Fault, w: World)
    requires AllLeaveRuns(actions)
    ensures Perform(actions, fault, w).w.cat.runs == w.cat.runs
  {
    RunsLeft(actions, w);
    if Strikes(fault, actions) {
      RunsLeft(actions[..fault.at], w);
    }
  }

  lemma {:induction false} RejectLeavesRuns(before: seq<Action>, w: World, key: JobKey, runId: RunId,
                                            reason: ErrorType, size: Option<nat>, sha: Option<Digest>, fault: Fault)
    requires AllLeaveRuns(before)
    ensures Perform(before + RejectActions(key, runId, false, reason, size, sha), fault, w).w.cat.runs == w.cat.runs
  {
    PerformLeavesRuns(before + RejectActions(key, runId, false, reason, size, sha), fault, w);
  }

  lemma {:induction false} StageLeaves(plan: FetchPlan, runId: RunId, result: Client.QueryResult,
                                       decision: Schema.Decision, raw: Content, lake: Content, sc: Script)
    ensures AllLeaveRuns(StageActions(plan, runId, result, decision, raw, lake, sc))
  {}

  lemma {:induction false} PublishLeaves(plan: FetchPlan, runId: RunId, rawId: FileId, lakeId: FileId,
                                         result: Client.QueryResult)
    ensures AllLeaveRuns(PublishActions(plan, runId, false, rawId, lakeId, result))
  {}

  lemma {:induction false} RejectLeaves(key: JobKey, runId: RunId, reason: ErrorType, size: Option<nat>,
                                        sha: Option<Digest>)
    ensures AllLeaveRuns(RejectActions(key, runId, false, reason, size, sha))
  {}

  lemma {:induction false} AcceptLeavesRuns(w: World, plan: FetchPlan, runId: RunId, result: Client.QueryResult,
                                            prepared: Schema.Preparation, raw: Content, sc: Script)
    ensures Accept(w, plan, runId, false, result, prepared, raw, sc).w.cat.runs == w.cat.runs
  {
    var lake := LakeContent(runId, plan.key, prepared.decision.schema, result.fields, prepared.items, sc.lakeBytes);
    var stage := StageActions(plan, runId, result, prepared.decision, raw, lake, sc);
    var staged := Perform(stage, sc.stage, w).w;
    StageLeaves(plan, runId, result, prepared.decision, raw, lake, sc);
    PerformLeavesRuns(stage, sc.stage, w);
    var dir := DirOf(staged.disk, runId);
    var size := if RawTmp(plan.key) in dir then Some(dir[RawTmp(plan.key)].bytes) else None;
    RejectLeaves(plan.key, runId, ValidationFailed, size, None);
    PerformLeavesRuns(RejectActions(plan.key, runId, false, ValidationFailed, size, None), sc.publish, staged);
    PublishLeaves(plan, runId, |w.cat.files|, |w.cat.files| + 1, result);
    PerformLeavesRuns(PublishActions(plan, runId, false, |w.cat.files|, |w.cat.files| + 1, result), sc.publish, staged);
  }

  lemma {:induction false} BodyLeavesRuns(text: Schema.Text, w: World, plan: FetchPlan, runId: RunId, sc: Script)
    ensures Body(text, w, plan, runId, false, sc).w.cat.runs == w.cat.runs
  {
    var reply := QueryWithRetry(sc.replies, sc.maxAttempts, 1);
    if reply.Answer? {
      var result := reply.result;
      var raw := RawContent(runId, plan.key, result.events, sc.rawBytes);
      var write := [Write(runId, RawTmp(plan.key), raw)];
      PerformLeavesRuns(write, sc.write, w);
      var written := Perform(write, sc.write, w).w;
      var prepared := Schema.Prepare(text, Schema.LatestSchema(written.cat.schemas, plan.key.apiName), plan.key.apiName,
                                     result.fields, result.items);
      AcceptLeavesRuns(written, plan, runId, result, prepared, raw, sc);
      RejectLeavesRuns(ChangeActions(prepared.decision), written, plan.key, runId, SchemaIncompatible, Some(raw.bytes),
                       Some(Sha256(raw)), sc.stage);
    }
  }

  /** A fetch that belongs to a run and is not to finish it leaves the run table as it is, however it
      ends. */
  lemma {:induction false} FetchLeavesRuns(text: Schema.Text, w: World, req: Request, slot: Slot, sc: Script)
    requires req.runId.Some? && !req.finishRun
    ensures Fetch(text, w, req, slot, sc).w.cat.runs == w.cat.runs
  {
    var key, runId := req.key, RunOf(w.cat, req);
    var plan := PlanFetch(key, sc.today, slot);
    var begin := BeginActions(w.cat, req);
    PerformLeavesRuns(begin, sc.begin, w);
    var begun := Perform(begin, sc.begin, w).w;
    BodyLeavesRuns(text, begun, plan, runId, sc);
    var body := Body(text, begun, plan, runId, false, sc);
    if body.end.Threw? {
      PerformLeavesRuns(HandlerActions(body.w, key, runId, false, body.end.error), sc.handler, body.w);
    }
  }
}
