/** Whole fetches: the three ways a fetch can leave the world, whatever the faults, and the faults
    that are safe for the invariant. */
module Runs {
  import opened Wrappers
  import opened Errors
  import opened Catalog
  import opened Snapshots
  import opened Store
  import opened Safety
  import Schema
  import Client

  // ---- sequences of actions ----

  lemma {:induction false} ApplyAppend(a: seq<Action>, b: seq<Action>, w: World)
    ensures ApplyAll(a + b, w) == ApplyAll(b, ApplyAll(a, w))
    decreases |b|
  {
    if b == [] {
      assert a + b == a;
    } else {
      var n := |b| - 1;
      assert (a + b)[..|a + b| - 1] == a + b[..n];
      ApplyAppend(a, b[..n], w);
    }
  }

  lemma {:induction false} ApplyOne(a: Action, w: World)
    ensures ApplyAll([a], w) == Apply(a, w)
  {
    assert [a][..0] == [];
  }

  lemma {:induction false} ApplyCons(a: Action, rest: seq<Action>, w: World)
    ensures ApplyAll([a] + rest, w) == ApplyAll(rest, Apply(a, w))
  {
    ApplyAppend([a], rest, w);
    ApplyOne(a, w);
  }

  predicate LeavesFiles(a: Action) {
    !a.StageFile? && !a.Restage? && !a.Commit?
  }

  lemma {:induction false} FilesLeft(actions: seq<Action>, w: World)
    requires forall i | 0 <= i < |actions| :: LeavesFiles(actions[i])
    ensures ApplyAll(actions, w).cat.files == w.cat.files
  {
    if actions != [] {
      FilesLeft(actions[..|actions| - 1], w);
    }
  }

  /** No action ever removes a job row. */
  lemma {:induction false} JobRowsStay(actions: seq<Action>, w: World, key: JobKey)
    requires key in w.cat.jobs
    ensures key in ApplyAll(actions, w).cat.jobs
  {
    if actions != [] {
      JobRowsStay(actions[..|actions| - 1], w, key);
    }
  }

  lemma {:induction false} JobRowsStayPerform(actions: seq<Action>, fault: Fault, w: World, key: JobKey)
    requires key in w.cat.jobs
    ensures key in Perform(actions, fault, w).w.cat.jobs
  {
    if Strikes(fault, actions) {
      JobRowsStay(actions[..fault.at], w, key);
    } else {
      JobRowsStay(actions, w, key);
    }
  }

  // ---- staging ----

  ghost predicate AllLeaveFiles(actions: seq<Action>) {
    forall i | 0 <= i < |actions| :: LeavesFiles(actions[i])
  }

  lemma {:induction false} OneRowStaged(before: seq<Action>, row: FileRow, after: seq<Action>, w: World)
    requires AllLeaveFiles(before) && AllLeaveFiles(after)
    ensures ApplyAll(before + ([StageFile(row)] + after), w).cat.files == w.cat.files + [row]
  {
    ApplyAppend(before, [StageFile(row)] + after, w);
    FilesLeft(before, w);
    ApplyCons(StageFile(row), after, ApplyAll(before, w));
    FilesLeft(after, Apply(StageFile(row), ApplyAll(before, w)));
  }

  lemma {:induction false} TwoRowsStaged(before: seq<Action>, r: FileRow, l: FileRow, after: seq<Action>, w: World)
    requires AllLeaveFiles(before) && AllLeaveFiles(after)
    ensures ApplyAll(before + ([StageFile(r)] + ([StageFile(l)] + after)), w).cat.files == w.cat.files + [r, l]
  {
    var first := before + ([StageFile(r)] + []);
    assert before + ([StageFile(r)] + ([StageFile(l)] + after)) == first + ([] + ([StageFile(l)] + after));
    ApplyAppend(first, [] + ([StageFile(l)] + after), w);
    OneRowStaged(before, r, [], w);
    OneRowStaged([], l, after, ApplyAll(first, w));
  }

  lemma {:induction false} StagedRows(w: World, plan: FetchPlan, runId: RunId, result: Client.QueryResult,
                                      decision: Schema.Decision, raw: Content, lake: Content, sc: Script)
    ensures ApplyAll(StageActions(plan, runId, result, decision, raw, lake, sc), w).cat.files
            == w.cat.files + [RawRow(plan, runId, result, raw), LakeFileRow(plan, runId, result, decision.schema, lake)]
  {
    var before := RecordActions(decision) + [Write(runId, LakeTmp(plan.key), lake)];
    var r, l := RawRow(plan, runId, result, raw), LakeFileRow(plan, runId, result, decision.schema, lake);
    var after := [Decay(runId, RawTmp(plan.key), sc.rawRot), Decay(runId, LakeTmp(plan.key), sc.lakeRot)];
    assert StageActions(plan, runId, result, decision, raw, lake, sc)
        == before + ([StageFile(r)] + ([StageFile(l)] + after));
    TwoRowsStaged(before, r, l, after, w);
  }

  lemma {:induction false} StageHarmless(plan: FetchPlan, runId: RunId, result: Client.QueryResult,
                                         decision: Schema.Decision, raw: Content, lake: Content, sc: Script,
                                         slots: Slots, base: nat)
    requires plan.key in slots
    ensures AllHarmless(StageActions(plan, runId, result, decision, raw, lake, sc), plan.key, slots, base)
  {}

  lemma {:induction false} RejectHarmless(key: JobKey, runId: RunId, finishRun: bool, reason: ErrorType,
                                          size: Option<nat>, sha: Option<Digest>, slots: Slots, base: nat)
    requires key in slots
    ensures AllHarmless(RejectActions(key, runId, finishRun, reason, size, sha), key, slots, base)
  {}

  // ---- publishing ----

  /** Where the planned paths lie. */
  ghost predicate PlanOk(plan: FetchPlan, slots: Slots) {
    && plan.key in slots
    && plan.rawPath.RawPath? && plan.lakePath.LakePath?
    && Owns(plan.key, slots, plan.rawPath) && Owns(plan.key, slots, plan.lakePath)
  }

  /** Both staged files are in the temp directory and pass validation against their rows. */
  ghost predicate Validated(w: World, plan: FetchPlan, runId: RunId, rawId: FileId, lakeId: FileId) {
    && rawId < |w.cat.files| && lakeId < |w.cat.files|
    && FileFailures(w.cat.files[rawId], Find(DirOf(w.disk, runId), RawTmp(plan.key))) == []
    && FileFailures(w.cat.files[lakeId], Find(DirOf(w.disk, runId), LakeTmp(plan.key))) == []
  }

  lemma {:induction false} ValidatedIsPresent(row: FileRow, found: Option<Content>)
    requires FileFailures(row, found) == []
    ensures found.Some?
  {}

  lemma {:induction false} MovedDisk(d: Disk, runId: RunId, plan: FetchPlan)
    requires RawTmp(plan.key) in DirOf(d, runId) && LakeTmp(plan.key) in DirOf(d, runId)
    requires plan.rawPath.RawPath? && plan.lakePath.LakePath?
    ensures var e := ApplyDisk(Publish(runId, LakeTmp(plan.key), plan.lakePath),
                               ApplyDisk(Publish(runId, RawTmp(plan.key), plan.rawPath), d));
            && Find(e.final, plan.rawPath) == Some(DirOf(d, runId)[RawTmp(plan.key)])
            && Find(e.final, plan.lakePath) == Some(DirOf(d, runId)[LakeTmp(plan.key)])
  {}

  lemma {:induction false} MoveFour(w: World, plan: FetchPlan, runId: RunId, rawId: FileId, lakeId: FileId)
    ensures ApplyAll(MoveActions(plan, runId, rawId, lakeId), w)
            == World(ApplyDisk(Publish(runId, LakeTmp(plan.key), plan.lakePath),
                               ApplyDisk(Publish(runId, RawTmp(plan.key), plan.rawPath), w.disk)),
                     SetFileStatus(SetFileStatus(w.cat, rawId, Staged, None), lakeId, Staged, None))
  {
    var a, b := Publish(runId, RawTmp(plan.key), plan.rawPath), Publish(runId, LakeTmp(plan.key), plan.lakePath);
    var c, d := Restage(rawId), Restage(lakeId);
    assert MoveActions(plan, runId, rawId, lakeId) == [a] + ([b] + ([c] + [d]));
    ApplyCons(a, [b] + ([c] + [d]), w);
    ApplyCons(b, [c] + [d], Apply(a, w));
    ApplyCons(c, [d], Apply(b, Apply(a, w)));
    ApplyOne(d, Apply(c, Apply(b, Apply(a, w))));
  }

  /** A row of a staged file becomes a ready row once its content is at its path. */
  lemma {:induction false} MovedRow(w: World, x: World, slots: Slots, plan: FetchPlan, f: FileId, row: FileRow,
                                    found: Option<Content>)
    requires PlanOk(plan, slots) && f < |x.cat.files|
    requires x.cat.files[f] == row.(status := Staged, stagedIn := None)
    requires FileFailures(row, found) == [] && Find(x.disk.final, row.path) == found
    requires row.key == plan.key && row.apiName == plan.key.apiName
    requires (row.contentType.Raw? && row.path == plan.rawPath) || (row.contentType.Lake? && row.path == plan.lakePath)
    ensures ReadyRow(x, plan.key, slots, f, row.contentType)
  {}

  ghost function PublicationOf(plan: FetchPlan, runId: RunId, rawId: FileId, lakeId: FileId,
                               result: Client.QueryResult): Publication {
    Publication(plan.key, runId, rawId, lakeId, |result.items|, |result.items|, |result.events|)
  }

  /** The rows that staging has inserted. */
  ghost predicate HasStagedRows(w: World, plan: FetchPlan, runId: RunId, result: Client.QueryResult, rawId: FileId) {
    && rawId + 2 == |w.cat.files|
    && (exists raw :: w.cat.files[rawId] == RawRow(plan, runId, result, raw))
    && (exists lake, schema :: w.cat.files[rawId + 1] == LakeFileRow(plan, runId, result, schema, lake))
  }

  /** After the moves, a validated job is ready to be committed. */
  lemma {:induction false} MovesMakeReady(v: World, w: World, slots: Slots, plan: FetchPlan, runId: RunId,
                                          rawId: FileId, result: Client.QueryResult)
    requires PlanOk(plan, slots) && Apart(v, w, plan.key, slots) && plan.key in w.cat.jobs && |v.cat.files| <= rawId
    requires HasStagedRows(w, plan, runId, result, rawId) && Validated(w, plan, runId, rawId, rawId + 1)
    ensures Ready(v, ApplyAll(MoveActions(plan, runId, rawId, rawId + 1), w), slots,
                  PublicationOf(plan, runId, rawId, rawId + 1, result))
  {
    var lakeId := rawId + 1;
    var moves := MoveActions(plan, runId, rawId, lakeId);
    var x := ApplyAll(moves, w);
    var rawRow, lakeRow := w.cat.files[rawId], w.cat.files[lakeId];
    var rawFound, lakeFound := Find(DirOf(w.disk, runId), RawTmp(plan.key)),
        Find(DirOf(w.disk, runId), LakeTmp(plan.key));
    ApplyAllApart(moves, v, w, plan.key, slots);
    JobRowsStay(moves, w, plan.key);
    MoveFour(w, plan, runId, rawId, lakeId);
    ValidatedIsPresent(rawRow, rawFound);
    ValidatedIsPresent(lakeRow, lakeFound);
    MovedDisk(w.disk, runId, plan);
    MovedRow(w, x, slots, plan, rawId, rawRow, rawFound);
    MovedRow(w, x, slots, plan, lakeId, lakeRow, lakeFound);
  }

  // ---- the ways a fetch can end ----

  /** The same committed files, and the same jobs, files, snapshots and quarantine rows. */
  ghost predicate SameData(a: World, b: World) {
    && b.disk.final == a.disk.final && b.cat.jobs == a.cat.jobs && b.cat.files == a.cat.files
    && b.cat.snapshots == a.cat.snapshots && b.cat.quarantine == a.cat.quarantine
  }

  /** The fetch has not committed, and does not claim to have. */
  ghost predicate EndedApart(v: World, e: Ending, key: JobKey, slots: Slots)
    requires key in slots
  {
    && Apart(v, e.w, key, slots)
    && (e.end.Finished? ==>
          && e.end.result.key == key && e.end.result.snapshot.None? && e.end.result.recordCount == 0
          && !e.end.result.skipped)
  }

  /** The commit of what was ready in x has taken place, and the job may have changed since, but
      nothing that another job can see. */
  ghost predicate Past(v: World, x: World, y: World, slots: Slots, p: Publication)
    requires p.key in slots
  {
    && Ready(v, x, slots, p)
    && y.disk.final == x.disk.final
    && y.cat.files == CommittedCat(x.cat, p).files && y.cat.snapshots == CommittedCat(x.cat, p).snapshots
    && (forall k {:trigger Find(y.cat.jobs, k)} | k != p.key :: Find(y.cat.jobs, k) == Find(v.cat.jobs, k))
    && ApartQuarantine(v.cat, y.cat, p.key)
  }

  /** The fetch has committed what was ready in x, its job is done, and it says so if it returns. */
  ghost predicate CommittedVia(v: World, e: Ending, slots: Slots, x: World, p: Publication)
    requires p.key in slots
  {
    && Ready(v, x, slots, p) && SameData(CommittedWorld(x, p), e.w)
    && (e.end.Finished? ==>
          e.end.result.key == p.key && e.end.result.snapshot == Some(|v.cat.snapshots|)
          && e.end.result.recordCount == p.recordCount && !e.end.result.skipped)
  }

  /** The commit has taken place; and the job is done if no fault was unsafe, or if the fetch returns. */
  ghost predicate EndedCommitted(v: World, e: Ending, key: JobKey, slots: Slots, safe: bool)
    requires key in slots
  {
    exists x: World, p: Publication ::
      p.key == key && Past(v, x, e.w, slots, p) && (safe || e.end.Finished? ==> CommittedVia(v, e, slots, x, p))
  }

  ghost predicate Ended(v: World, e: Ending, key: JobKey, slots: Slots, safe: bool)
    requires key in slots
  {
    EndedApart(v, e, key, slots) || EndedCommitted(v, e, key, slots, safe)
  }

  // ---- the faults that matter ----

  /** The fault strikes at the update of the job row, right after the commit. */
  predicate AtUpdate(fault: Fault) {
    fault.Fault? && fault.at == 5
  }

  /** The end of the run raises, when the job is done. */
  predicate AtRunEnd(fault: Fault, finishRun: bool) {
    finishRun && fault.Fault? && fault.at == 6 && !fault.crash
  }

  /** No fault leaves the committed job undone: none strikes at the update of the job row, and if
      the end of the run raises, the except clause does not get as far as marking the job failed. */
  predicate SafeFaults(publish: Fault, handler: Fault, finishRun: bool) {
    !AtUpdate(publish) && (AtRunEnd(publish, finishRun) ==> handler.Fault? && handler.at == 0)
  }

  predicate Safe(sc: Script, finishRun: bool) {
    SafeFaults(sc.publish, sc.handler, finishRun)
  }

  /** Where the body of the try statement has got to once the commit has taken place. */
  ghost predicate LandedAs(v: World, e: Ending, slots: Slots, x: World, p: Publication, fault: Fault, finishRun: bool)
    requires p.key in slots
  {
    if AtUpdate(fault) then !e.end.Finished? && !IsDone(e.w.cat, p.key)
    else CommittedVia(v, e, slots, x, p) && (e.end.Threw? <==> AtRunEnd(fault, finishRun))
  }

  ghost predicate BodyCommitted(v: World, e: Ending, key: JobKey, slots: Slots, fault: Fault, finishRun: bool)
    requires key in slots
  {
    exists x: World, p: Publication ::
      p.key == key && Past(v, x, e.w, slots, p) && LandedAs(v, e, slots, x, p, fault, finishRun)
  }

  ghost predicate BodyReaches(v: World, e: Ending, key: JobKey, slots: Slots, fault: Fault, finishRun: bool)
    requires key in slots
  {
    EndedApart(v, e, key, slots) || BodyCommitted(v, e, key, slots, fault, finishRun)
  }

  // ---- the last stretch ----

  predicate Inert(a: Action) {
    a.EndRun? || a.CleanUp?
  }

  lemma {:induction false} InertKeepsData(actions: seq<Action>, w: World)
    requires forall i | 0 <= i < |actions| :: Inert(actions[i])
    ensures SameData(w, ApplyAll(actions, w))
  {
    if actions != [] {
      InertKeepsData(actions[..|actions| - 1], w);
    }
  }

  lemma {:induction false} CommitTwo(x: World, plan: FetchPlan, runId: RunId, rawId: FileId, lakeId: FileId,
                                     result: Client.QueryResult)
    ensures ApplyAll(CommitActions(plan, runId, rawId, lakeId, result), x)
            == CommittedWorld(x, PublicationOf(plan, runId, rawId, lakeId, result))
  {
    var a := Commit(plan.key.apiName, [rawId, lakeId], runId, plan.key);
    var b := FinishJob(plan.key, |result.items|, |result.items|, |result.events|);
    assert CommitActions(plan, runId, rawId, lakeId, result) == [a] + [b];
    ApplyCons(a, [b], x);
    ApplyOne(b, Apply(a, x));
  }

  function TailActions(finishRun: bool, runId: RunId): seq<Action> {
    EndActions(finishRun, runId, RunSucceeded) + [CleanUp(runId)]
  }

  /** The part of the last stretch that was carried out: before the commit only moves... */
  lemma {:induction false} PublishPrefix(plan: FetchPlan, runId: RunId, finishRun: bool, rawId: FileId, lakeId: FileId,
                                         result: Client.QueryResult, n: nat)
    ensures var all := PublishActions(plan, runId, finishRun, rawId, lakeId, result);
            && |all| == 7 + (if finishRun then 1 else 0)
            && (n <= 4 ==> all[..n] == MoveActions(plan, runId, rawId, lakeId)[..n])
            && (6 <= n <= |all| ==> all[..n] == MoveActions(plan, runId, rawId, lakeId)
                                               + (CommitActions(plan, runId, rawId, lakeId, result)
                                                  + TailActions(finishRun, runId)[..n - 6]))
            && (n < |all| ==> !all[n].Write?)
  {}

  lemma {:induction false} TailIsInert(moves: seq<Action>, commit: seq<Action>, tail: seq<Action>, w: World)
    requires forall i | 0 <= i < |tail| :: Inert(tail[i])
    ensures SameData(ApplyAll(commit, ApplyAll(moves, w)), ApplyAll(moves + (commit + tail), w))
  {
    ApplyAppend(moves, commit + tail, w);
    ApplyAppend(commit, tail, ApplyAll(moves, w));
    InertKeepsData(tail, ApplyAll(commit, ApplyAll(moves, w)));
  }

  /** ... and after it the commit and inert actions. */
  lemma {:induction false} PublishedData(w: World, plan: FetchPlan, runId: RunId, finishRun: bool, rawId: FileId,
                                         result: Client.QueryResult, n: nat)
    requires 6 <= n <= |PublishActions(plan, runId, finishRun, rawId, rawId + 1, result)|
    ensures SameData(CommittedWorld(ApplyAll(MoveActions(plan, runId, rawId, rawId + 1), w),
                                    PublicationOf(plan, runId, rawId, rawId + 1, result)),
                     ApplyAll(PublishActions(plan, runId, finishRun, rawId, rawId + 1, result)[..n], w))
  {
    PublishPrefix(plan, runId, finishRun, rawId, rawId + 1, result, n);
    CommitTwo(ApplyAll(MoveActions(plan, runId, rawId, rawId + 1), w), plan, runId, rawId, rawId + 1, result);
    TailIsInert(MoveActions(plan, runId, rawId, rawId + 1), CommitActions(plan, runId, rawId, rawId + 1, result),
                TailActions(finishRun, runId)[..n - 6], w);
  }

  ghost function Published(w: World, plan: FetchPlan, runId: RunId, finishRun: bool, rawId: FileId,
                           result: Client.QueryResult, fault: Fault): Ending
  {
    Conclude(Perform(PublishActions(plan, runId, finishRun, rawId, rawId + 1, result), fault, w),
             Finished(FetchResult(Some(runId), plan.key, Some(|w.cat.snapshots|), |result.items|, false)))
  }

  lemma {:induction false} PublishEarly(v: World, w: World, slots: Slots, plan: FetchPlan, runId: RunId,
                                        finishRun: bool, rawId: FileId, result: Client.QueryResult, fault: Fault)
    requires PlanOk(plan, slots) && Apart(v, w, plan.key, slots) && |v.cat.files| <= rawId
    requires fault.Fault? && fault.at <= 4
    ensures EndedApart(v, Published(w, plan, runId, finishRun, rawId, result, fault), plan.key, slots)
  {
    var all := PublishActions(plan, runId, finishRun, rawId, rawId + 1, result);
    PublishPrefix(plan, runId, finishRun, rawId, rawId + 1, result, fault.at);
    var before := ApplyAll(all[..fault.at], w);
    ApplyAllApart(all[..fault.at], v, w, plan.key, slots);
    InterruptedApart(all[fault.at], v, before, fault.residue, plan.key, slots);
  }

  /** Where a stretch stops. */
  function Reach(actions: seq<Action>, fault: Fault): nat {
    if Strikes(fault, actions) then fault.at else |actions|
  }

  /** How a stretch ends that is not cut short in a write. */
  lemma {:induction false} StopsAt(actions: seq<Action>, fault: Fault, w: World, end: End)
    requires Strikes(fault, actions) ==> !actions[fault.at].Write?
    ensures var e := Conclude(Perform(actions, fault, w), end);
            && e.w == ApplyAll(actions[..Reach(actions, fault)], w)
            && e.end == if !Strikes(fault, actions) then end
                        else if fault.crash then Died
                        else if actions[fault.at].CleanUp? then end else Threw(ErrorOf(actions[fault.at]))
  {
    assert actions[..|actions|] == actions;
  }

  /** The actions of the last stretch after the update of the job row. */
  lemma {:induction false} TailAction(plan: FetchPlan, runId: RunId, finishRun: bool, rawId: FileId,
                                      result: Client.QueryResult, n: nat)
    requires 6 <= n
    ensures var all := PublishActions(plan, runId, finishRun, rawId, rawId + 1, result);
            && 6 <= |all|
            && (n < |all| ==> if finishRun && n == 6 then all[n].EndRun? else all[n].CleanUp?)
            && (finishRun ==> 6 < |all|)
  {}

  /** How the last stretch ends if no fault strikes before the job row is updated. */
  lemma {:induction false} LateEnd(w: World, plan: FetchPlan, runId: RunId, finishRun: bool, rawId: FileId,
                                   result: Client.QueryResult, fault: Fault)
    requires fault.Fault? ==> fault.at > 5
    ensures var all := PublishActions(plan, runId, finishRun, rawId, rawId + 1, result);
            var e := Published(w, plan, runId, finishRun, rawId, result, fault);
            var end := Finished(FetchResult(Some(runId), plan.key, Some(|w.cat.snapshots|), |result.items|, false));
            && 6 <= Reach(all, fault) && e.w == ApplyAll(all[..Reach(all, fault)], w)
            && (e.end.Finished? ==> e.end == end) && (e.end.Threw? <==> AtRunEnd(fault, finishRun))
  {
    var all := PublishActions(plan, runId, finishRun, rawId, rawId + 1, result);
    TailAction(plan, runId, finishRun, rawId, result, if fault.Fault? then fault.at else 6);
    StopsAt(all, fault, w,
            Finished(FetchResult(Some(runId), plan.key, Some(|w.cat.snapshots|), |result.items|, false)));
  }

  /** A fault after the update of the job row, if any, leaves commit and update done. */
  lemma {:induction false} LateData(w: World, plan: FetchPlan, runId: RunId, finishRun: bool, rawId: FileId,
                                    result: Client.QueryResult, fault: Fault)
    requires fault.Fault? ==> fault.at > 5
    ensures var e := Published(w, plan, runId, finishRun, rawId, result, fault);
            var end := Finished(FetchResult(Some(runId), plan.key, Some(|w.cat.snapshots|), |result.items|, false));
            && SameData(CommittedWorld(ApplyAll(MoveActions(plan, runId, rawId, rawId + 1), w),
                                       PublicationOf(plan, runId, rawId, rawId + 1, result)), e.w)
            && (e.end.Finished? ==> e.end == end) && (e.end.Threw? <==> AtRunEnd(fault, finishRun))
  {
    var all := PublishActions(plan, runId, finishRun, rawId, rawId + 1, result);
    LateEnd(w, plan, runId, finishRun, rawId, result, fault);
    PublishedData(w, plan, runId, finishRun, rawId, result, Reach(all, fault));
  }

  /** The part of the last stretch before the update of the job row. */
  lemma {:induction false} PublishFive(plan: FetchPlan, runId: RunId, finishRun: bool, rawId: FileId, lakeId: FileId,
                                       result: Client.QueryResult)
    ensures var all := PublishActions(plan, runId, finishRun, rawId, lakeId, result);
            && |all| > 5 && all[5].FinishJob?
            && all[..5] == MoveActions(plan, runId, rawId, lakeId)
                           + [Commit(plan.key.apiName, [rawId, lakeId], runId, plan.key)]
  {}

  /** How the last stretch ends if a fault strikes at the update of the job row. */
  lemma {:induction false} UpdateEnd(w: World, plan: FetchPlan, runId: RunId, finishRun: bool, rawId: FileId,
                                     result: Client.QueryResult, fault: Fault)
    requires AtUpdate(fault)
    ensures var all := PublishActions(plan, runId, finishRun, rawId, rawId + 1, result);
            var e := Published(w, plan, runId, finishRun, rawId, result, fault);
            && |all| > 5 && e.w == ApplyAll(all[..5], w)
            && e.end == if fault.crash then Died else Threw(UnknownError)
  {
    PublishFive(plan, runId, finishRun, rawId, rawId + 1, result);
  }

  lemma {:induction false} CommitAfter(moves: seq<Action>, w: World, plan: FetchPlan, runId: RunId, rawId: FileId,
                                       result: Client.QueryResult)
    ensures var commit := Commit(plan.key.apiName, [rawId, rawId + 1], runId, plan.key);
            var x := ApplyAll(moves, w);
            ApplyAll(moves + [commit], w)
            == World(x.disk, CommittedCat(x.cat, PublicationOf(plan, runId, rawId, rawId + 1, result)))
  {
    var commit := Commit(plan.key.apiName, [rawId, rawId + 1], runId, plan.key);
    ApplyAppend(moves, [commit], w);
    ApplyOne(commit, ApplyAll(moves, w));
  }

  /** A fault at the update of the job row leaves the commit without the update. */
  lemma {:induction false} UpdateData(w: World, plan: FetchPlan, runId: RunId, finishRun: bool, rawId: FileId,
                                      result: Client.QueryResult, fault: Fault)
    requires AtUpdate(fault)
    ensures var e := Published(w, plan, runId, finishRun, rawId, result, fault);
            var x := ApplyAll(MoveActions(plan, runId, rawId, rawId + 1), w);
            && e.w == World(x.disk, CommittedCat(x.cat, PublicationOf(plan, runId, rawId, rawId + 1, result)))
            && e.end == if fault.crash then Died else Threw(UnknownError)
  {
    PublishFive(plan, runId, finishRun, rawId, rawId + 1, result);
    UpdateEnd(w, plan, runId, finishRun, rawId, result, fault);
    CommitAfter(MoveActions(plan, runId, rawId, rawId + 1), w, plan, runId, rawId, result);
  }

  lemma {:induction false} DoneIsPast(v: World, x: World, y: World, slots: Slots, p: Publication)
    requires p.key in slots && Ready(v, x, slots, p) && SameData(CommittedWorld(x, p), y)
    ensures Past(v, x, y, slots, p)
  {
    forall k | k != p.key
      ensures Find(y.cat.jobs, k) == Find(v.cat.jobs, k)
    {
      CommitJobs(v, x, slots, p, k);
    }
  }

  lemma {:induction false} UndoneIsPast(v: World, x: World, slots: Slots, p: Publication)
    requires p.key in slots && Ready(v, x, slots, p)
    ensures var y := World(x.disk, CommittedCat(x.cat, p));
            Past(v, x, y, slots, p) && !IsDone(y.cat, p.key)
  {
    forall k | k != p.key
      ensures Find(CommittedCat(x.cat, p).jobs, k) == Find(v.cat.jobs, k)
    {
      assert Find(x.cat.jobs, k) == Find(v.cat.jobs, k);
    }
  }

  lemma {:induction false} PublishLate(v: World, w: World, slots: Slots, plan: FetchPlan, runId: RunId,
                                       finishRun: bool, rawId: FileId, result: Client.QueryResult, fault: Fault)
    requires PlanOk(plan, slots) && Apart(v, w, plan.key, slots) && plan.key in w.cat.jobs && |v.cat.files| <= rawId
    requires HasStagedRows(w, plan, runId, result, rawId) && Validated(w, plan, runId, rawId, rawId + 1)
    requires fault.Fault? ==> fault.at > 4
    ensures BodyCommitted(v, Published(w, plan, runId, finishRun, rawId, result, fault), plan.key, slots, fault,
                          finishRun)
  {
    var e := Published(w, plan, runId, finishRun, rawId, result, fault);
    var x, p := ApplyAll(MoveActions(plan, runId, rawId, rawId + 1), w),
        PublicationOf(plan, runId, rawId, rawId + 1, result);
    MovesMakeReady(v, w, slots, plan, runId, rawId, result);
    if AtUpdate(fault) {
      UpdateData(w, plan, runId, finishRun, rawId, result, fault);
      UndoneIsPast(v, x, slots, p);
    } else {
      LateData(w, plan, runId, finishRun, rawId, result, fault);
      DoneIsPast(v, x, e.w, slots, p);
      assert CommittedVia(v, e, slots, x, p);
    }
    assert Past(v, x, e.w, slots, p) && LandedAs(v, e, slots, x, p, fault, finishRun);
  }

  // ---- the whole fetch ----

  /** A stretch of harmless actions with a result that claims nothing. */
  lemma {:induction false} ConcludeApart(actions: seq<Action>, fault: Fault, v: World, w: World, key: JobKey,
                                         slots: Slots, end: End)
    requires key in slots && AllHarmless(actions, key, slots, |v.cat.files|) && Apart(v, w, key, slots)
    requires end.Finished? ==>
               end.result.key == key && end.result.snapshot.None? && end.result.recordCount == 0 && !end.result.skipped
    ensures EndedApart(v, Conclude(Perform(actions, fault, w), end), key, slots)
  {
    PerformApart(actions, fault, v, w, key, slots);
  }

  /** How a rejected batch ends. */
  function Rejected(before: seq<Action>, w: World, key: JobKey, runId: RunId, finishRun: bool, reason: ErrorType,
                    size: Option<nat>, sha: Option<Digest>, fault: Fault): Ending
  {
    Conclude(Perform(before + RejectActions(key, runId, finishRun, reason, size, sha), fault, w), NoData(runId, key))
  }

  /** A batch that was staged without a fault is rejected or published. */
  lemma {:induction false} AcceptBranches(w: World, plan: FetchPlan, runId: RunId, finishRun: bool,
                                          result: Client.QueryResult, prepared: Schema.Preparation, raw: Content,
                                          sc: Script)
    returns (size: Option<nat>)
    ensures var lake := LakeContent(runId, plan.key, prepared.decision.schema, result.fields, prepared.items,
                                    sc.lakeBytes);
            var stage := StageActions(plan, runId, result, prepared.decision, raw, lake, sc);
            var e := Accept(w, plan, runId, finishRun, result, prepared, raw, sc);
            if Strikes(sc.stage, stage) then
              e == Conclude(Perform(stage, sc.stage, w), NoData(runId, plan.key)) && !e.end.Finished?
            else
              e == Rejected([], ApplyAll(stage, w), plan.key, runId, finishRun, ValidationFailed, size, None,
                            sc.publish)
              || (e == Published(ApplyAll(stage, w), plan, runId, finishRun, |w.cat.files|, result, sc.publish)
                  && StagedFailures(ApplyAll(stage, w), runId, plan, |w.cat.files|, |w.cat.files| + 1) == [])
  {
    var lake := LakeContent(runId, plan.key, prepared.decision.schema, result.fields, prepared.items, sc.lakeBytes);
    var stage := StageActions(plan, runId, result, prepared.decision, raw, lake, sc);
    var staged := Perform(stage, sc.stage, w).w;
    var dir := DirOf(staged.disk, runId);
    size := if RawTmp(plan.key) in dir then Some(dir[RawTmp(plan.key)].bytes) else None;
    assert [] + RejectActions(plan.key, runId, finishRun, ValidationFailed, size, None)
        == RejectActions(plan.key, runId, finishRun, ValidationFailed, size, None);
    assert Strikes(sc.stage, stage) ==> !stage[sc.stage.at].CleanUp?;
  }

  lemma {:induction false} RejectedEnded(before: seq<Action>, v: World, w: World, slots: Slots, key: JobKey,
                                         runId: RunId, finishRun: bool, reason: ErrorType, size: Option<nat>,
                                         sha: Option<Digest>, fault: Fault)
    requires key in slots && Apart(v, w, key, slots) && AllHarmless(before, key, slots, |v.cat.files|)
    ensures EndedApart(v, Rejected(before, w, key, runId, finishRun, reason, size, sha, fault), key, slots)
  {
    RejectHarmless(key, runId, finishRun, reason, size, sha, slots, |v.cat.files|);
    ConcludeApart(before + RejectActions(key, runId, finishRun, reason, size, sha), fault, v, w, key, slots,
                  NoData(runId, key));
  }

  lemma {:induction false} PublishedEnded(v: World, w: World, slots: Slots, plan: FetchPlan, runId: RunId,
                                          finishRun: bool, rawId: FileId, result: Client.QueryResult, fault: Fault)
    requires PlanOk(plan, slots) && Apart(v, w, plan.key, slots) && plan.key in w.cat.jobs && |v.cat.files| <= rawId
    requires HasStagedRows(w, plan, runId, result, rawId) && StagedFailures(w, runId, plan, rawId, rawId + 1) == []
    ensures BodyReaches(v, Published(w, plan, runId, finishRun, rawId, result, fault), plan.key, slots, fault,
                        finishRun)
  {
    if fault.Fault? && fault.at <= 4 {
      PublishEarly(v, w, slots, plan, runId, finishRun, rawId, result, fault);
    } else {
      PublishLate(v, w, slots, plan, runId, finishRun, rawId, result, fault);
    }
  }

  lemma {:induction false} StagedHasRows(w: World, plan: FetchPlan, runId: RunId, result: Client.QueryResult,
                                         decision: Schema.Decision, raw: Content, lake: Content, sc: Script)
    ensures HasStagedRows(ApplyAll(StageActions(plan, runId, result, decision, raw, lake, sc), w), plan, runId,
                          result, |w.cat.files|)
  {
    var staged, rawId := ApplyAll(StageActions(plan, runId, result, decision, raw, lake, sc), w), |w.cat.files|;
    StagedRows(w, plan, runId, result, decision, raw, lake, sc);
    assert staged.cat.files[rawId] == RawRow(plan, runId, result, raw);
    assert staged.cat.files[rawId + 1] == LakeFileRow(plan, runId, result, decision.schema, lake);
  }

  /** What was staged may be rejected or, if validation finds nothing, published. */
  lemma {:induction false} StagedApart(v: World, w: World, slots: Slots, plan: FetchPlan, runId: RunId,
                                       result: Client.QueryResult, decision: Schema.Decision, raw: Content,
                                       lake: Content, sc: Script)
    requires PlanOk(plan, slots) && Apart(v, w, plan.key, slots) && plan.key in w.cat.jobs
    ensures var staged := ApplyAll(StageActions(plan, runId, result, decision, raw, lake, sc), w);
            Apart(v, staged, plan.key, slots) && plan.key in staged.cat.jobs
  {
    var stage := StageActions(plan, runId, result, decision, raw, lake, sc);
    StageHarmless(plan, runId, result, decision, raw, lake, sc, slots, |v.cat.files|);
    ApplyAllApart(stage, v, w, plan.key, slots);
    JobRowsStay(stage, w, plan.key);
  }

  lemma {:induction false} StagedEnded(v: World, w: World, slots: Slots, plan: FetchPlan, runId: RunId,
                                       finishRun: bool, result: Client.QueryResult, decision: Schema.Decision,
                                       raw: Content, lake: Content, sc: Script, size: Option<nat>)
    requires PlanOk(plan, slots) && Apart(v, w, plan.key, slots) && plan.key in w.cat.jobs
    ensures var staged := ApplyAll(StageActions(plan, runId, result, decision, raw, lake, sc), w);
            && EndedApart(v, Rejected([], staged, plan.key, runId, finishRun, ValidationFailed, size, None,
                                      sc.publish), plan.key, slots)
            && (StagedFailures(staged, runId, plan, |w.cat.files|, |w.cat.files| + 1) == [] ==>
                  BodyReaches(v, Published(staged, plan, runId, finishRun, |w.cat.files|, result, sc.publish),
                              plan.key, slots, sc.publish, finishRun))
  {
    var staged := ApplyAll(StageActions(plan, runId, result, decision, raw, lake, sc), w);
    StagedApart(v, w, slots, plan, runId, result, decision, raw, lake, sc);
    StagedHasRows(w, plan, runId, result, decision, raw, lake, sc);
    RejectedEnded([], v, staged, slots, plan.key, runId, finishRun, ValidationFailed, size, None, sc.publish);
    if StagedFailures(staged, runId, plan, |w.cat.files|, |w.cat.files| + 1) == [] {
      PublishedEnded(v, staged, slots, plan, runId, finishRun, |w.cat.files|, result, sc.publish);
    }
  }

  lemma {:induction false} AcceptEnded(v: World, w: World, slots: Slots, plan: FetchPlan, runId: RunId,
                                       finishRun: bool, result: Client.QueryResult, prepared: Schema.Preparation,
                                       raw: Content, sc: Script)
    requires PlanOk(plan, slots) && Apart(v, w, plan.key, slots) && plan.key in w.cat.jobs
    ensures BodyReaches(v, Accept(w, plan, runId, finishRun, result, prepared, raw, sc), plan.key, slots, sc.publish,
                        finishRun)
  {
    var lake := LakeContent(runId, plan.key, prepared.decision.schema, result.fields, prepared.items, sc.lakeBytes);
    var stage := StageActions(plan, runId, result, prepared.decision, raw, lake, sc);
    var size := AcceptBranches(w, plan, runId, finishRun, result, prepared, raw, sc);
    if Strikes(sc.stage, stage) {
      StageHarmless(plan, runId, result, prepared.decision, raw, lake, sc, slots, |v.cat.files|);
      ConcludeApart(stage, sc.stage, v, w, plan.key, slots, NoData(runId, plan.key));
    } else {
      StagedEnded(v, w, slots, plan, runId, finishRun, result, prepared.decision, raw, lake, sc, size);
    }
  }

  lemma {:induction false} StoreEnded(text: Schema.Text, v: World, w: World, slots: Slots, plan: FetchPlan,
                                      runId: RunId, finishRun: bool, result: Client.QueryResult, sc: Script)
    requires PlanOk(plan, slots) && Apart(v, w, plan.key, slots) && plan.key in w.cat.jobs
    ensures BodyReaches(v, Store.Store(text, w, plan, runId, finishRun, result, sc), plan.key, slots, sc.publish,
                        finishRun)
  {
    var key, base := plan.key, |v.cat.files|;
    var raw := RawContent(runId, key, result.events, sc.rawBytes);
    var write := [Write(runId, RawTmp(key), raw)];
    PerformApart(write, sc.write, v, w, key, slots);
    if !Strikes(sc.write, write) {
      var written := ApplyAll(write, w);
      JobRowsStay(write, w, key);
      var prepared := Schema.Prepare(text, Schema.LatestSchema(written.cat.schemas, key.apiName), key.apiName,
                                     result.fields, result.items);
      if prepared.decision.Compatible() {
        AcceptEnded(v, written, slots, plan, runId, finishRun, result, prepared, raw, sc);
      } else {
        RejectedEnded(ChangeActions(prepared.decision), v, written, slots, key, runId, finishRun, SchemaIncompatible,
                      Some(raw.bytes), Some(Sha256(raw)), sc.stage);
      }
    }
  }

  lemma {:induction false} BodyEnded(text: Schema.Text, v: World, w: World, slots: Slots, plan: FetchPlan,
                                     runId: RunId, finishRun: bool, sc: Script)
    requires PlanOk(plan, slots) && Apart(v, w, plan.key, slots) && plan.key in w.cat.jobs
    ensures BodyReaches(v, Body(text, w, plan, runId, finishRun, sc), plan.key, slots, sc.publish, finishRun)
  {
    var reply := QueryWithRetry(sc.replies, sc.maxAttempts, 1);
    if reply.Answer? {
      StoreEnded(text, v, w, slots, plan, runId, finishRun, reply.result, sc);
    }
  }

  lemma {:induction false} HandlerHarmless(w: World, key: JobKey, runId: RunId, finishRun: bool, error: ErrorType,
                                           slots: Slots, base: nat)
    requires key in slots
    ensures AllHarmless(HandlerActions(w, key, runId, finishRun, error), key, slots, base)
  {}

  /** Actions that change nothing of a commit that has taken place. */
  predicate Quiet(a: Action, key: JobKey) {
    && LeavesFiles(a) && !a.Publish?
    && (a.BeginJob? ==> a.key == key) && (a.FinishJob? ==> a.key == key) && (a.FailJob? ==> a.key == key)
    && (a.NoteQuarantine? ==> a.entry.key == key)
  }

  ghost predicate AllQuiet(actions: seq<Action>, key: JobKey) {
    forall i | 0 <= i < |actions| :: Quiet(actions[i], key)
  }

  lemma {:induction false} QuietTables(a: Action, y: World, key: JobKey)
    requires Quiet(a, key)
    ensures var z := Apply(a, y);
            z.disk.final == y.disk.final && z.cat.files == y.cat.files && z.cat.snapshots == y.cat.snapshots
    ensures forall k | k != key :: Find(Apply(a, y).cat.jobs, k) == Find(y.cat.jobs, k)
  {}

  lemma {:induction false} QuietQuarantine(a: Action, c: Cat, d: Cat, key: JobKey)
    requires Quiet(a, key) && ApartQuarantine(c, d, key)
    ensures ApartQuarantine(c, ApplyCat(a, d), key)
  {}

  lemma {:induction false} QuietOne(a: Action, v: World, x: World, y: World, slots: Slots, p: Publication)
    requires p.key in slots && Quiet(a, p.key) && Past(v, x, y, slots, p)
    ensures Past(v, x, Apply(a, y), slots, p)
  {
    QuietTables(a, y, p.key);
    QuietQuarantine(a, v.cat, y.cat, p.key);
    forall k | k != p.key
      ensures Find(Apply(a, y).cat.jobs, k) == Find(v.cat.jobs, k)
    {
      assert Find(y.cat.jobs, k) == Find(v.cat.jobs, k);
    }
  }

  lemma {:induction false} QuietAll(actions: seq<Action>, v: World, x: World, y: World, slots: Slots, p: Publication)
    requires p.key in slots && AllQuiet(actions, p.key) && Past(v, x, y, slots, p)
    ensures Past(v, x, ApplyAll(actions, y), slots, p)
  {
    if actions != [] {
      var n := |actions| - 1;
      QuietAll(actions[..n], v, x, y, slots, p);
      QuietOne(actions[n], v, x, ApplyAll(actions[..n], y), slots, p);
    }
  }

  lemma {:induction false} QuietPerform(actions: seq<Action>, fault: Fault, v: World, x: World, y: World,
                                        slots: Slots, p: Publication)
    requires p.key in slots && AllQuiet(actions, p.key) && Past(v, x, y, slots, p)
    ensures Past(v, x, Perform(actions, fault, y).w, slots, p)
  {
    if Strikes(fault, actions) {
      QuietAll(actions[..fault.at], v, x, y, slots, p);
    } else {
      QuietAll(actions, v, x, y, slots, p);
    }
  }

  lemma {:induction false} HandlerQuiet(w: World, key: JobKey, runId: RunId, finishRun: bool, error: ErrorType)
    ensures AllQuiet(HandlerActions(w, key, runId, finishRun, error), key)
  {}

  /** An except clause that is cut short at its first call does nothing. */
  lemma {:induction false} HandlerCutAtOnce(w: World, key: JobKey, runId: RunId, finishRun: bool, error: ErrorType,
                                            fault: Fault)
    requires fault.Fault? && fault.at == 0
    ensures var f := Perform(HandlerActions(w, key, runId, finishRun, error), fault, w);
            f.w == w && f.Stop? && !f.end.Finished?
  {
    var actions := HandlerActions(w, key, runId, finishRun, error);
    assert actions[0] == FailJob(key, error) && actions[..0] == [];
  }

  lemma {:induction false} HandlerStaysPast(v: World, e: Ending, runId: RunId, finishRun: bool, fault: Fault,
                                            slots: Slots, x: World, p: Publication)
    requires p.key in slots && e.end.Threw? && Past(v, x, e.w, slots, p)
    ensures var h := Handle(e, p.key, runId, finishRun, fault);
            Past(v, x, h.w, slots, p) && !h.end.Finished?
  {
    HandlerQuiet(e.w, p.key, runId, finishRun, e.end.error);
    QuietPerform(HandlerActions(e.w, p.key, runId, finishRun, e.end.error), fault, v, x, e.w, slots, p);
  }

  lemma {:induction false} HandlerLeavesDone(v: World, e: Ending, runId: RunId, finishRun: bool, publish: Fault,
                                             fault: Fault, slots: Slots, x: World, p: Publication)
    requires p.key in slots && e.end.Threw? && LandedAs(v, e, slots, x, p, publish, finishRun)
    requires SafeFaults(publish, fault, finishRun)
    ensures CommittedVia(v, Handle(e, p.key, runId, finishRun, fault), slots, x, p)
  {
    HandlerCutAtOnce(e.w, p.key, runId, finishRun, e.end.error, fault);
  }

  lemma {:induction false} HandleCommitted(v: World, e: Ending, key: JobKey, runId: RunId, finishRun: bool,
                                           publish: Fault, fault: Fault, slots: Slots)
    requires key in slots && e.end.Threw? && BodyCommitted(v, e, key, slots, publish, finishRun)
    ensures EndedCommitted(v, Handle(e, key, runId, finishRun, fault), key, slots,
                           SafeFaults(publish, fault, finishRun))
  {
    var x: World, p: Publication :|
      p.key == key && Past(v, x, e.w, slots, p) && LandedAs(v, e, slots, x, p, publish, finishRun);
    HandlerStaysPast(v, e, runId, finishRun, fault, slots, x, p);
    if SafeFaults(publish, fault, finishRun) {
      HandlerLeavesDone(v, e, runId, finishRun, publish, fault, slots, x, p);
    }
  }

  lemma {:induction false} HandleEnded(v: World, e: Ending, key: JobKey, runId: RunId, finishRun: bool,
                                       publish: Fault, fault: Fault, slots: Slots)
    requires key in slots && BodyReaches(v, e, key, slots, publish, finishRun)
    ensures Ended(v, Handle(e, key, runId, finishRun, fault), key, slots, SafeFaults(publish, fault, finishRun))
  {
    if EndedApart(v, e, key, slots) {
      if e.end.Threw? {
        HandlerHarmless(e.w, key, runId, finishRun, e.end.error, slots, |v.cat.files|);
        ConcludeApart(HandlerActions(e.w, key, runId, finishRun, e.end.error), fault, v, e.w, key, slots, e.end);
      }
    } else if e.end.Threw? {
      HandleCommitted(v, e, key, runId, finishRun, publish, fault, slots);
    } else {
      var x: World, p: Publication :|
        p.key == key && Past(v, x, e.w, slots, p) && LandedAs(v, e, slots, x, p, publish, finishRun);
    }
  }

  lemma {:induction false} BeginHarmless(c: Cat, req: Request, slots: Slots, base: nat)
    requires req.key in slots
    ensures AllHarmless(BeginActions(c, req), req.key, slots, base)
  {}

  lemma {:induction false} BeginMakesRow(w: World, req: Request)
    ensures req.key in ApplyAll(BeginActions(w.cat, req), w).cat.jobs
  {
    var actions := BeginActions(w.cat, req);
    var n := |actions| - 1;
    assert actions[n].BeginJob? && actions[n].key == req.key;
  }

  lemma {:induction false} ApartItself(w: World, key: JobKey, slots: Slots)
    requires key in slots && !IsDone(w.cat, key)
    ensures Apart(w, w, key, slots)
  {}

  lemma {:induction false} UndoneFetchEnded(text: Schema.Text, w: World, req: Request, slots: Slots, sc: Script)
    requires !IsDone(w.cat, req.key) && req.key in slots
    ensures Ended(w, Fetch(text, w, req, slots[req.key], sc), req.key, slots, Safe(sc, req.finishRun))
  {
    var key := req.key;
    var plan := PlanFetch(key, sc.today, slots[key]);
    var begin := BeginActions(w.cat, req);
    ApartItself(w, key, slots);
    BeginHarmless(w.cat, req, slots, |w.cat.files|);
    PerformApart(begin, sc.begin, w, w, key, slots);
    if !Strikes(sc.begin, begin) {
      var begun, runId := ApplyAll(begin, w), RunOf(w.cat, req);
      BeginMakesRow(w, req);
      BodyEnded(text, w, begun, slots, plan, runId, req.finishRun, sc);
      HandleEnded(w, Body(text, begun, plan, runId, req.finishRun, sc), key, runId, req.finishRun, sc.publish,
                  sc.handler, slots);
    }
  }

  /** Whatever the faults, a fetch does nothing because the data is there, or ends apart, or has
      committed; and then its job is done unless a fault was unsafe. */
  lemma {:induction false} FetchEnded(text: Schema.Text, w: World, req: Request, slots: Slots, sc: Script)
    requires Orderly(w.cat) && req.key in slots
    ensures var e := Fetch(text, w, req, slots[req.key], sc);
            if IsDone(w.cat, req.key) then
              e == Ending(w, Finished(FetchResult(req.runId, req.key, LatestSnapshot(w.cat, req.key.apiName),
                                                  RecordedCount(w.cat, req.key), true)))
            else Ended(w, e, req.key, slots, Safe(sc, req.finishRun))
  {
    if !IsDone(w.cat, req.key) {
      UndoneFetchEnded(text, w, req, slots, sc);
    }
  }

  // ---- what every fetch keeps ----

  lemma {:induction false} SameDataSameInv(a: World, b: World, slots: Slots)
    requires Inv(a, slots) && SameData(a, b)
    ensures Inv(b, slots)
  {
    OthersKeepChain(a.cat, b.cat);
    forall f
      ensures Live(b.cat, f) <==> Live(a.cat, f)
    {}
    forall f | Live(b.cat, f)
      ensures Intact(b, f)
    {
      assert Intact(a, f);
    }
    forall k | IsDone(b.cat, k)
      ensures HasLakeFile(b.cat, k)
    {
      assert HasLakeFile(a.cat, k);
      var f :| Live(a.cat, f) && a.cat.files[f].key == k && a.cat.files[f].contentType.Lake?;
      assert Live(b.cat, f);
    }
  }

  /** Every fetch keeps the invariant, whatever the server, the clock and the storage do and
      wherever an exception or a crash strikes, unless it leaves the committed job undone; a fetch
      that returns never does. */
  lemma {:induction false} FetchKeepsInv(text: Schema.Text, w: World, req: Request, slots: Slots, sc: Script)
    requires SlotsDistinct(slots) && Inv(w, slots) && req.key in slots
    requires Safe(sc, req.finishRun) || Fetch(text, w, req, slots[req.key], sc).end.Finished?
    ensures Inv(Fetch(text, w, req, slots[req.key], sc).w, slots)
  {
    InvIsOrderly(w, slots);
    FetchEnded(text, w, req, slots, sc);
    var e := Fetch(text, w, req, slots[req.key], sc);
    if !IsDone(w.cat, req.key) {
      EndedKeepsInv(w, e, req.key, slots, Safe(sc, req.finishRun));
    }
  }

  lemma {:induction false} EndedKeepsInv(w: World, e: Ending, key: JobKey, slots: Slots, safe: bool)
    requires SlotsDistinct(slots) && Inv(w, slots) && key in slots && !IsDone(w.cat, key)
    requires Ended(w, e, key, slots, safe) && (safe || e.end.Finished?)
    ensures Inv(e.w, slots)
  {
    if EndedApart(w, e, key, slots) {
      ApartKeepsInv(w, e.w, key, slots);
    } else {
      var x: World, p: Publication :| p.key == key && Past(w, x, e.w, slots, p) && CommittedVia(w, e, slots, x, p);
      CommitKeepsInv(w, x, slots, p);
      SameDataSameInv(CommittedWorld(x, p), e.w, slots);
    }
  }

  // ---- runs ----

  datatype Command = Command(req: Request, sc: Script)

  /** The keys of all commands are in play... */
  ghost predicate Known(commands: seq<Command>, slots: Slots) {
    forall c | c in commands :: c.req.key in slots
  }

  /** ... and meets no unsafe fault. */
  ghost predicate Legal(commands: seq<Command>, slots: Slots) {
    Known(commands, slots) && forall c | c in commands :: Safe(c.sc, c.req.finishRun)
  }

  /** One fetch after the other, by one writer; after a crash the next one finds what is left. */
  ghost function RunAll(text: Schema.Text, w: World, slots: Slots, commands: seq<Command>): World
    requires Known(commands, slots)
    decreases |commands|
  {
    if commands == [] then w
    else
      var c := commands[0];
      RunAll(text, Fetch(text, w, c.req, slots[c.req.key], c.sc).w, slots, commands[1..])
  }
}
