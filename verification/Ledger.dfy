/** The catalog after a fetch that returns, in closed form: step by step as it is written, the fetch
    amounts to one change of the whole catalog. */
module Ledger {
  import opened Wrappers
  import opened Errors
  import opened Catalog
  import opened Store
  import opened Safety
  import opened Runs
  import opened Outcomes
  import opened Backfill
  import opened TempDirs
  import opened Records
  import opened Scripts
  import Schema
  import Client

  // ---- the closed form ----

  /** The run that a request belongs to: the one it names, or a new one. */
  function RunIdOf(c: Cat, req: Request): RunId {
    match req.runId
    case Some(r) => r
    case None => |c.runs|
  }

  /** The run table once the fetch has ended its run, if it is to, with this status. */
  function RunsAfter(c: Cat, req: Request, status: RunStatus): seq<RunRow> {
    var r := RunIdOf(c, req);
    var begun := if req.runId.Some? then c.runs else c.runs + [RunRow(req.runType, RunRunning)];
    if req.finishRun && r < |begun| then begun[r := RunRow(begun[r].runType, status)] else begun
  }

  /** The attempts at a job including this one. */
  function AttemptsAfter(c: Cat, key: JobKey): nat {
    if key in c.jobs then c.jobs[key].attempts + 1 else 1
  }

  function ChangesAfter(c: Cat, d: Schema.Decision): seq<SchemaChange> {
    if d.changeType.Same? then c.schemaChanges
    else
      c.schemaChanges
      + [SchemaChange(d.schema.apiName, d.schema, d.changeType, !d.changeType.IncompatibleTypeChange?)]
  }

  function SchemasAfter(c: Cat, d: Schema.Decision): Schema.Registry {
    if d.schema in c.schemas then c.schemas else c.schemas + [d.schema]
  }

  /** The row of the raw file: it counts items and pages and has no schema. */
  function RawFileRow(key: JobKey, today: string, runId: RunId, items: nat, pages: nat, content: Content,
                      status: FileStatus, stagedIn: Option<RunId>, addedBy: Option<SnapshotId>): FileRow {
    FileRow(key.apiName, Raw, RawPath(key.apiName, today, key), None, items, Some(pages), content.bytes,
            Sha256(content), None, status, stagedIn, runId, key, addedBy)
  }

  /** The row of the lake file: it counts rows and items and names its schema. */
  function ParquetRow(key: JobKey, path: Path, runId: RunId, items: nat, schema: Schema.SchemaDef, content: Content,
                      status: FileStatus, stagedIn: Option<RunId>, addedBy: Option<SnapshotId>): FileRow {
    FileRow(key.apiName, Lake, path, Some(items), items, None, content.bytes, Sha256(content), Some(schema), status,
            stagedIn, runId, key, addedBy)
  }

  /** The snapshots with a new one on top: it supersedes its parent, has the next number, and holds
      the files of the parent and two new ones. */
  function SnapshotsAfter(c: Cat, apiName: string, runId: RunId): seq<Snapshot> {
    var added := {|c.files|, |c.files| + 1};
    match LatestSnapshot(c, apiName)
    case None => c.snapshots + [Snapshot(apiName, None, 1, true, runId, added)]
    case Some(p) =>
      var parent := c.snapshots[p];
      c.snapshots[p := parent.(current := false)]
      + [Snapshot(apiName, Some(p), parent.sequence + 1, true, runId, parent.files + added)]
  }

  /** The catalog after a fetch that has returned data. */
  function AfterCommit(c: Cat, req: Request, slot: Slot, today: string, result: Client.QueryResult,
                       d: Schema.Decision, raw: Content, lake: Content): Cat {
    var key, r, items, pages := req.key, RunIdOf(c, req), |result.items|, |result.events|;
    var path, id := LakePath(key.apiName, slot.partitionOn(today), slot.tail), Some(|c.snapshots|);
    Cat(c.jobs[key := JobRow(r, Done, AttemptsAfter(c, key), Some(items), Some(items), Some(pages), None)],
        c.files + [RawFileRow(key, today, r, items, pages, raw, Current, None, id),
                   ParquetRow(key, path, r, items, d.schema, lake, Current, None, id)],
        SnapshotsAfter(c, key.apiName, r), c.quarantine, RunsAfter(c, req, RunSucceeded),
        SchemasAfter(c, d), ChangesAfter(c, d), c.checkpoints[key := key.params])
  }

  /** The job row after a refusal: one attempt more, failed for this reason, with the counts of the
      last attempt that worked. */
  function FailedRow(c: Cat, key: JobKey, runId: RunId, reason: ErrorType): JobRow {
    if key in c.jobs then
      JobRow(runId, Failed, c.jobs[key].attempts + 1, c.jobs[key].recordCount, c.jobs[key].sourceItemCount,
             c.jobs[key].rawEventCount, Some(reason))
    else JobRow(runId, Failed, 1, None, None, None, Some(reason))
  }

  /** The catalog after a fetch whose answer the schema decision has refused. */
  function AfterRefusal(c: Cat, req: Request, d: Schema.Decision, raw: Content): Cat {
    var key, r := req.key, RunIdOf(c, req);
    Cat(c.jobs[key := FailedRow(c, key, r, SchemaIncompatible)], c.files, c.snapshots,
        c.quarantine + [QuarantineRow(r, key, SchemaIncompatible, Some(raw.bytes), Some(Sha256(raw)))],
        RunsAfter(c, req, RunFailed(Some(SchemaIncompatible))), c.schemas, ChangesAfter(c, d), c.checkpoints)
  }

  /** The catalog after a fetch whose files did not pass validation: their rows stay, staged. */
  function AfterRejection(c: Cat, req: Request, slot: Slot, today: string, result: Client.QueryResult,
                          d: Schema.Decision, raw: Content, lake: Content, size: Option<nat>): Cat {
    var key, r, items, pages := req.key, RunIdOf(c, req), |result.items|, |result.events|;
    var path := LakePath(key.apiName, slot.partitionOn(today), slot.tail);
    Cat(c.jobs[key := FailedRow(c, key, r, ValidationFailed)],
        c.files + [RawFileRow(key, today, r, items, pages, raw, Staged, Some(r), None),
                   ParquetRow(key, path, r, items, d.schema, lake, Staged, Some(r), None)],
        c.snapshots, c.quarantine + [QuarantineRow(r, key, ValidationFailed, size, None)],
        RunsAfter(c, req, RunFailed(Some(ValidationFailed))), SchemasAfter(c, d), ChangesAfter(c, d), c.checkpoints)
  }

  // ---- stretch by stretch ----

  function BegunCat(c: Cat, req: Request): Cat {
    UpsertJob(if req.runId.Some? then c else CreateRun(c, req.runType), req.key, RunIdOf(c, req))
  }

  lemma {:induction false} BeginTables(w: World, req: Request)
    ensures ApplyAll(BeginActions(w.cat, req), w).cat == BegunCat(w.cat, req)
    ensures RunOf(w.cat, req) == RunIdOf(w.cat, req)
  {
    var job := BeginJob(req.key, RunIdOf(w.cat, req));
    if req.runId.Some? {
      ApplyOne(job, w);
    } else {
      assert BeginActions(w.cat, req) == [BeginRun(req.runType)] + [job];
      ApplyCons(BeginRun(req.runType), [job], w);
      ApplyOne(job, Apply(BeginRun(req.runType), w));
    }
  }

  function NotedCat(c: Cat, d: Schema.Decision): Cat {
    c.(schemaChanges := ChangesAfter(c, d))
  }

  lemma {:induction false} ChangeTables(w: World, d: Schema.Decision)
    ensures ApplyAll(ChangeActions(d), w).cat == NotedCat(w.cat, d)
  {
    if !d.changeType.Same? {
      ApplyOne(ChangeActions(d)[0], w);
    }
  }

  lemma {:induction false} ThreeFirst(a: Action, b: Action, c: Action, rest: seq<Action>, w: World)
    ensures ApplyAll([a, b, c] + rest, w) == ApplyAll(rest, Apply(c, Apply(b, Apply(a, w))))
  {
    assert [a, b, c] + rest == [a] + ([b] + ([c] + rest));
    ApplyCons(a, [b] + ([c] + rest), w);
    ApplyCons(b, [c] + rest, Apply(a, w));
    ApplyCons(c, rest, Apply(b, Apply(a, w)));
  }

  /** The two rows are inserted; writing the lake file and what storage does to the files concern
      the disk only. */
  lemma {:induction false} InsertTables(r: FileRow, l: FileRow, runId: RunId, key: JobKey, lake: Content, sc: Script,
                                        w: World)
    ensures ApplyAll([Write(runId, LakeTmp(key), lake), StageFile(r), StageFile(l)]
                     + [Decay(runId, RawTmp(key), sc.rawRot), Decay(runId, LakeTmp(key), sc.lakeRot)], w).cat
            == w.cat.(files := w.cat.files + [r, l])
  {
    var rots := [Decay(runId, RawTmp(key), sc.rawRot), Decay(runId, LakeTmp(key), sc.lakeRot)];
    var x := Apply(StageFile(l), Apply(StageFile(r), Apply(Write(runId, LakeTmp(key), lake), w)));
    ThreeFirst(Write(runId, LakeTmp(key), lake), StageFile(r), StageFile(l), rots, w);
    assert rots == [rots[0]] + [rots[1]];
    ApplyCons(rots[0], [rots[1]], x);
    ApplyOne(rots[1], Apply(rots[0], x));
    assert w.cat.files + [r] + [l] == w.cat.files + [r, l];
  }

  lemma {:induction false} StageTables(w: World, plan: FetchPlan, runId: RunId, result: Client.QueryResult,
                                       d: Schema.Decision, raw: Content, lake: Content, sc: Script)
    ensures var r, l := RawRow(plan, runId, result, raw), LakeFileRow(plan, runId, result, d.schema, lake);
            ApplyAll(StageActions(plan, runId, result, d, raw, lake, sc), w).cat
            == NotedCat(InsertSchema(w.cat, d.schema), d).(files := w.cat.files + [r, l])
  {
    var r, l := RawRow(plan, runId, result, raw), LakeFileRow(plan, runId, result, d.schema, lake);
    var rest := [Write(runId, LakeTmp(plan.key), lake), StageFile(r), StageFile(l)]
                + [Decay(runId, RawTmp(plan.key), sc.rawRot), Decay(runId, LakeTmp(plan.key), sc.lakeRot)];
    StageSplit(plan, runId, result, d, raw, lake, sc, rest);
    var x := Apply(AddSchema(d.schema), w);
    ApplyCons(AddSchema(d.schema), ChangeActions(d) + rest, w);
    ApplyAppend(ChangeActions(d), rest, x);
    ChangeTables(x, d);
    InsertTables(r, l, runId, plan.key, lake, sc, ApplyAll(ChangeActions(d), x));
  }

  lemma {:induction false} StageSplit(plan: FetchPlan, runId: RunId, result: Client.QueryResult, d: Schema.Decision,
                                      raw: Content, lake: Content, sc: Script, rest: seq<Action>)
    requires rest == [Write(runId, LakeTmp(plan.key), lake), StageFile(RawRow(plan, runId, result, raw)),
                      StageFile(LakeFileRow(plan, runId, result, d.schema, lake))]
                     + [Decay(runId, RawTmp(plan.key), sc.rawRot), Decay(runId, LakeTmp(plan.key), sc.lakeRot)]
    ensures StageActions(plan, runId, result, d, raw, lake, sc) == [AddSchema(d.schema)] + (ChangeActions(d) + rest)
  {}

  lemma {:induction false} EndTables(w: World, finishRun: bool, runId: RunId, status: RunStatus)
    ensures ApplyAll(EndActions(finishRun, runId, status), w).cat
            == if finishRun then FinishRun(w.cat, runId, status) else w.cat
  {
    if finishRun {
      ApplyOne(EndRun(runId, status), w);
    }
  }

  lemma {:induction false} RejectTables(w: World, key: JobKey, runId: RunId, finishRun: bool, reason: ErrorType,
                                        size: Option<nat>, sha: Option<Digest>)
    ensures var entry := QuarantineRow(runId, key, reason, size, sha);
            var failed := MarkFailed(RecordQuarantine(w.cat, entry), key, reason);
            ApplyAll(RejectActions(key, runId, finishRun, reason, size, sha), w).cat
            == if finishRun then FinishRun(failed, runId, RunFailed(Some(reason))) else failed
  {
    var move := MoveToQuarantine(runId, QuarantineDir(runId, key, reason));
    var note, fail := NoteQuarantine(QuarantineRow(runId, key, reason, size, sha)), FailJob(key, reason);
    ThreeFirst(move, note, fail, EndActions(finishRun, runId, RunFailed(Some(reason))), w);
    EndTables(Apply(fail, Apply(note, Apply(move, w))), finishRun, runId, RunFailed(Some(reason)));
  }

  /** A last stretch that returns has been carried out, up to the removal of the temp directory. */
  lemma {:induction false} PublishedSplit(w: World, plan: FetchPlan, runId: RunId, finishRun: bool, rawId: FileId,
                                          result: Client.QueryResult, fault: Fault)
    returns (rest: seq<Action>)
    requires Published(w, plan, runId, finishRun, rawId, result, fault).end.Finished?
    ensures Published(w, plan, runId, finishRun, rawId, result, fault).w
            == ApplyAll(MoveActions(plan, runId, rawId, rawId + 1)
                        + (CommitActions(plan, runId, rawId, rawId + 1, result)
                           + (EndActions(finishRun, runId, RunSucceeded) + rest)), w)
    ensures rest == if CleanUpFails(fault, finishRun) then [] else [CleanUp(runId)]
  {
    var all := PublishActions(plan, runId, finishRun, rawId, rawId + 1, result);
    var done := MoveActions(plan, runId, rawId, rawId + 1)
                + (CommitActions(plan, runId, rawId, rawId + 1, result) + EndActions(finishRun, runId, RunSucceeded));
    assert all == done + [CleanUp(runId)];
    if Strikes(fault, all) {
      assert all[fault.at].CleanUp?;
      assert all[..fault.at] == done;
      rest := [];
    } else {
      rest := [CleanUp(runId)];
    }
    assert MoveActions(plan, runId, rawId, rawId + 1)
           + (CommitActions(plan, runId, rawId, rawId + 1, result)
              + (EndActions(finishRun, runId, RunSucceeded) + rest))
        == done + rest;
    assert done + [] == done;
  }

  /** The catalog once both files have been moved. */
  function MovedCat(c: Cat, rawId: FileId): Cat {
    SetFileStatus(SetFileStatus(c, rawId, Staged, None), rawId + 1, Staged, None)
  }

  function DoneCat(c: Cat, key: JobKey, runId: RunId, rawId: FileId, result: Client.QueryResult): Cat {
    MarkDone(CommitSnapshot(MovedCat(c, rawId), key.apiName, [rawId, rawId + 1], runId, key, key.params), key,
             |result.items|, |result.items|, |result.events|)
  }

  /** The tables once the last stretch is done: the commit, the job row and the run. */
  lemma {:induction false} PublishTables(w: World, plan: FetchPlan, runId: RunId, finishRun: bool, rawId: FileId,
                                         result: Client.QueryResult, fault: Fault)
    requires Published(w, plan, runId, finishRun, rawId, result, fault).end.Finished?
    ensures var done := DoneCat(w.cat, plan.key, runId, rawId, result);
            Published(w, plan, runId, finishRun, rawId, result, fault).w.cat
            == if finishRun then FinishRun(done, runId, RunSucceeded) else done
  {
    var rest := PublishedSplit(w, plan, runId, finishRun, rawId, result, fault);
    var moves, commit := MoveActions(plan, runId, rawId, rawId + 1),
        CommitActions(plan, runId, rawId, rawId + 1, result);
    var end := EndActions(finishRun, runId, RunSucceeded);
    var x := ApplyAll(moves, w);
    ApplyAppend(moves, commit + (end + rest), w);
    MoveFour(w, plan, runId, rawId, rawId + 1);
    ApplyAppend(commit, end + rest, x);
    DoneTables(x, plan, runId, rawId, result);
    TailTables(ApplyAll(commit, x), finishRun, runId, rest);
  }

  lemma {:induction false} DoneTables(x: World, plan: FetchPlan, runId: RunId, rawId: FileId,
                                      result: Client.QueryResult)
    ensures ApplyAll(CommitActions(plan, runId, rawId, rawId + 1, result), x).cat
            == MarkDone(CommitSnapshot(x.cat, plan.key.apiName, [rawId, rawId + 1], runId, plan.key, plan.key.params),
                        plan.key, |result.items|, |result.items|, |result.events|)
  {
    CommitTwo(x, plan, runId, rawId, rawId + 1, result);
  }

  lemma {:induction false} TailTables(w: World, finishRun: bool, runId: RunId, rest: seq<Action>)
    requires rest == [] || rest == [CleanUp(runId)]
    ensures ApplyAll(EndActions(finishRun, runId, RunSucceeded) + rest, w).cat
            == if finishRun then FinishRun(w.cat, runId, RunSucceeded) else w.cat
  {
    var end := EndActions(finishRun, runId, RunSucceeded);
    ApplyAppend(end, rest, w);
    EndTables(w, finishRun, runId, RunSucceeded);
    if rest != [] {
      ApplyOne(CleanUp(runId), ApplyAll(end, w));
    }
  }

  // ---- the stretches put together ----

  lemma {:induction false} CommittedSnapshots(c: Cat, m: Cat, apiName: string, runId: RunId, key: JobKey)
    requires m.snapshots == c.snapshots
    ensures CommitSnapshot(m, apiName, [|c.files|, |c.files| + 1], runId, key, key.params).snapshots
            == SnapshotsAfter(c, apiName, runId)
  {
    NewSnapshot(c, apiName, runId);
    assert LatestSnapshot(m, apiName) == LatestSnapshot(c, apiName);
  }

  lemma {:induction false} NewSnapshot(c: Cat, apiName: string, runId: RunId)
    ensures OnTop(c.snapshots, LatestSnapshot(c, apiName), apiName, [|c.files|, |c.files| + 1], runId)
            == SnapshotsAfter(c, apiName, runId)
  {
    var newFiles := [|c.files|, |c.files| + 1];
    var added := set f | f in newFiles;
    assert added == {|c.files|, |c.files| + 1} && {} + added == added;
    var after := OnTop(c.snapshots, LatestSnapshot(c, apiName), apiName, newFiles, runId);
    match LatestSnapshot(c, apiName)
    case None =>
      assert after[|c.snapshots|] == Snapshot(apiName, None, 1, true, runId, added);
    case Some(p) =>
      assert after[|c.snapshots|].files == c.snapshots[p].files + added;
  }

  /** The two staged rows at the end of the table, restaged and committed. */
  lemma {:induction false} CommittedFiles(c: Cat, s: Cat, r: FileRow, l: FileRow, apiName: string, runId: RunId,
                                          key: JobKey)
    requires s.files == c.files + [r, l] && s.snapshots == c.snapshots
    ensures CommitSnapshot(MovedCat(s, |c.files|), apiName, [|c.files|, |c.files| + 1], runId, key, key.params).files
            == c.files + [r.(stagedIn := None, status := Current, addedBy := Some(|c.snapshots|)),
                          l.(stagedIn := None, status := Current, addedBy := Some(|c.snapshots|))]
  {}

  lemma {:induction false} CommitKeepsTables(m: Cat, apiName: string, n: nat, runId: RunId, key: JobKey)
    ensures var d := CommitSnapshot(m, apiName, [n, n + 1], runId, key, key.params);
            && d.jobs == m.jobs && d.quarantine == m.quarantine && d.runs == m.runs && d.schemas == m.schemas
            && d.schemaChanges == m.schemaChanges && d.checkpoints == m.checkpoints[key := key.params]
  {}

  /** The catalog when staging is done: begun, the schema recorded, the rows inserted. */
  function StagedCat(c: Cat, req: Request, d: Schema.Decision, r: FileRow, l: FileRow): Cat {
    var b := BegunCat(c, req);
    NotedCat(InsertSchema(b, d.schema), d).(files := b.files + [r, l])
  }

  lemma {:induction false} StagedTables(c: Cat, req: Request, d: Schema.Decision, r: FileRow, l: FileRow)
    ensures var s := StagedCat(c, req, d, r, l);
            && s.files == c.files + [r, l] && s.snapshots == c.snapshots && s.quarantine == c.quarantine
            && s.schemas == SchemasAfter(c, d) && s.schemaChanges == ChangesAfter(c, d)
            && s.checkpoints == c.checkpoints && s.jobs == BegunCat(c, req).jobs && s.runs == BegunCat(c, req).runs
  {}

  lemma {:induction false} BegunTables(c: Cat, req: Request)
    ensures var b := BegunCat(c, req);
            && b.files == c.files && b.snapshots == c.snapshots && b.quarantine == c.quarantine
            && b.schemas == c.schemas && b.schemaChanges == c.schemaChanges && b.checkpoints == c.checkpoints
            && b.runs == (if req.runId.Some? then c.runs else c.runs + [RunRow(req.runType, RunRunning)])
            && b.jobs == c.jobs[req.key := FailedRow(c, req.key, RunIdOf(c, req), UnknownError).(status := Running,
                                                                                             lastError := None)]
  {}

  lemma {:induction false} EndedRuns(c: Cat, x: Cat, req: Request, status: RunStatus)
    requires x.runs == BegunCat(c, req).runs
    ensures (if req.finishRun then FinishRun(x, RunIdOf(c, req), status) else x)
            == x.(runs := RunsAfter(c, req, status))
  {
    BegunTables(c, req);
  }

  /** Staging, moving, committing and closing, put together. */
  lemma {:induction false} CommittedCatalog(c: Cat, req: Request, slot: Slot, today: string,
                                            result: Client.QueryResult, d: Schema.Decision, raw: Content,
                                            lake: Content, plan: FetchPlan)
    requires plan == PlanFetch(req.key, today, slot)
    ensures var r := RunIdOf(c, req);
            var staged := StagedCat(c, req, d, RawRow(plan, r, result, raw),
                                    LakeFileRow(plan, r, result, d.schema, lake));
            var done := DoneCat(staged, req.key, r, |c.files|, result);
            (if req.finishRun then FinishRun(done, r, RunSucceeded) else done)
            == AfterCommit(c, req, slot, today, result, d, raw, lake)
  {
    var key, run, n := req.key, RunIdOf(c, req), |c.files|;
    var r, l := RawRow(plan, run, result, raw), LakeFileRow(plan, run, result, d.schema, lake);
    var staged := StagedCat(c, req, d, r, l);
    var moved := MovedCat(staged, n);
    var done := DoneCat(staged, key, run, n, result);
    StagedTables(c, req, d, r, l);
    BegunTables(c, req);
    CommittedSnapshots(c, moved, key.apiName, run, key);
    CommittedFiles(c, staged, r, l, key.apiName, run, key);
    CommitKeepsTables(moved, key.apiName, n, run, key);
    CommittedJobs(c, req, d, r, l, result);
    EndedRuns(c, done, req, RunSucceeded);
  }

  lemma {:induction false} CommittedJobs(c: Cat, req: Request, d: Schema.Decision, r: FileRow, l: FileRow,
                                         result: Client.QueryResult)
    ensures DoneCat(StagedCat(c, req, d, r, l), req.key, RunIdOf(c, req), |c.files|, result).jobs
            == c.jobs[req.key := JobRow(RunIdOf(c, req), Done, AttemptsAfter(c, req.key), Some(|result.items|),
                                        Some(|result.items|), Some(|result.events|), None)]
  {
    StagedTables(c, req, d, r, l);
    BegunTables(c, req);
    CommitKeepsTables(MovedCat(StagedCat(c, req, d, r, l), |c.files|), req.key.apiName, |c.files|, RunIdOf(c, req),
                      req.key);
  }

  lemma {:induction false} FailedTables(c: Cat, s: Cat, x: Cat, req: Request, reason: ErrorType, size: Option<nat>,
                                        sha: Option<Digest>)
    requires s.jobs == BegunCat(c, req).jobs && s.runs == BegunCat(c, req).runs
    requires var failed := MarkFailed(RecordQuarantine(s, QuarantineRow(RunIdOf(c, req), req.key, reason, size, sha)),
                                      req.key, reason);
             x == if req.finishRun then FinishRun(failed, RunIdOf(c, req), RunFailed(Some(reason))) else failed
    ensures x == s.(jobs := c.jobs[req.key := FailedRow(c, req.key, RunIdOf(c, req), reason)],
                    quarantine := s.quarantine + [QuarantineRow(RunIdOf(c, req), req.key, reason, size, sha)],
                    runs := RunsAfter(c, req, RunFailed(Some(reason))))
  {
    BegunTables(c, req);
    EndedRuns(c, MarkFailed(RecordQuarantine(s, QuarantineRow(RunIdOf(c, req), req.key, reason, size, sha)), req.key,
                            reason), req, RunFailed(Some(reason)));
  }

  // ---- the whole fetch ----

  lemma {:induction false} StageGoes(stage: seq<Action>, fault: Fault, w: World)
    requires forall i | 0 <= i < |stage| :: !stage[i].CleanUp?
    ensures Perform(stage, fault, w).Go? ==> Perform(stage, fault, w) == Go(ApplyAll(stage, w))
    ensures Perform(stage, fault, w).Stop? ==> !Perform(stage, fault, w).end.Finished?
  {}

  /** How a batch that was accepted ends if the fetch returns. */
  lemma {:induction false} AcceptReturned(w: World, plan: FetchPlan, runId: RunId, finishRun: bool,
                                          result: Client.QueryResult, prepared: Schema.Preparation, raw: Content,
                                          sc: Script)
    requires Accept(w, plan, runId, finishRun, result, prepared, raw, sc).end.Finished?
    ensures var lake := LakeContent(runId, plan.key, prepared.decision.schema, result.fields, prepared.items,
                                    sc.lakeBytes);
            var staged := ApplyAll(StageActions(plan, runId, result, prepared.decision, raw, lake, sc), w);
            var found := Find(DirOf(staged.disk, runId), RawTmp(plan.key));
            var size := if found.Some? then Some(found.value.bytes) else None;
            var e := Accept(w, plan, runId, finishRun, result, prepared, raw, sc);
            if e.end.result.snapshot.Some? then
              e == Published(staged, plan, runId, finishRun, |w.cat.files|, result, sc.publish)
            else
              e == Ending(ApplyAll(RejectActions(plan.key, runId, finishRun, ValidationFailed, size, None), staged),
                          NoData(runId, plan.key))
  {
    var lake := LakeContent(runId, plan.key, prepared.decision.schema, result.fields, prepared.items, sc.lakeBytes);
    var stage := StageActions(plan, runId, result, prepared.decision, raw, lake, sc);
    var staged := ApplyAll(stage, w);
    StageGoes(stage, sc.stage, w);
    AcceptGoes(w, staged, plan, runId, finishRun, result, prepared, raw, sc);
    var found := Find(DirOf(staged.disk, runId), RawTmp(plan.key));
    RejectReturned(staged, plan.key, runId, finishRun, if found.Some? then Some(found.value.bytes) else None,
                   sc.publish);
  }

  /** Where an accepted batch goes from the staged files. */
  lemma {:induction false} AcceptGoes(w: World, staged: World, plan: FetchPlan, runId: RunId, finishRun: bool,
                                      result: Client.QueryResult, prepared: Schema.Preparation, raw: Content,
                                      sc: Script)
    requires var lake := LakeContent(runId, plan.key, prepared.decision.schema, result.fields, prepared.items,
                                     sc.lakeBytes);
             Perform(StageActions(plan, runId, result, prepared.decision, raw, lake, sc), sc.stage, w) == Go(staged)
    ensures var found := Find(DirOf(staged.disk, runId), RawTmp(plan.key));
            var size := if found.Some? then Some(found.value.bytes) else None;
            Accept(w, plan, runId, finishRun, result, prepared, raw, sc)
            == if StagedFailures(staged, runId, plan, |w.cat.files|, |w.cat.files| + 1) != [] then
                 Conclude(Perform(RejectActions(plan.key, runId, finishRun, ValidationFailed, size, None), sc.publish,
                                  staged), NoData(runId, plan.key))
               else Published(staged, plan, runId, finishRun, |w.cat.files|, result, sc.publish)
  {}

  lemma {:induction false} RejectReturned(w: World, key: JobKey, runId: RunId, finishRun: bool, size: Option<nat>,
                                          fault: Fault)
    ensures var reject := RejectActions(key, runId, finishRun, ValidationFailed, size, None);
            var e := Conclude(Perform(reject, fault, w), NoData(runId, key));
            e.end.Finished? ==> e == Ending(ApplyAll(reject, w), NoData(runId, key))
  {
    var reject := RejectActions(key, runId, finishRun, ValidationFailed, size, None);
    assert forall i | 0 <= i < |reject| :: !reject[i].CleanUp?;
  }

  lemma {:induction false} WrittenWorld(w: World, plan: FetchPlan, runId: RunId, result: Client.QueryResult, sc: Script)
    ensures var written := Written(w, plan, runId, result, sc);
            && written.cat == w.cat
            && Find(DirOf(written.disk, runId), RawTmp(plan.key))
               == Some(RawContent(runId, plan.key, result.events, sc.rawBytes))
  {}

  /** What a fetch that has returned data leaves, put together from its stretches. */
  lemma {:induction false} AcceptedLedger(c: Cat, w: World, req: Request, slot: Slot, result: Client.QueryResult,
                                          prepared: Schema.Preparation, raw: Content, sc: Script)
    requires w.cat == BegunCat(c, req)
    requires var e := Accept(w, PlanFetch(req.key, sc.today, slot), RunIdOf(c, req), req.finishRun, result, prepared,
                             raw, sc);
             e.end.Finished? && e.end.result.snapshot.Some?
    ensures var e := Accept(w, PlanFetch(req.key, sc.today, slot), RunIdOf(c, req), req.finishRun, result, prepared,
                            raw, sc);
            var lake := LakeContent(RunIdOf(c, req), req.key, prepared.decision.schema, result.fields, prepared.items,
                                    sc.lakeBytes);
            && e.w.cat == AfterCommit(c, req, slot, sc.today, result, prepared.decision, raw, lake)
            && e.end.result == FetchResult(Some(RunIdOf(c, req)), req.key, Some(|c.snapshots|), |result.items|, false)
  {
    var plan, r, d := PlanFetch(req.key, sc.today, slot), RunIdOf(c, req), prepared.decision;
    var lake := LakeContent(r, req.key, d.schema, result.fields, prepared.items, sc.lakeBytes);
    AcceptReturned(w, plan, r, req.finishRun, result, prepared, raw, sc);
    StagedIs(c, w, req, plan, result, d, raw, lake, sc);
    PublishedLedger(c, ApplyAll(StageActions(plan, r, result, d, raw, lake, sc), w), req, slot, sc.today, result, d,
                    raw, lake, sc.publish);
  }

  lemma {:induction false} PublishedLedger(c: Cat, staged: World, req: Request, slot: Slot, today: string,
                                           result: Client.QueryResult, d: Schema.Decision, raw: Content, lake: Content,
                                           fault: Fault)
    requires var plan, r := PlanFetch(req.key, today, slot), RunIdOf(c, req);
             && staged.cat == StagedCat(c, req, d, RawRow(plan, r, result, raw),
                                        LakeFileRow(plan, r, result, d.schema, lake))
             && |staged.cat.snapshots| == |c.snapshots|
             && Published(staged, plan, r, req.finishRun, |c.files|, result, fault).end.Finished?
    ensures var r := RunIdOf(c, req);
            var e := Published(staged, PlanFetch(req.key, today, slot), r, req.finishRun, |c.files|, result, fault);
            && e.w.cat == AfterCommit(c, req, slot, today, result, d, raw, lake)
            && e.end.result == FetchResult(Some(r), req.key, Some(|c.snapshots|), |result.items|, false)
  {
    var plan := PlanFetch(req.key, today, slot);
    PublishTables(staged, plan, RunIdOf(c, req), req.finishRun, |c.files|, result, fault);
    CommittedCatalog(c, req, slot, today, result, d, raw, lake, plan);
  }

  lemma {:induction false} StagedIs(c: Cat, w: World, req: Request, plan: FetchPlan, result: Client.QueryResult,
                                    d: Schema.Decision, raw: Content, lake: Content, sc: Script)
    requires w.cat == BegunCat(c, req)
    ensures |w.cat.files| == |c.files|
    ensures var r := RunIdOf(c, req);
            var staged := ApplyAll(StageActions(plan, r, result, d, raw, lake, sc), w).cat;
            && staged == StagedCat(c, req, d, RawRow(plan, r, result, raw),
                                   LakeFileRow(plan, r, result, d.schema, lake))
            && |staged.snapshots| == |c.snapshots|
  {
    var r := RunIdOf(c, req);
    BegunTables(c, req);
    StageTables(w, plan, r, result, d, raw, lake, sc);
    StagedTables(c, req, d, RawRow(plan, r, result, raw), LakeFileRow(plan, r, result, d.schema, lake));
  }

  lemma {:induction false} RejectedLedger(c: Cat, w: World, req: Request, slot: Slot, result: Client.QueryResult,
                                          prepared: Schema.Preparation, raw: Content, sc: Script)
    requires w.cat == BegunCat(c, req) && Find(DirOf(w.disk, RunIdOf(c, req)), RawTmp(req.key)) == Some(raw)
    requires var e := Accept(w, PlanFetch(req.key, sc.today, slot), RunIdOf(c, req), req.finishRun, result, prepared,
                             raw, sc);
             e.end.Finished? && e.end.result.snapshot.None?
    ensures var e := Accept(w, PlanFetch(req.key, sc.today, slot), RunIdOf(c, req), req.finishRun, result, prepared,
                            raw, sc);
            var lake := LakeContent(RunIdOf(c, req), req.key, prepared.decision.schema, result.fields, prepared.items,
                                    sc.lakeBytes);
            var left := LeftOf(sc.rawRot, raw);
            && e.w.cat == AfterRejection(c, req, slot, sc.today, result, prepared.decision, raw, lake,
                                         if left.Some? then Some(left.value.bytes) else None)
            && e.end.result == FetchResult(Some(RunIdOf(c, req)), req.key, None, 0, false)
  {
    var plan, r, d := PlanFetch(req.key, sc.today, slot), RunIdOf(c, req), prepared.decision;
    var lake := LakeContent(r, req.key, d.schema, result.fields, prepared.items, sc.lakeBytes);
    AcceptReturned(w, plan, r, req.finishRun, result, prepared, raw, sc);
    StageTables(w, plan, r, result, d, raw, lake, sc);
    StagedFound(w, plan, r, result, d, raw, lake, sc);
    BegunTables(c, req);
    var staged := ApplyAll(StageActions(plan, r, result, d, raw, lake, sc), w);
    var left := LeftOf(sc.rawRot, raw);
    var size := if left.Some? then Some(left.value.bytes) else None;
    RejectTables(staged, req.key, r, req.finishRun, ValidationFailed, size, None);
    FailedTables(c, staged.cat, ApplyAll(RejectActions(req.key, r, req.finishRun, ValidationFailed, size, None),
                                         staged).cat, req, ValidationFailed, size, None);
  }

  lemma {:induction false} RefusedLedger(c: Cat, w: World, req: Request, d: Schema.Decision, raw: Content, fault: Fault)
    requires w.cat == BegunCat(c, req)
    requires Rejected(ChangeActions(d), w, req.key, RunIdOf(c, req), req.finishRun, SchemaIncompatible, Some(raw.bytes),
                      Some(Sha256(raw)), fault).end.Finished?
    ensures var e := Rejected(ChangeActions(d), w, req.key, RunIdOf(c, req), req.finishRun, SchemaIncompatible,
                              Some(raw.bytes), Some(Sha256(raw)), fault);
            && e.w.cat == AfterRefusal(c, req, d, raw)
            && e.end.result == FetchResult(Some(RunIdOf(c, req)), req.key, None, 0, false)
  {
    var r := RunIdOf(c, req);
    var reject := RejectActions(req.key, r, req.finishRun, SchemaIncompatible, Some(raw.bytes), Some(Sha256(raw)));
    var all := ChangeActions(d) + reject;
    assert forall i | 0 <= i < |all| :: !all[i].CleanUp?;
    ApplyAppend(ChangeActions(d), reject, w);
    ChangeTables(w, d);
    var noted := ApplyAll(ChangeActions(d), w);
    RejectTables(noted, req.key, r, req.finishRun, SchemaIncompatible, Some(raw.bytes), Some(Sha256(raw)));
    BegunTables(c, req);
    FailedTables(c, noted.cat, ApplyAll(reject, noted).cat, req, SchemaIncompatible, Some(raw.bytes),
                 Some(Sha256(raw)));
  }

  /** A fetch that returns is one change of the catalog, whatever faults it has survived. With data:
      the job done with its counts, two current file rows of a new snapshot on top of the latest one,
      the checkpoint moved to the parameters, the schema and its change recorded. Without: the job
      failed and a quarantine entry, with the change if the schema decision refused the answer, and
      with the schema and two staged rows if the files were found wrong. */
  lemma {:induction false} FetchLedger(text: Schema.Text, w: World, req: Request, slot: Slot, sc: Script)
    returns (result: Client.QueryResult, raw: Content, lake: Content)
    requires !ExistingActiveData(w.cat, req.key) && Fetch(text, w, req, slot, sc).end.Finished?
    ensures QueryWithRetry(sc.replies, sc.maxAttempts, 1) == Answer(result)
    ensures raw.bytes == sc.rawBytes && lake.bytes == sc.lakeBytes
    ensures var e := Fetch(text, w, req, slot, sc);
            var d := PreparedFor(text, w.cat, req.key.apiName, result).decision;
            var run, left := Some(RunIdOf(w.cat, req)), LeftOf(sc.rawRot, raw);
            if e.end.result.snapshot.Some? then
              && e.w.cat == AfterCommit(w.cat, req, slot, sc.today, result, d, raw, lake)
              && e.end.result == FetchResult(run, req.key, Some(|w.cat.snapshots|), |result.items|, false)
              && Holds(e.w.disk, PlanFetch(req.key, sc.today, slot), raw, lake)
            else
              && e.w.cat == (if d.changeType.IncompatibleTypeChange? then AfterRefusal(w.cat, req, d, raw)
                             else AfterRejection(w.cat, req, slot, sc.today, result, d, raw, lake,
                                                 if left.Some? then Some(left.value.bytes) else None))
              && e.end.result == FetchResult(run, req.key, None, 0, false)
  {
    var key, run := req.key, RunIdOf(w.cat, req);
    var plan := PlanFetch(key, sc.today, slot);
    var begun := ApplyAll(BeginActions(w.cat, req), w);
    BeginTables(w, req);
    BeginKeepsRest(w, req);
    FetchFinished(text, w, req, slot, sc);
    BodyFinished(text, begun, plan, run, req.finishRun, sc);
    result := QueryWithRetry(sc.replies, sc.maxAttempts, 1).result;
    var prepared := PreparedFor(text, w.cat, key.apiName, result);
    raw := RawContent(run, key, result.events, sc.rawBytes);
    lake := LakeContent(run, key, prepared.decision.schema, result.fields, prepared.items, sc.lakeBytes);
    WrittenWorld(begun, plan, run, result, sc);
    var written := Written(begun, plan, run, result, sc);
    if !prepared.decision.Compatible() {
      RefusedLedger(w.cat, written, req, prepared.decision, raw, sc.stage);
    } else if Fetch(text, w, req, slot, sc).end.result.snapshot.Some? {
      AcceptedLedger(w.cat, written, req, slot, result, prepared, raw, sc);
      AcceptContents(written, plan, run, req.finishRun, result, prepared, raw, sc);
    } else {
      RejectedLedger(w.cat, written, req, slot, result, prepared, raw, sc);
    }
  }

  /** A fetch skips its work if and only if the job is done and an active lake file of it is in the
      latest snapshot. Then nothing changes, and the result names that snapshot and the count
      recorded for the job. */
  lemma {:induction false} FetchSkipsIff(text: Schema.Text, w: World, req: Request, slot: Slot, sc: Script)
    ensures var e := Fetch(text, w, req, slot, sc);
            && (e.end.Finished? && e.end.result.skipped <==> Covering(w.cat, req.key))
            && (Covering(w.cat, req.key) ==>
                  && e.w == w && e.end.Finished? && e.end.result.runId == req.runId && e.end.result.key == req.key
                  && e.end.result.snapshot == LatestSnapshot(w.cat, req.key.apiName)
                  && e.end.result.recordCount == match w.cat.jobs[req.key].recordCount
                                                 case Some(n) => n
                                                 case None => 0)
  {
    CoveringIff(w.cat, req.key);
    if !ExistingActiveData(w.cat, req.key) && Fetch(text, w, req, slot, sc).end.Finished? {
      var _, _, _ := FetchLedger(text, w, req, slot, sc);
    }
  }
}
