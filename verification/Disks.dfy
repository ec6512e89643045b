/** The disk after a fetch that returns, in closed form: what is at the final paths, in the temp
    directory of the run and in quarantine. */
module Disks {
  import opened Wrappers
  import opened Errors
  import opened Catalog
  import opened Store
  import opened Runs
  import opened Outcomes
  import opened TempDirs
  import opened Records
  import opened Scripts
  import opened Ledger
  import Schema
  import Client

  // ---- the closed form ----

  /** A directory in which a file has been written, as storage leaves it. */
  function Left(dir: Dir, name: TmpName, rot: Rot, content: Content): Dir {
    match rot
    case NoRot => dir[name := content]
    case Lost => dir - {name}
    case Damaged(other) => dir[name := other]
  }

  /** The directory as validation finds it. */
  function StagedDir(dir: Dir, key: JobKey, raw: Content, lake: Content, sc: Script): Dir {
    Left(Left(dir, RawTmp(key), sc.rawRot, raw), LakeTmp(key), sc.lakeRot, lake)
  }

  /** Both files are at their paths. The temp directory is gone; or, if its removal has failed, it holds
      what else it held before. */
  function DiskAfterCommit(d: Disk, runId: RunId, plan: FetchPlan, raw: Content, lake: Content, removed: bool): Disk {
    Disk(d.final[plan.rawPath := raw][plan.lakePath := lake],
         if removed then d.tmp - {runId}
         else d.tmp[runId := DirOf(d, runId) - {RawTmp(plan.key), LakeTmp(plan.key)}],
         d.quarantined)
  }

  /** The temp directory, with these files, is in quarantine under the job and the reason. */
  function DiskAfterReject(d: Disk, runId: RunId, key: JobKey, reason: ErrorType, dir: Dir): Disk {
    Disk(d.final, d.tmp - {runId}, d.quarantined[QuarantineDir(runId, key, reason) := dir])
  }

  // ---- staging ----

  ghost predicate HasDir(d: Disk, runId: RunId, dir: Dir) {
    runId in d.tmp && d.tmp[runId] == dir
  }

  /** The disk with another directory for the run. */
  function WithDir(d: Disk, runId: RunId, dir: Dir): Disk {
    d.(tmp := d.tmp[runId := dir])
  }

  lemma {:induction false} DecayIs(d: Disk, runId: RunId, dir: Dir, name: TmpName, rot: Rot, content: Content)
    requires HasDir(d, runId, dir[name := content])
    ensures ApplyDisk(Decay(runId, name, rot), d) == WithDir(d, runId, Left(dir, name, rot, content))
  {
    assert dir[name := content] - {name} == dir - {name};
    assert d.tmp[runId := dir[name := content]] == d.tmp;
    if rot.Damaged? {
      assert dir[name := content][name := rot.content] == dir[name := rot.content];
    }
  }

  lemma {:induction false} LeftBeside(dir: Dir, a: TmpName, rot: Rot, x: Content, b: TmpName, y: Content)
    requires a != b
    ensures Left(dir[b := y], a, rot, x) == Left(dir, a, rot, x)[b := y]
    ensures dir[a := x][b := y] == dir[b := y][a := x]
  {}

  lemma {:induction false} StagedDisks(w: World, plan: FetchPlan, runId: RunId, result: Client.QueryResult,
                                       decision: Schema.Decision, dir: Dir, raw: Content, lake: Content, sc: Script)
    requires HasDir(w.disk, runId, dir[RawTmp(plan.key) := raw])
    ensures ApplyAll(StageActions(plan, runId, result, decision, raw, lake, sc), w).disk
            == WithDir(w.disk, runId, StagedDir(dir, plan.key, raw, lake, sc))
  {
    var key := plan.key;
    var insert := [Write(runId, LakeTmp(key), lake), StageFile(RawRow(plan, runId, result, raw)),
                   StageFile(LakeFileRow(plan, runId, result, decision.schema, lake))];
    var rots := [Decay(runId, RawTmp(key), sc.rawRot), Decay(runId, LakeTmp(key), sc.lakeRot)];
    StageSplit(plan, runId, result, decision, raw, lake, sc, insert + rots);
    var record := RecordActions(decision);
    assert [AddSchema(decision.schema)] + (ChangeActions(decision) + (insert + rots)) == record + (insert + rots);
    ApplyAppend(record, insert + rots, w);
    DiskLeft(record, w);
    InsertedDisk(ApplyAll(record, w), runId, insert, rots, dir, key, raw, lake);
    ThreeFirst(insert[0], insert[1], insert[2], rots, ApplyAll(record, w));
    var x := Apply(insert[2], Apply(insert[1], Apply(insert[0], ApplyAll(record, w))));
    RottenDisk(x, runId, dir, key, raw, lake, sc);
  }

  lemma {:induction false} InsertedDisk(w: World, runId: RunId, insert: seq<Action>, rots: seq<Action>, dir: Dir,
                                        key: JobKey, raw: Content, lake: Content)
    requires |insert| == 3 && insert[0] == Write(runId, LakeTmp(key), lake) && insert[1].StageFile?
             && insert[2].StageFile? && HasDir(w.disk, runId, dir[RawTmp(key) := raw])
    ensures Apply(insert[2], Apply(insert[1], Apply(insert[0], w))).disk
            == WithDir(w.disk, runId, dir[RawTmp(key) := raw][LakeTmp(key) := lake])
  {}

  lemma {:induction false} RottenDisk(w: World, runId: RunId, dir: Dir, key: JobKey, raw: Content, lake: Content,
                                      sc: Script)
    requires HasDir(w.disk, runId, dir[RawTmp(key) := raw][LakeTmp(key) := lake])
    ensures ApplyAll([Decay(runId, RawTmp(key), sc.rawRot), Decay(runId, LakeTmp(key), sc.lakeRot)], w).disk
            == WithDir(w.disk, runId, StagedDir(dir, key, raw, lake, sc))
  {
    var a, b := Decay(runId, RawTmp(key), sc.rawRot), Decay(runId, LakeTmp(key), sc.lakeRot);
    assert [a, b] == [a] + [b];
    ApplyCons(a, [b], w);
    ApplyOne(b, Apply(a, w));
    LeftBeside(dir, RawTmp(key), sc.rawRot, raw, LakeTmp(key), lake);
    DecayIs(w.disk, runId, dir[LakeTmp(key) := lake], RawTmp(key), sc.rawRot, raw);
    DecayIs(ApplyDisk(a, w.disk), runId, Left(dir, RawTmp(key), sc.rawRot, raw), LakeTmp(key), sc.lakeRot, lake);
  }

  // ---- publishing and rejecting ----

  lemma {:induction false} MovedIs(d: Disk, runId: RunId, plan: FetchPlan, dir: Dir)
    requires HasDir(d, runId, dir) && RawTmp(plan.key) in dir && LakeTmp(plan.key) in dir
    ensures ApplyDisk(Publish(runId, LakeTmp(plan.key), plan.lakePath),
                      ApplyDisk(Publish(runId, RawTmp(plan.key), plan.rawPath), d))
            == Disk(d.final[plan.rawPath := dir[RawTmp(plan.key)]][plan.lakePath := dir[LakeTmp(plan.key)]],
                    d.tmp[runId := dir - {RawTmp(plan.key), LakeTmp(plan.key)}], d.quarantined)
  {
    assert dir - {RawTmp(plan.key)} - {LakeTmp(plan.key)} == dir - {RawTmp(plan.key), LakeTmp(plan.key)};
  }

  lemma {:induction false} PublishedDisk(w: World, plan: FetchPlan, runId: RunId, finishRun: bool, rawId: FileId,
                                         result: Client.QueryResult, fault: Fault, dir: Dir)
    requires Published(w, plan, runId, finishRun, rawId, result, fault).end.Finished?
    requires HasDir(w.disk, runId, dir) && RawTmp(plan.key) in dir && LakeTmp(plan.key) in dir
    ensures var moved := dir - {RawTmp(plan.key), LakeTmp(plan.key)};
            Published(w, plan, runId, finishRun, rawId, result, fault).w.disk
            == Disk(w.disk.final[plan.rawPath := dir[RawTmp(plan.key)]][plan.lakePath := dir[LakeTmp(plan.key)]],
                    if CleanUpFails(fault, finishRun) then w.disk.tmp[runId := moved] else w.disk.tmp - {runId},
                    w.disk.quarantined)
  {
    var rest := PublishedSplit(w, plan, runId, finishRun, rawId, result, fault);
    CarriedDisk(w, plan, runId, finishRun, rawId, result, rest, dir);
  }

  lemma {:induction false} CarriedDisk(w: World, plan: FetchPlan, runId: RunId, finishRun: bool, rawId: FileId,
                                       result: Client.QueryResult, rest: seq<Action>, dir: Dir)
    requires rest == [] || rest == [CleanUp(runId)]
    requires HasDir(w.disk, runId, dir) && RawTmp(plan.key) in dir && LakeTmp(plan.key) in dir
    ensures var moved := dir - {RawTmp(plan.key), LakeTmp(plan.key)};
            ApplyAll(MoveActions(plan, runId, rawId, rawId + 1)
                     + (CommitActions(plan, runId, rawId, rawId + 1, result)
                        + (EndActions(finishRun, runId, RunSucceeded) + rest)), w).disk
            == Disk(w.disk.final[plan.rawPath := dir[RawTmp(plan.key)]][plan.lakePath := dir[LakeTmp(plan.key)]],
                    if rest == [] then w.disk.tmp[runId := moved] else w.disk.tmp - {runId},
                    w.disk.quarantined)
  {
    var moves, commit := MoveActions(plan, runId, rawId, rawId + 1),
        CommitActions(plan, runId, rawId, rawId + 1, result);
    ApplyAppend(moves, commit + (EndActions(finishRun, runId, RunSucceeded) + rest), w);
    MovedAllDisk(w, plan, runId, rawId, dir);
    CommittedDisk(ApplyAll(moves, w), plan, runId, finishRun, rawId, result, rest);
    WithoutKey(w.disk.tmp, runId, dir - {RawTmp(plan.key), LakeTmp(plan.key)});
  }

  lemma {:induction false} WithoutKey<K, V>(m: map<K, V>, k: K, v: V)
    ensures m[k := v] - {k} == m - {k}
  {}

  lemma {:induction false} MovedAllDisk(w: World, plan: FetchPlan, runId: RunId, rawId: FileId, dir: Dir)
    requires HasDir(w.disk, runId, dir) && RawTmp(plan.key) in dir && LakeTmp(plan.key) in dir
    ensures ApplyAll(MoveActions(plan, runId, rawId, rawId + 1), w).disk
            == Disk(w.disk.final[plan.rawPath := dir[RawTmp(plan.key)]][plan.lakePath := dir[LakeTmp(plan.key)]],
                    w.disk.tmp[runId := dir - {RawTmp(plan.key), LakeTmp(plan.key)}], w.disk.quarantined)
  {
    MoveFour(w, plan, runId, rawId, rawId + 1);
    MovedIs(w.disk, runId, plan, dir);
  }

  lemma {:induction false} CommitLeavesDisk(x: World, plan: FetchPlan, runId: RunId, rawId: FileId,
                                            result: Client.QueryResult)
    ensures ApplyAll(CommitActions(plan, runId, rawId, rawId + 1, result), x).disk == x.disk
  {
    DiskLeft(CommitActions(plan, runId, rawId, rawId + 1, result), x);
  }

  lemma {:induction false} CommittedDisk(x: World, plan: FetchPlan, runId: RunId, finishRun: bool, rawId: FileId,
                                         result: Client.QueryResult, rest: seq<Action>)
    requires rest == [] || rest == [CleanUp(runId)]
    ensures ApplyAll(CommitActions(plan, runId, rawId, rawId + 1, result)
                     + (EndActions(finishRun, runId, RunSucceeded) + rest), x).disk
            == if rest == [] then x.disk else x.disk.(tmp := x.disk.tmp - {runId})
  {
    var commit := CommitActions(plan, runId, rawId, rawId + 1, result);
    ApplyAppend(commit, EndActions(finishRun, runId, RunSucceeded) + rest, x);
    CommitLeavesDisk(x, plan, runId, rawId, result);
    RemovedDisk(ApplyAll(commit, x), finishRun, runId, rest);
  }

  lemma {:induction false} RemovedDisk(w: World, finishRun: bool, runId: RunId, rest: seq<Action>)
    requires rest == [] || rest == [CleanUp(runId)]
    ensures ApplyAll(EndActions(finishRun, runId, RunSucceeded) + rest, w).disk
            == if rest == [] then w.disk else w.disk.(tmp := w.disk.tmp - {runId})
  {
    var end := EndActions(finishRun, runId, RunSucceeded);
    ApplyAppend(end, rest, w);
    DiskLeft(end, w);
    if rest != [] {
      ApplyOne(CleanUp(runId), ApplyAll(end, w));
    }
  }

  lemma {:induction false} RejectedDisk(w: World, key: JobKey, runId: RunId, finishRun: bool, reason: ErrorType,
                                        size: Option<nat>, sha: Option<Digest>, dir: Dir)
    requires HasDir(w.disk, runId, dir)
    ensures ApplyAll(RejectActions(key, runId, finishRun, reason, size, sha), w).disk
            == DiskAfterReject(w.disk, runId, key, reason, dir)
  {
    var move := MoveToQuarantine(runId, QuarantineDir(runId, key, reason));
    var note, fail := NoteQuarantine(QuarantineRow(runId, key, reason, size, sha)), FailJob(key, reason);
    var end := EndActions(finishRun, runId, RunFailed(Some(reason)));
    ThreeFirst(move, note, fail, end, w);
    DiskLeft(end, Apply(fail, Apply(note, Apply(move, w))));
  }

  // ---- the whole fetch ----

  lemma {:induction false} WithDirSame(d: Disk, runId: RunId, x: Dir, y: Dir)
    ensures WithDir(WithDir(d, runId, x), runId, y) == WithDir(d, runId, y)
    ensures WithDir(d, runId, x).tmp - {runId} == d.tmp - {runId}
  {
    assert d.tmp[runId := x][runId := y] == d.tmp[runId := y];
    assert d.tmp[runId := x] - {runId} == d.tmp - {runId};
  }

  lemma {:induction false} AcceptedDisk(d: Disk, w: World, plan: FetchPlan, runId: RunId, finishRun: bool,
                                        result: Client.QueryResult, prepared: Schema.Preparation, raw: Content,
                                        sc: Script)
    requires |prepared.items| == |result.items| && raw == RawContent(runId, plan.key, result.events, sc.rawBytes)
    requires w.disk == WithDir(d, runId, DirOf(d, runId)[RawTmp(plan.key) := raw])
    requires Accept(w, plan, runId, finishRun, result, prepared, raw, sc).end.Finished?
    ensures var lake := LakeContent(runId, plan.key, prepared.decision.schema, result.fields, prepared.items,
                                    sc.lakeBytes);
            var e := Accept(w, plan, runId, finishRun, result, prepared, raw, sc);
            e.w.disk
            == if e.end.result.snapshot.Some? then
                 DiskAfterCommit(d, runId, plan, raw, lake, !CleanUpFails(sc.publish, finishRun))
               else
                 DiskAfterReject(d, runId, plan.key, ValidationFailed,
                                 StagedDir(DirOf(d, runId), plan.key, raw, lake, sc))
  {
    var lake := LakeContent(runId, plan.key, prepared.decision.schema, result.fields, prepared.items, sc.lakeBytes);
    var dir := StagedDir(DirOf(d, runId), plan.key, raw, lake, sc);
    var staged := ApplyAll(StageActions(plan, runId, result, prepared.decision, raw, lake, sc), w);
    var e := Accept(w, plan, runId, finishRun, result, prepared, raw, sc);
    AcceptReturned(w, plan, runId, finishRun, result, prepared, raw, sc);
    StagedDisks(w, plan, runId, result, prepared.decision, DirOf(d, runId), raw, lake, sc);
    WithDirSame(d, runId, DirOf(d, runId)[RawTmp(plan.key) := raw], dir);
    if e.end.result.snapshot.Some? {
      AcceptedIsSound(w, plan, runId, finishRun, result, prepared, sc);
      SoundDir(DirOf(d, runId), plan, runId, result, prepared, raw, lake, sc);
      PublishedDisk(staged, plan, runId, finishRun, |w.cat.files|, result, sc.publish, dir);
      WithDirSame(d, runId, dir, dir - {RawTmp(plan.key), LakeTmp(plan.key)});
    } else {
      var found := Find(DirOf(staged.disk, runId), RawTmp(plan.key));
      RejectedDisk(staged, plan.key, runId, finishRun, ValidationFailed,
                   if found.Some? then Some(found.value.bytes) else None, None, dir);
      WithDirSame(d, runId, dir, dir);
    }
  }

  lemma {:induction false} AcceptedIsSound(w: World, plan: FetchPlan, runId: RunId, finishRun: bool,
                                           result: Client.QueryResult, prepared: Schema.Preparation, sc: Script)
    requires |prepared.items| == |result.items|
    requires Find(DirOf(w.disk, runId), RawTmp(plan.key))
             == Some(RawContent(runId, plan.key, result.events, sc.rawBytes))
    requires var e := Accept(w, plan, runId, finishRun, result, prepared,
                             RawContent(runId, plan.key, result.events, sc.rawBytes), sc);
             e.end.Finished? && e.end.result.snapshot.Some?
    ensures Sound(plan, runId, result, prepared, sc)
  {
    var raw := RawContent(runId, plan.key, result.events, sc.rawBytes);
    var size := AcceptBranches(w, plan, runId, finishRun, result, prepared, raw, sc);
    var lake := LakeContent(runId, plan.key, prepared.decision.schema, result.fields, prepared.items, sc.lakeBytes);
    RejectedHasNoData([], ApplyAll(StageActions(plan, runId, result, prepared.decision, raw, lake, sc), w), plan.key,
                      runId, finishRun, ValidationFailed, size, None, sc.publish);
    StagedValidIff(w, plan, runId, result, prepared, sc);
  }

  lemma {:induction false} SoundDir(dir: Dir, plan: FetchPlan, runId: RunId, result: Client.QueryResult,
                                    prepared: Schema.Preparation, raw: Content, lake: Content, sc: Script)
    requires Sound(plan, runId, result, prepared, sc)
    requires raw == RawContent(runId, plan.key, result.events, sc.rawBytes)
    requires lake == LakeContent(runId, plan.key, prepared.decision.schema, result.fields, prepared.items, sc.lakeBytes)
    ensures var staged := StagedDir(dir, plan.key, raw, lake, sc);
            && RawTmp(plan.key) in staged && LakeTmp(plan.key) in staged
            && staged[RawTmp(plan.key)] == raw && staged[LakeTmp(plan.key)] == lake
            && staged - {RawTmp(plan.key), LakeTmp(plan.key)} == dir - {RawTmp(plan.key), LakeTmp(plan.key)}
  {}

  lemma {:induction false} RefusedDisk(d: Disk, w: World, key: JobKey, runId: RunId, finishRun: bool,
                                       decision: Schema.Decision, raw: Content, fault: Fault)
    requires w.disk == WithDir(d, runId, DirOf(d, runId)[RawTmp(key) := raw])
    requires Rejected(ChangeActions(decision), w, key, runId, finishRun, SchemaIncompatible, Some(raw.bytes),
                      Some(Sha256(raw)), fault).end.Finished?
    ensures Rejected(ChangeActions(decision), w, key, runId, finishRun, SchemaIncompatible, Some(raw.bytes),
                     Some(Sha256(raw)), fault).w.disk
            == DiskAfterReject(d, runId, key, SchemaIncompatible, DirOf(d, runId)[RawTmp(key) := raw])
  {
    var reject := RejectActions(key, runId, finishRun, SchemaIncompatible, Some(raw.bytes), Some(Sha256(raw)));
    var all := ChangeActions(decision) + reject;
    assert forall i | 0 <= i < |all| :: !all[i].CleanUp?;
    ApplyAppend(ChangeActions(decision), reject, w);
    DiskLeft(ChangeActions(decision), w);
    var dir := DirOf(d, runId)[RawTmp(key) := raw];
    RejectedDisk(ApplyAll(ChangeActions(decision), w), key, runId, finishRun, SchemaIncompatible, Some(raw.bytes),
                 Some(Sha256(raw)), dir);
    WithDirSame(d, runId, dir, dir);
  }

  /** The disk after a fetch that returns. With data: the two files are at their final paths and the temp
      directory of the run is gone, unless its removal failed. Without: the directory is in quarantine,
      with the raw file if the schema decision refused the answer, and with what storage has left of
      both files if they were found wrong. Nothing else has changed. */
  lemma {:induction false} FetchDisk(text: Schema.Text, w: World, req: Request, slot: Slot, sc: Script)
    returns (result: Client.QueryResult, raw: Content, lake: Content)
    requires !ExistingActiveData(w.cat, req.key) && Fetch(text, w, req, slot, sc).end.Finished?
    ensures QueryWithRetry(sc.replies, sc.maxAttempts, 1) == Answer(result)
    ensures raw.Jsonl? && raw.events == seq(|result.events|, i requires 0 <= i < |result.events| =>
                                             RawEvent(RunIdOf(w.cat, req), req.key, result.events[i]))
    ensures lake.Parquet? && |lake.rows| == |result.items|
    ensures var e := Fetch(text, w, req, slot, sc);
            var d := PreparedFor(text, w.cat, req.key.apiName, result).decision;
            var run, dir := RunIdOf(w.cat, req), DirOf(w.disk, RunIdOf(w.cat, req));
            e.w.disk
            == if e.end.result.snapshot.Some? then
                 DiskAfterCommit(w.disk, run, PlanFetch(req.key, sc.today, slot), raw, lake,
                                 !CleanUpFails(sc.publish, req.finishRun))
               else if d.changeType.IncompatibleTypeChange? then
                 DiskAfterReject(w.disk, run, req.key, SchemaIncompatible, dir[RawTmp(req.key) := raw])
               else
                 DiskAfterReject(w.disk, run, req.key, ValidationFailed, StagedDir(dir, req.key, raw, lake, sc))
  {
    var key, run := req.key, RunIdOf(w.cat, req);
    var plan := PlanFetch(key, sc.today, slot);
    var begun := ApplyAll(BeginActions(w.cat, req), w);
    BeginTables(w, req);
    BeginKeepsRest(w, req);
    FetchFinished(text, w, req, slot, sc);
    BodyFinished(text, begun, plan, run, req.finishRun, sc);
    result := QueryWithRetry(sc.replies, sc.maxAttempts, 1).result;
    var prepared := PreparedFor(text, w.cat, key.apiName, result);
    raw := RawContent(run, key, result.events, sc.rawBytes);
    lake := LakeContent(run, key, prepared.decision.schema, result.fields, prepared.items, sc.lakeBytes);
    var written := Written(begun, plan, run, result, sc);
    WrittenWorld(begun, plan, run, result, sc);
    assert written.disk == WithDir(w.disk, run, DirOf(w.disk, run)[RawTmp(key) := raw]);
    if prepared.decision.Compatible() {
      AcceptedDisk(w.disk, written, plan, run, req.finishRun, result, prepared, raw, sc);
    } else {
      RefusedDisk(w.disk, written, key, run, req.finishRun, prepared.decision, raw, sc.stage);
      RejectedHasNoData(ChangeActions(prepared.decision), written, key, run, req.finishRun, SchemaIncompatible,
                        Some(raw.bytes), Some(Sha256(raw)), sc.stage);
    }
  }

  // ---- after a raise ----

  /** The catalog that the except clause makes of the one it finds: the job, and the run if it is to be
      ended, failed with the error, and a quarantine entry if there was a directory to move. */
  function CatAfterRaise(c: Cat, key: JobKey, runId: RunId, finishRun: bool, error: ErrorType, moved: bool): Cat {
    c.(jobs := if key in c.jobs then c.jobs[key := c.jobs[key].(status := Failed, lastError := Some(error))]
               else c.jobs,
       runs := if finishRun && runId < |c.runs| then
                 c.runs[runId := RunRow(c.runs[runId].runType, RunFailed(Some(error)))]
               else c.runs,
       quarantine := if moved then c.quarantine + [QuarantineRow(runId, key, error, None, None)] else c.quarantine)
  }

  /** The disk: the directory, as it is, is in quarantine; without one, what lay there before is gone. */
  function DiskAfterRaise(d: Disk, key: JobKey, runId: RunId, error: ErrorType): Disk {
    if runId in d.tmp then DiskAfterReject(d, runId, key, error, d.tmp[runId])
    else Disk(d.final, d.tmp, d.quarantined - {QuarantineDir(runId, key, error)})
  }

  lemma {:induction false} FailedAndEnded(w: World, key: JobKey, runId: RunId, finishRun: bool, error: ErrorType)
    ensures ApplyAll([FailJob(key, error)] + EndActions(finishRun, runId, RunFailed(Some(error))), w)
            == World(w.disk, CatAfterRaise(w.cat, key, runId, finishRun, error, false))
  {
    var end := EndActions(finishRun, runId, RunFailed(Some(error)));
    var failed := Apply(FailJob(key, error), w);
    ApplyCons(FailJob(key, error), end, w);
    EndTables(failed, finishRun, runId, RunFailed(Some(error)));
    DiskLeft(end, failed);
  }

  lemma {:induction false} MovedAndNoted(w: World, key: JobKey, runId: RunId, error: ErrorType, note: seq<Action>)
    requires note == if runId in w.disk.tmp then [NoteQuarantine(QuarantineRow(runId, key, error, None, None))] else []
    ensures ApplyAll([MoveToQuarantine(runId, QuarantineDir(runId, key, error))] + note, w)
            == World(DiskAfterRaise(w.disk, key, runId, error),
                     if runId in w.disk.tmp then
                       w.cat.(quarantine := w.cat.quarantine + [QuarantineRow(runId, key, error, None, None)])
                     else w.cat)
  {
    var move := MoveToQuarantine(runId, QuarantineDir(runId, key, error));
    ApplyCons(move, note, w);
    if runId in w.disk.tmp {
      ApplyOne(note[0], Apply(move, w));
    }
  }

  lemma {:induction false} HandledWorld(w: World, key: JobKey, runId: RunId, finishRun: bool, error: ErrorType)
    ensures ApplyAll(HandlerActions(w, key, runId, finishRun, error), w)
            == World(DiskAfterRaise(w.disk, key, runId, error),
                     CatAfterRaise(w.cat, key, runId, finishRun, error, runId in w.disk.tmp))
  {
    var first := [FailJob(key, error)] + EndActions(finishRun, runId, RunFailed(Some(error)));
    var note := if runId in w.disk.tmp then [NoteQuarantine(QuarantineRow(runId, key, error, None, None))] else [];
    var later := [MoveToQuarantine(runId, QuarantineDir(runId, key, error))] + note;
    assert HandlerActions(w, key, runId, finishRun, error) == first + later;
    ApplyAppend(first, later, w);
    FailedAndEnded(w, key, runId, finishRun, error);
    MovedAndNoted(ApplyAll(first, w), key, runId, error, note);
  }

  /** A fetch that raises, its except clause working, leaves exactly what this clause makes of what the
      body of the try statement had got to. */
  lemma {:induction false} RaisedWorld(text: Schema.Text, w: World, req: Request, slot: Slot, sc: Script)
    requires !ExistingActiveData(w.cat, req.key) && sc.begin.NoFault? && sc.handler.NoFault?
    requires Fetch(text, w, req, slot, sc).end.Threw?
    ensures var body, run := BodyOf(text, w, req, slot, sc).w, RunIdOf(w.cat, req);
            var e := Fetch(text, w, req, slot, sc);
            e.w == World(DiskAfterRaise(body.disk, req.key, run, e.end.error),
                         CatAfterRaise(body.cat, req.key, run, req.finishRun, e.end.error, run in body.disk.tmp))
  {
    BeginTables(w, req);
    FetchThrew(text, w, req, slot, sc);
    HandledWorld(BodyOf(text, w, req, slot, sc).w, req.key, RunIdOf(w.cat, req), req.finishRun,
                 Fetch(text, w, req, slot, sc).end.error);
  }
}
