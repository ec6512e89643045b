/** The store object: the same steps carried out on the disk and on the catalog object, one after
    the other. */
module LakeStore {
  import opened Wrappers
  import opened Errors
  import opened Catalog
  import opened Store
  import Schema
  import Client

  predicate OnTables(a: Action) {
    a.NoteSchemaChange? || a.AddSchema? || a.StageFile? || a.Restage? || a.NoteQuarantine?
  }

  class FileLakeStore {
    const catalog: CatalogStore
    var final: map<Path, Content>
    var tmp: map<RunId, Dir>
    var quarantined: map<QuarantineDir, Dir>

    function State(): World
      reads this, catalog
    {
      World(Disk(final, tmp, quarantined), catalog.State())
    }

    constructor (catalog: CatalogStore)
      ensures this.catalog == catalog
      ensures State() == World(Disk(map[], map[], map[]), catalog.State())
    {
      this.catalog := catalog;
      final, tmp, quarantined := map[], map[], map[];
    }

    /** The file is there with this content; other files of the run and other runs are untouched. */
    method WriteTmp(runId: RunId, name: TmpName, content: Content)
      modifies this`tmp
      ensures tmp.Keys == old(tmp).Keys + {runId} && forall r | r in old(tmp) && r != runId :: tmp[r] == old(tmp)[r]
      ensures Find(tmp[runId], name) == Some(content)
      ensures forall other | other != name ::
                Find(tmp[runId], other) == if runId in old(tmp) then Find(old(tmp)[runId], other) else None
      ensures Disk(final, tmp, quarantined) == ApplyDisk(Write(runId, name, content),
                                                         old(Disk(final, tmp, quarantined)))
    {
      var dir := if runId in tmp then tmp[runId] else map[];
      tmp := tmp[runId := dir[name := content]];
    }

    /** `atomic_move`: what was in the temp file is now at the path and no longer in the temp
        directory, which stays; other paths and temp files are untouched. Without the temp file
        nothing happens. */
    method MoveToFinal(runId: RunId, name: TmpName, path: Path)
      modifies this`tmp, this`final
      ensures forall p | p != path :: Find(final, p) == Find(old(final), p)
      ensures tmp.Keys == old(tmp).Keys && forall r | r in tmp && r != runId :: tmp[r] == old(tmp)[r]
      ensures runId in tmp ==> name !in tmp[runId]
                               && forall other | other != name ::
                                    Find(tmp[runId], other) == Find(old(tmp)[runId], other)
      ensures Find(final, path) == if runId in old(tmp) && name in old(tmp)[runId] then Some(old(tmp)[runId][name])
                                   else Find(old(final), path)
      ensures Disk(final, tmp, quarantined) == ApplyDisk(Publish(runId, name, path), old(Disk(final, tmp, quarantined)))
    {
      if runId in tmp && name in tmp[runId] {
        var dir := tmp[runId];
        final := final[path := dir[name]];
        tmp := tmp[runId := dir - {name}];
      }
    }

    /** `move_tree_to_quarantine`: the temp directory of the run is now the quarantined one; without
        a temp directory, whatever was quarantined there before is gone. Nothing else changes. */
    method Quarantine(runId: RunId, dir: QuarantineDir)
      modifies this`tmp, this`quarantined
      ensures tmp.Keys == old(tmp).Keys - {runId} && forall r | r in tmp :: tmp[r] == old(tmp)[r]
      ensures Find(quarantined, dir) == if runId in old(tmp) then Some(old(tmp)[runId]) else None
      ensures forall other | other != dir :: Find(quarantined, other) == Find(old(quarantined), other)
      ensures Disk(final, tmp, quarantined) == ApplyDisk(MoveToQuarantine(runId, dir),
                                                         old(Disk(final, tmp, quarantined)))
    {
      quarantined := quarantined - {dir};
      if runId in tmp {
        quarantined := quarantined[dir := tmp[runId]];
        tmp := tmp - {runId};
      }
    }

    /** What storage does to a staged file before it is validated: it may be lost or hold something
        else; other files stay. */
    method Rots(runId: RunId, name: TmpName, rot: Rot)
      modifies this`tmp
      ensures tmp.Keys == old(tmp).Keys && forall r | r in tmp && r != runId :: tmp[r] == old(tmp)[r]
      ensures runId in tmp ==> forall other | other != name ::
                Find(tmp[runId], other) == Find(old(tmp)[runId], other)
      ensures runId in tmp && name in old(tmp)[runId] ==>
                Find(tmp[runId], name) == if rot.Damaged? then Some(rot.content) else if rot.Lost? then None
                                          else Some(old(tmp)[runId][name])
      ensures runId in tmp && name !in old(tmp)[runId] ==> tmp[runId] == old(tmp)[runId]
      ensures Disk(final, tmp, quarantined) == ApplyDisk(Decay(runId, name, rot), old(Disk(final, tmp, quarantined)))
    {
      if runId in tmp && name in tmp[runId] {
        match rot
        case NoRot =>
        case Lost => tmp := tmp[runId := tmp[runId] - {name}];
        case Damaged(content) => tmp := tmp[runId := tmp[runId][name := content]];
      }
    }

    method DoOnDisk(a: Action)
      modifies this
      ensures Disk(final, tmp, quarantined) == ApplyDisk(a, old(Disk(final, tmp, quarantined)))
    {
      match a
      case Write(runId, name, content) => WriteTmp(runId, name, content);
      case Decay(runId, name, rot) => Rots(runId, name, rot);
      case Publish(runId, name, path) => MoveToFinal(runId, name, path);
      case CleanUp(runId) => tmp := tmp - {runId};
      case MoveToQuarantine(runId, dir) => Quarantine(runId, dir);
      case _ =>
    }

    /** The steps that concern files, schemas and the quarantine table. */
    method DoOnTables(a: Action)
      modifies catalog
      ensures catalog.State() == if OnTables(a) then ApplyCat(a, old(catalog.State())) else old(catalog.State())
    {
      match a
      case NoteSchemaChange(change) => catalog.AddSchemaChange(change);
      case AddSchema(schema) => catalog.AddSchema(schema);
      case StageFile(row) => var _ := catalog.AddFile(row);
      case Restage(f) => catalog.UpdateFileStatus(f, Staged, None);
      case NoteQuarantine(entry) => catalog.AddQuarantine(entry);
      case _ =>
    }

    method DoOnCatalog(a: Action)
      modifies catalog
      ensures catalog.State() == ApplyCat(a, old(catalog.State()))
    {
      match a
      case BeginRun(runType) => var _ := catalog.Create(runType);
      case BeginJob(key, runId) => catalog.Upsert(key, runId);
      case Commit(apiName, files, runId, key) => var _ := catalog.Commit(apiName, files, runId, key, key.params);
      case FinishJob(key, n, s, e) => catalog.JobDone(key, n, s, e);
      case FailJob(key, error) => catalog.JobFailed(key, error);
      case EndRun(runId, status) => catalog.Finish(runId, status);
      case _ => DoOnTables(a);
    }

    /** One step that succeeds: it concerns the disk or the catalog. */
    method Do(a: Action)
      modifies this, catalog
      ensures State() == Apply(a, old(State()))
    {
      DoOnDisk(a);
      DoOnCatalog(a);
    }

    /** The step that goes wrong: only a write leaves a trace, its directory at least or a file. */
    method Fail(a: Action, residue: Residue)
      modifies this`tmp
      ensures !a.Write? || residue.NoDirectory? ==> tmp == old(tmp)
      ensures a.Write? && !residue.NoDirectory? ==>
                && tmp.Keys == old(tmp).Keys + {a.runId}
                && forall r | r in old(tmp) && r != a.runId :: tmp[r] == old(tmp)[r]
      ensures a.Write? && residue.PartialFile? ==> Find(tmp[a.runId], a.name) == Some(residue.content)
      ensures World(Disk(final, tmp, quarantined), catalog.State()) == Interrupted(a, old(State()), residue)
    {
      if a.Write? {
        match residue
        case NoDirectory =>
        case EmptyDirectory => tmp := tmp[a.runId := if a.runId in tmp then tmp[a.runId] else map[]];
        case PartialFile(content) => WriteTmp(a.runId, a.name, content);
      }
    }

    /** Step by step up to the fault, if it strikes. */
    method Carry(actions: seq<Action>, fault: Fault) returns (stopped: Option<End>)
      modifies this, catalog
      ensures Perform(actions, fault, old(State()))
              == if stopped.Some? then Stop(State(), stopped.value) else Go(State())
    {
      var n := if Strikes(fault, actions) then fault.at else |actions|;
      for i := 0 to n
        invariant State() == ApplyAll(actions[..i], old(State()))
      {
        assert actions[..i + 1][..i] == actions[..i];
        Do(actions[i]);
      }
      assert actions[..|actions|] == actions;
      if n == |actions| {
        return None;
      }
      if !fault.crash && actions[n].CleanUp? {
        return None;
      }
      Fail(actions[n], fault.residue);
      return Some(if fault.crash then Died else Threw(ErrorOf(actions[n])));
    }

    // ---- validation ----

    /** `validate_file_rows` on one row, its findings appended to the earlier ones. */
    method ValidateFile(row: FileRow, found: Option<Content>, earlier: seq<FileFailure>)
      returns (failures: seq<FileFailure>)
      ensures failures == earlier + FileFailures(row, found)
    {
      if found.None? {
        return earlier + [MissingFile];
      }
      var content := found.value;
      failures := [];
      if row.size == 0 || row.size != content.bytes {
        failures := failures + [SizeMismatch];
      }
      if row.sha != Sha256(content) {
        failures := failures + [ChecksumMismatch];
      }
      var parts := ValidateCounts(row, content);
      failures := earlier + (failures + parts);
    }

    /** The part of the validation that opens the file. */
    method ValidateCounts(row: FileRow, content: Content) returns (failures: seq<FileFailure>)
      ensures failures == LakeFileFailures(row, content) + RawFileFailures(row, content)
    {
      failures := [];
      if row.contentType.Lake? {
        if content.Parquet? {
          if row.recordCount.Some? && |content.rows| != row.recordCount.value {
            failures := failures + [RecordCountMismatch];
          }
          if row.schema.None? {
            failures := failures + [SchemaIdMissing];
          }
        } else {
          failures := failures + [ParquetFooterUnreadable];
        }
      }
      if row.contentType.Raw? {
        if content.Jsonl? {
          if row.rawEventCount.Some? && |content.events| != row.rawEventCount.value {
            failures := failures + [RawEventCountMismatch];
          }
        } else {
          failures := failures + [RawUnreadable];
        }
      }
    }

    method ValidateStaged(runId: RunId, plan: FetchPlan, rawId: FileId, lakeId: FileId)
      returns (failures: seq<FileFailure>)
      ensures failures == StagedFailures(State(), runId, plan, rawId, lakeId)
    {
      var files, dir := catalog.files, if runId in tmp then tmp[runId] else map[];
      failures := [];
      if rawId < |files| && lakeId < |files| {
        failures := ValidateFile(files[rawId], Find(dir, RawTmp(plan.key)), failures);
        failures := ValidateFile(files[lakeId], Find(dir, LakeTmp(plan.key)), failures);
      }
    }

    // ---- fetch ----

    /** Stage both files, validate them, publish and commit; or quarantine them. */
    method Accept(plan: FetchPlan, runId: RunId, finishRun: bool, result: Client.QueryResult,
                  prepared: Schema.Preparation, raw: Content, sc: Script)
      returns (end: End)
      modifies this, catalog
      ensures Ending(State(), end) == Store.Accept(old(State()), plan, runId, finishRun, result, prepared, raw, sc)
    {
      var lake := LakeContent(runId, plan.key, prepared.decision.schema, result.fields, prepared.items, sc.lakeBytes);
      var rawId, lakeId := |catalog.files|, |catalog.files| + 1;
      var stopped := Carry(StageActions(plan, runId, result, prepared.decision, raw, lake, sc), sc.stage);
      if stopped.Some? {
        return stopped.value;
      }
      var failures := ValidateStaged(runId, plan, rawId, lakeId);
      if failures != [] {
        var dir := DirOf(State().disk, runId);
        var size := if RawTmp(plan.key) in dir then Some(dir[RawTmp(plan.key)].bytes) else None;
        stopped := Carry(RejectActions(plan.key, runId, finishRun, ValidationFailed, size, None), sc.publish);
        return if stopped.Some? then stopped.value else NoData(runId, plan.key);
      }
      var snapshot := |catalog.snapshots|;
      stopped := Carry(PublishActions(plan, runId, finishRun, rawId, lakeId, result), sc.publish);
      return if stopped.Some? then stopped.value
             else Finished(FetchResult(Some(runId), plan.key, Some(snapshot), |result.items|, false));
    }

    /** The body of the try statement. */
    method Attempt(text: Schema.Text, plan: FetchPlan, runId: RunId, finishRun: bool, sc: Script) returns (end: End)
      modifies this, catalog
      ensures Ending(State(), end) == Body(text, old(State()), plan, runId, finishRun, sc)
    {
      var reply := QueryWithRetryLoop(sc.replies, sc.maxAttempts);
      if reply.Refusal? {
        return Threw(reply.error);
      }
      var result, api := reply.result, plan.key.apiName;
      var raw := RawContent(runId, plan.key, result.events, sc.rawBytes);
      var stopped := Carry([Write(runId, RawTmp(plan.key), raw)], sc.write);
      if stopped.Some? {
        return stopped.value;
      }
      var prepared := Schema.Prepare(text, Schema.LatestSchema(catalog.schemas, api), api, result.fields, result.items);
      if !prepared.decision.Compatible() {
        stopped := Carry(ChangeActions(prepared.decision)
                         + RejectActions(plan.key, runId, finishRun, SchemaIncompatible, Some(raw.bytes),
                                         Some(Sha256(raw))), sc.stage);
        return if stopped.Some? then stopped.value else NoData(runId, plan.key);
      }
      end := Accept(plan, runId, finishRun, result, prepared, raw, sc);
    }

    /** The object carries out exactly the fetch that the specification describes. */
    method Fetch(text: Schema.Text, req: Request, slot: Slot, sc: Script) returns (end: End)
      modifies this, catalog
      ensures Ending(State(), end) == Store.Fetch(text, old(State()), req, slot, sc)
    {
      var key, c := req.key, catalog.State();
      if ExistingActiveData(c, key) {
        return Finished(FetchResult(req.runId, key, LatestSnapshot(c, key.apiName), RecordedCount(c, key), true));
      }
      var runId := RunOf(c, req);
      var plan := PlanFetch(key, sc.today, slot);
      var stopped := Carry(BeginActions(c, req), sc.begin);
      if stopped.Some? {
        return stopped.value;
      }
      end := Attempt(text, plan, runId, req.finishRun, sc);
      if end.Threw? {
        stopped := Carry(HandlerActions(State(), key, runId, req.finishRun, end.error), sc.handler);
        if stopped.Some? {
          end := stopped.value;
        }
      }
    }
  }
}
