/** The catalog: its tables, its transactions as functions from one state to the next, and the
    store object whose methods carry them out. Row ids that the source draws at random are the
    next position in the table. */
module Catalog {
  import opened Wrappers
  import opened Errors
  import Schema
  import Client

  // ---- identities ----

  /** A job key is a hash of these four parts; the hash is taken to be the parts. */
  datatype JobKey = JobKey(apiName: string, params: map<string, string>, fields: seq<string>, spec: string)

  type RunId = nat
  type FileId = nat
  type SnapshotId = nat

  /** Where committed files live, relative to the root. A lake path holds only the last twelve
      characters of the key. */
  datatype Path =
    | RawPath(apiName: string, ingestDate: string, key: JobKey)
    | LakePath(apiName: string, partition: string, keyTail: string)

  // ---- file contents ----

  datatype RawEvent = RawEvent(runId: RunId, key: JobKey, event: Client.Event)

  datatype LakeRow = LakeRow(runId: RunId, key: JobKey, schema: Schema.SchemaDef, source: Schema.Row)

  datatype Content =
    | Jsonl(events: seq<RawEvent>, bytes: nat)
    | Parquet(rows: seq<LakeRow>, bytes: nat)
    | Unreadable(text: string, bytes: nat)

  /** SHA-256 is taken to tell any two contents apart. */
  datatype Digest = Sha256(content: Content)

  // ---- tables ----

  datatype ContentType = Raw | Lake | Object | Derived

  datatype FileStatus = Staged | Current | Quarantined | Missing | Deleted | DeletedPending | Superseded | Compacted

  datatype FileRow = FileRow(
    apiName: string, contentType: ContentType, path: Path,
    recordCount: Option<nat>, sourceItemCount: nat, rawEventCount: Option<nat>,
    size: nat, sha: Digest, schema: Option<Schema.SchemaDef>,
    status: FileStatus, stagedIn: Option<RunId>, runId: RunId, key: JobKey, addedBy: Option<SnapshotId>)

  datatype JobStatus = Running | Done | Failed

  datatype JobRow = JobRow(
    runId: RunId, status: JobStatus, attempts: nat,
    recordCount: Option<nat>, sourceItemCount: Option<nat>, rawEventCount: Option<nat>,
    lastError: Option<ErrorType>)

  datatype Snapshot = Snapshot(
    apiName: string, parent: Option<SnapshotId>, sequence: nat, current: bool, runId: RunId, files: set<FileId>)

  datatype QuarantineRow = QuarantineRow(
    runId: RunId, key: JobKey, reason: ErrorType, size: Option<nat>, sha: Option<Digest>)

  datatype RunStatus = RunRunning | RunSucceeded | RunFailed(error: Option<ErrorType>)

  datatype RunRow = RunRow(runType: string, status: RunStatus)

  datatype SchemaChange = SchemaChange(apiName: string, schema: Schema.SchemaDef, changeType: Schema.ChangeType,
                                       approved: bool)

  datatype Cat = Cat(
    jobs: map<JobKey, JobRow>,
    files: seq<FileRow>,
    snapshots: seq<Snapshot>,
    quarantine: seq<QuarantineRow>,
    runs: seq<RunRow>,
    schemas: Schema.Registry,
    schemaChanges: seq<SchemaChange>,
    checkpoints: map<JobKey, map<string, string>>)

  const EMPTY := Cat(map[], [], [], [], [], [], [], map[])

  // ---- queries ----

  predicate IsCurrentOf(s: Snapshot, apiName: string) {
    s.apiName == apiName && s.current
  }

  /** `latest_snapshot` among the first n: the current one with the highest sequence number, the
      younger of two with the same. */
  function LatestAmong(snapshots: seq<Snapshot>, apiName: string, n: nat): (r: Option<SnapshotId>)
    requires n <= |snapshots|
    ensures r.Some? ==> r.value < n && IsCurrentOf(snapshots[r.value], apiName)
    ensures r.None? ==> forall i | 0 <= i < n :: !IsCurrentOf(snapshots[i], apiName)
    ensures r.Some? ==> forall i | 0 <= i < n && IsCurrentOf(snapshots[i], apiName) ::
                          snapshots[i].sequence <= snapshots[r.value].sequence
  {
    if n == 0 then None
    else
      var best := LatestAmong(snapshots, apiName, n - 1);
      if IsCurrentOf(snapshots[n - 1], apiName)
         && (best.None? || snapshots[n - 1].sequence >= snapshots[best.value].sequence)
      then Some(n - 1) else best
  }

  function LatestSnapshot(c: Cat, apiName: string): (r: Option<SnapshotId>)
    ensures r.Some? ==> r.value < |c.snapshots| && IsCurrentOf(c.snapshots[r.value], apiName)
    ensures r.None? ==> forall i | 0 <= i < |c.snapshots| :: !IsCurrentOf(c.snapshots[i], apiName)
  {
    LatestAmong(c.snapshots, apiName, |c.snapshots|)
  }

  /** The choice is exactly the current snapshot that no other one beats: none has a higher number,
      and no younger one the same. */
  predicate Unbeaten(snapshots: seq<Snapshot>, apiName: string, n: nat, r: SnapshotId)
    requires r < n <= |snapshots|
  {
    && snapshots[r].current && snapshots[r].apiName == apiName
    && forall i | 0 <= i < n && snapshots[i].current && snapshots[i].apiName == apiName ::
         snapshots[i].sequence < snapshots[r].sequence || (snapshots[i].sequence == snapshots[r].sequence && i <= r)
  }

  lemma {:induction false} LatestIsUnbeaten(snapshots: seq<Snapshot>, apiName: string, n: nat, r: SnapshotId)
    requires r < n <= |snapshots|
    ensures LatestAmong(snapshots, apiName, n) == Some(r) <==> Unbeaten(snapshots, apiName, n, r)
  {
    var latest := LatestAmong(snapshots, apiName, n);
    if latest.Some? {
      LatestBeatsAll(snapshots, apiName, n);
    }
  }

  lemma {:induction false} LatestBeatsAll(snapshots: seq<Snapshot>, apiName: string, n: nat)
    requires n <= |snapshots| && LatestAmong(snapshots, apiName, n).Some?
    ensures Unbeaten(snapshots, apiName, n, LatestAmong(snapshots, apiName, n).value)
  {
    if n > 0 && LatestAmong(snapshots, apiName, n - 1).Some? {
      LatestBeatsAll(snapshots, apiName, n - 1);
    }
  }

  /** The files of the latest snapshot of an API. */
  function HeadFiles(c: Cat, apiName: string): set<FileId> {
    var latest := LatestSnapshot(c, apiName);
    if latest.None? then {} else c.snapshots[latest.value].files
  }

  const INACTIVE: set<FileStatus> := {Quarantined, Missing, Deleted, DeletedPending}

  /** Left out of the latest state as well. */
  const OUTDATED: set<FileStatus> := {Superseded, Compacted}

  /** `active_files_for_job` for lake files */
  function ActiveLakeFiles(c: Cat, key: JobKey): set<FileId> {
    set f | f in HeadFiles(c, key.apiName) && f < |c.files|
            && c.files[f].contentType.Lake? && c.files[f].key == key && c.files[f].status !in INACTIVE
  }

  /** A lake file of the job in the snapshot of its API that no other beats, neither quarantined nor
      missing nor deleted. */
  ghost predicate IsActive(c: Cat, key: JobKey, f: int) {
    && 0 <= f < |c.files| && c.files[f].contentType.Lake? && c.files[f].key == key
    && (c.files[f].status.Staged? || c.files[f].status.Current? || c.files[f].status.Superseded?
        || c.files[f].status.Compacted?)
    && exists s :: 0 <= s < |c.snapshots| && Unbeaten(c.snapshots, key.apiName, |c.snapshots|, s)
                   && f in c.snapshots[s].files
  }

  lemma {:induction false} ActiveIff(c: Cat, key: JobKey, f: int)
    ensures f in ActiveLakeFiles(c, key) <==> IsActive(c, key, f)
  {
    if IsActive(c, key, f) {
      var s :| 0 <= s < |c.snapshots| && Unbeaten(c.snapshots, key.apiName, |c.snapshots|, s)
               && f in c.snapshots[s].files;
      LatestIsUnbeaten(c.snapshots, key.apiName, |c.snapshots|, s);
    }
    if f in ActiveLakeFiles(c, key) {
      LatestBeatsAll(c.snapshots, key.apiName, |c.snapshots|);
    }
  }

  predicate IsDone(c: Cat, key: JobKey) {
    key in c.jobs && c.jobs[key].status.Done?
  }

  // ---- transactions ----

  predicate SameCounts(r: JobRow, before: JobRow) {
    && r.recordCount == before.recordCount && r.sourceItemCount == before.sourceItemCount
    && r.rawEventCount == before.rawEventCount
  }

  predicate SameAttempt(r: JobRow, before: JobRow) {
    r.runId == before.runId && r.attempts == before.attempts
  }

  function CreateRun(c: Cat, runType: string): Cat {
    c.(runs := c.runs + [RunRow(runType, RunRunning)])
  }

  function FinishRun(c: Cat, runId: RunId, status: RunStatus): Cat {
    if runId < |c.runs| then c.(runs := c.runs[runId := c.runs[runId].(status := status)]) else c
  }

  function UpsertJob(c: Cat, key: JobKey, runId: RunId): Cat {
    var row := if key in c.jobs
               then c.jobs[key].(runId := runId, status := Running, attempts := c.jobs[key].attempts + 1,
                                 lastError := None)
               else JobRow(runId, Running, 1, None, None, None, None);
    c.(jobs := c.jobs[key := row])
  }

  function MarkDone(c: Cat, key: JobKey, recordCount: nat, sourceItemCount: nat, rawEventCount: nat): Cat {
    if key !in c.jobs then c
    else c.(jobs := c.jobs[key := c.jobs[key].(status := Done, recordCount := Some(recordCount),
                                               sourceItemCount := Some(sourceItemCount),
                                               rawEventCount := Some(rawEventCount), lastError := None)])
  }

  function MarkFailed(c: Cat, key: JobKey, error: ErrorType): Cat {
    if key !in c.jobs then c
    else c.(jobs := c.jobs[key := c.jobs[key].(status := Failed, lastError := Some(error))])
  }

  function InsertFile(c: Cat, row: FileRow): Cat {
    c.(files := c.files + [row])
  }

  function SetFileStatus(c: Cat, f: FileId, status: FileStatus, stagedIn: Option<RunId>): Cat {
    if f < |c.files| then c.(files := c.files[f := c.files[f].(status := status, stagedIn := stagedIn)]) else c
  }

  function RecordQuarantine(c: Cat, row: QuarantineRow): Cat {
    c.(quarantine := c.quarantine + [row])
  }

  function InsertSchema(c: Cat, schema: Schema.SchemaDef): Cat {
    c.(schemas := Schema.InsertSchema(c.schemas, schema))
  }

  function RecordSchemaChange(c: Cat, change: SchemaChange): Cat {
    c.(schemaChanges := c.schemaChanges + [change])
  }

  function Supersede(snapshots: seq<Snapshot>, parent: Option<SnapshotId>): seq<Snapshot> {
    if parent.Some? && parent.value < |snapshots|
    then snapshots[parent.value := snapshots[parent.value].(current := false)] else snapshots
  }

  function CommittedRow(row: FileRow, id: SnapshotId): FileRow {
    row.(status := Current, addedBy := Some(id))
  }

  function Committed(files: seq<FileRow>, newFiles: seq<FileId>, id: SnapshotId): seq<FileRow> {
    seq(|files|, f requires 0 <= f < |files| => if f in newFiles then CommittedRow(files[f], id) else files[f])
  }

  /** The snapshots with a new one on top of a parent. */
  function OnTop(snapshots: seq<Snapshot>, parent: Option<SnapshotId>, apiName: string, newFiles: seq<FileId>,
                 runId: RunId): seq<Snapshot>
    requires parent.Some? ==> parent.value < |snapshots|
  {
    var inherited := if parent.Some? then snapshots[parent.value].files else {};
    var sequence := if parent.Some? then snapshots[parent.value].sequence + 1 else 1;
    Supersede(snapshots, parent)
    + [Snapshot(apiName, parent, sequence, true, runId, inherited + (set f | f in newFiles))]
  }

  /** The transaction inside `commit_snapshot`, for the parent that was read before it began. */
  function CommitOnto(c: Cat, parent: Option<SnapshotId>, apiName: string, newFiles: seq<FileId>, runId: RunId,
                      key: JobKey, cursor: map<string, string>): Cat
    requires parent.Some? ==> parent.value < |c.snapshots|
  {
    c.(snapshots := OnTop(c.snapshots, parent, apiName, newFiles, runId),
       files := Committed(c.files, newFiles, |c.snapshots|),
       checkpoints := c.checkpoints[key := cursor])
  }

  /** `commit_snapshot` when no other writer comes in between reading the parent and committing. */
  function CommitSnapshot(c: Cat, apiName: string, newFiles: seq<FileId>, runId: RunId, key: JobKey,
                          cursor: map<string, string>): Cat
  {
    CommitOnto(c, LatestSnapshot(c, apiName), apiName, newFiles, runId, key, cursor)
  }

  // ---- the store object ----

  class CatalogStore {
    var jobs: map<JobKey, JobRow>
    var files: seq<FileRow>
    var snapshots: seq<Snapshot>
    var quarantine: seq<QuarantineRow>
    var runs: seq<RunRow>
    var schemas: Schema.Registry
    var schemaChanges: seq<SchemaChange>
    var checkpoints: map<JobKey, map<string, string>>

    function State(): Cat
      reads this
    {
      Cat(jobs, files, snapshots, quarantine, runs, schemas, schemaChanges, checkpoints)
    }

    constructor ()
      ensures State() == EMPTY
    {
      jobs, files, snapshots, quarantine := map[], [], [], [];
      runs, schemas, schemaChanges, checkpoints := [], [], [], map[];
    }

    /** The new run takes the next number; earlier runs keep their rows. */
    method Create(runType: string) returns (runId: RunId)
      modifies this`runs
      ensures |runs| == runId + 1 && runs[..runId] == old(runs)
      ensures runs[runId].runType == runType && runs[runId].status.RunRunning?
      ensures runId == |old(runs)| && State() == CreateRun(old(State()), runType)
    {
      runId := |runs|;
      runs := runs + [RunRow(runType, RunRunning)];
    }

    /** Only the status of this run changes; a run that does not exist is ignored. */
    method Finish(runId: RunId, status: RunStatus)
      modifies this`runs
      ensures |runs| == |old(runs)|
      ensures forall r | 0 <= r < |runs| ::
                runs[r].runType == old(runs)[r].runType
                && runs[r].status == if r == runId then status else old(runs)[r].status
      ensures State() == FinishRun(old(State()), runId, status)
    {
      if runId < |runs| {
        runs := runs[runId := runs[runId].(status := status)];
      }
    }

    /** One more attempt at the job, under the given run: it is running and its last error is
        forgotten, but the counts of an earlier attempt stay. Other jobs keep their rows. */
    method Upsert(key: JobKey, runId: RunId)
      modifies this`jobs
      ensures jobs.Keys == old(jobs).Keys + {key} && forall k | k in old(jobs) && k != key :: jobs[k] == old(jobs)[k]
      ensures jobs[key].status.Running? && jobs[key].runId == runId && jobs[key].lastError.None?
      ensures jobs[key].attempts == 1 + if key in old(jobs) then old(jobs)[key].attempts else 0
      ensures key in old(jobs) ==> SameCounts(jobs[key], old(jobs)[key])
      ensures key !in old(jobs) ==>
                jobs[key].recordCount.None? && jobs[key].sourceItemCount.None? && jobs[key].rawEventCount.None?
      ensures State() == UpsertJob(old(State()), key, runId)
    {
      if key in jobs {
        var row := jobs[key];
        jobs := jobs[key := row.(runId := runId, status := Running, attempts := row.attempts + 1, lastError := None)];
      } else {
        jobs := jobs[key := JobRow(runId, Running, 1, None, None, None, None)];
      }
    }

    /** A job that is known becomes done with these counts and without an error, in the attempt and
        the run it was in; one that is not known stays unknown. Other jobs keep their rows. */
    method JobDone(key: JobKey, recordCount: nat, sourceItemCount: nat, rawEventCount: nat)
      modifies this`jobs
      ensures jobs.Keys == old(jobs).Keys && forall k | k in old(jobs) && k != key :: jobs[k] == old(jobs)[k]
      ensures key in jobs ==> jobs[key].status.Done?
      ensures key in jobs ==> SameAttempt(jobs[key], old(jobs)[key]) && jobs[key].lastError.None?
      ensures key in jobs ==> jobs[key].recordCount == Some(recordCount)
                              && jobs[key].sourceItemCount == Some(sourceItemCount)
                              && jobs[key].rawEventCount == Some(rawEventCount)
      ensures State() == MarkDone(old(State()), key, recordCount, sourceItemCount, rawEventCount)
    {
      if key in jobs {
        jobs := jobs[key := jobs[key].(status := Done, recordCount := Some(recordCount),
                                       sourceItemCount := Some(sourceItemCount),
                                       rawEventCount := Some(rawEventCount), lastError := None)];
      }
    }

    /** A job that is known becomes failed with this error and keeps its counts. Other jobs keep
        their rows. */
    method JobFailed(key: JobKey, error: ErrorType)
      modifies this`jobs
      ensures jobs.Keys == old(jobs).Keys && forall k | k in old(jobs) && k != key :: jobs[k] == old(jobs)[k]
      ensures key in jobs ==> jobs[key].status.Failed? && jobs[key].lastError == Some(error)
      ensures key in jobs ==> SameAttempt(jobs[key], old(jobs)[key]) && SameCounts(jobs[key], old(jobs)[key])
      ensures State() == MarkFailed(old(State()), key, error)
    {
      if key in jobs {
        jobs := jobs[key := jobs[key].(status := Failed, lastError := Some(error))];
      }
    }

    /** The row gets the next number; what the latest snapshots hold does not change. */
    method AddFile(row: FileRow) returns (f: FileId)
      modifies this`files
      ensures |files| == f + 1 && files[..f] == old(files) && files[f] == row
      ensures forall a :: HeadFiles(State(), a) == HeadFiles(old(State()), a)
      ensures f == |old(files)| && State() == InsertFile(old(State()), row)
    {
      f := |files|;
      files := files + [row];
    }

    /** Only the status and the staging mark of this row change: every path, digest, count and
        snapshot number stays. A row that does not exist is ignored. */
    method UpdateFileStatus(f: FileId, status: FileStatus, stagedIn: Option<RunId>)
      modifies this`files
      ensures |files| == |old(files)|
      ensures forall g | 0 <= g < |files| ::
                files[g].(status := Staged, stagedIn := None) == old(files)[g].(status := Staged, stagedIn := None)
                && (g != f ==> files[g] == old(files)[g])
      ensures f < |files| ==> files[f].status == status && files[f].stagedIn == stagedIn
      ensures State() == SetFileStatus(old(State()), f, status, stagedIn)
    {
      if f < |files| {
        files := files[f := files[f].(status := status, stagedIn := stagedIn)];
      }
    }

    /** Entries are only ever added, the new one last. */
    method AddQuarantine(row: QuarantineRow)
      modifies this`quarantine
      ensures |quarantine| == |old(quarantine)| + 1
      ensures old(quarantine) <= quarantine && quarantine[|quarantine| - 1] == row
      ensures State() == RecordQuarantine(old(State()), row)
    {
      quarantine := quarantine + [row];
    }

    /** A schema is listed once: a new one becomes the last of the list and so the latest of its
        API, one already listed stays where it is and the latest stays too. */
    method AddSchema(schema: Schema.SchemaDef)
      modifies this`schemas
      ensures old(schemas) <= schemas && forall x :: x in schemas <==> x in old(schemas) || x == schema
      ensures |schemas| == |old(schemas)| + if schema in old(schemas) then 0 else 1
      ensures Schema.LatestSchema(schemas, schema.apiName)
              == if schema in old(schemas) then Schema.LatestSchema(old(schemas), schema.apiName) else Some(schema)
      ensures State() == InsertSchema(old(State()), schema)
    {
      if schema !in schemas {
        schemas := schemas + [schema];
      }
    }

    /** Changes are only ever added, the new one last. */
    method AddSchemaChange(change: SchemaChange)
      modifies this`schemaChanges
      ensures |schemaChanges| == |old(schemaChanges)| + 1
      ensures old(schemaChanges) <= schemaChanges && schemaChanges[|schemaChanges| - 1] == change
      ensures State() == RecordSchemaChange(old(State()), change)
    {
      schemaChanges := schemaChanges + [change];
    }

    /** `latest_snapshot`: one scan of the table. */
    method Latest(apiName: string) returns (r: Option<SnapshotId>)
      ensures r == LatestSnapshot(State(), apiName)
    {
      r := None;
      for i := 0 to |snapshots|
        invariant r == LatestAmong(snapshots, apiName, i)
      {
        var s := snapshots[i];
        if s.apiName == apiName && s.current && (r.None? || s.sequence >= snapshots[r.value].sequence) {
          r := Some(i);
        }
      }
    }

    /** `commit_snapshot`: read the latest snapshot, put the new one on top of it, mark the files and
        move the checkpoint. */
    method Commit(apiName: string, newFiles: seq<FileId>, runId: RunId, key: JobKey, cursor: map<string, string>)
      returns (id: SnapshotId)
      modifies this
      ensures id == |old(snapshots)|
      ensures State() == CommitSnapshot(old(State()), apiName, newFiles, runId, key, cursor)
    {
      var parent := Latest(apiName);
      id := AddSnapshot(parent, apiName, newFiles, runId);
      MarkCurrent(newFiles, id);
      MoveCheckpoint(key, cursor);
    }

    /** The new snapshot is current, next in number to its parent, and holds the parent's files and
        the new ones; the parent is superseded; other snapshots stay. */
    method AddSnapshot(parent: Option<SnapshotId>, apiName: string, newFiles: seq<FileId>, runId: RunId)
      returns (id: SnapshotId)
      requires parent.Some? ==> parent.value < |snapshots|
      modifies this`snapshots
      ensures id == |old(snapshots)| && |snapshots| == id + 1
      ensures forall s | 0 <= s < id :: snapshots[s] == if Some(s) == parent then old(snapshots)[s].(current := false)
                                                        else old(snapshots)[s]
      ensures snapshots[id].apiName == apiName && snapshots[id].parent == parent && snapshots[id].runId == runId
      ensures snapshots[id].current
              && snapshots[id].sequence == 1 + if parent.Some? then old(snapshots)[parent.value].sequence else 0
      ensures snapshots[id].files
              == (if parent.Some? then old(snapshots)[parent.value].files else {}) + set f | f in newFiles
      ensures snapshots == OnTop(old(snapshots), parent, apiName, newFiles, runId)
    {
      id := |snapshots|;
      var sequence := if parent.Some? then snapshots[parent.value].sequence + 1 else 1;
      var members: set<FileId> := if parent.Some? then snapshots[parent.value].files else {};
      ghost var inherited := members;
      for i := 0 to |newFiles|
        invariant members == inherited + set f | f in newFiles[..i]
      {
        members := members + {newFiles[i]};
      }
      assert newFiles[..|newFiles|] == newFiles;
      snapshots := Supersede(snapshots, parent) + [Snapshot(apiName, parent, sequence, true, runId, members)];
    }

    /** The checkpoint of the job is the cursor; other jobs keep theirs. */
    method MoveCheckpoint(key: JobKey, cursor: map<string, string>)
      modifies this`checkpoints
      ensures key in checkpoints && checkpoints[key] == cursor
      ensures forall k | k != key :: (k in checkpoints <==> k in old(checkpoints))
                                     && (k in checkpoints ==> checkpoints[k] == old(checkpoints)[k])
      ensures checkpoints == old(checkpoints)[key := cursor]
    {
      checkpoints := checkpoints[key := cursor];
    }

    method MarkCurrent(newFiles: seq<FileId>, id: SnapshotId)
      modifies this`files
      ensures files == Committed(old(files), newFiles, id)
      ensures |files| == |old(files)| && forall f | 0 <= f < |files| ::
                files[f] == if f in newFiles then old(files)[f].(status := Current, addedBy := Some(id))
                            else old(files)[f]
    {
      for i := 0 to |newFiles|
        invariant files == Committed(old(files), newFiles[..i], id)
      {
        var f := newFiles[i];
        if f < |files| {
          files := files[f := CommittedRow(files[f], id)];
        }
      }
      assert newFiles[..|newFiles|] == newFiles;
    }
  }
}
