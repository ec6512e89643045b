/** The file-lake store: one fetch is a sequence of atomic actions on the disk and the catalog,
    cut short by an exception or a crash at any of them. */
module Store {
  import opened Wrappers
  import opened Errors
  import opened Catalog
  import Schema
  import Client

  // ---- the world a fetch acts on ----

  datatype TmpName = RawTmp(key: JobKey) | LakeTmp(key: JobKey)

  type Dir = map<TmpName, Content>

  datatype QuarantineDir = QuarantineDir(runId: RunId, key: JobKey, reason: ErrorType)

  /** Committed files, the temp directory of every run that has one, and quarantined directories. */
  datatype Disk = Disk(final: map<Path, Content>, tmp: map<RunId, Dir>, quarantined: map<QuarantineDir, Dir>)

  datatype World = World(disk: Disk, cat: Cat)

  const EMPTY_LAKE := World(Disk(map[], map[], map[]), EMPTY)

  // ---- planning ----

  datatype Endpoint = Endpoint(apiName: string, defaultParams: map<string, string>, defaultFields: seq<string>,
                               spec: string)

  /** The key of a request: the given parameters override the defaults. */
  function MakeKey(e: Endpoint, params: map<string, string>, fields: Option<seq<string>>): JobKey {
    JobKey(e.apiName, e.defaultParams + params, if fields.Some? then fields.value else e.defaultFields, e.spec)
  }

  /** Every parameter has the given value, or the default if none is given; the fields are the given
      ones, or the defaults. */
  lemma {:induction false} KeyIs(e: Endpoint, params: map<string, string>, fields: Option<seq<string>>, p: string)
    ensures var key := MakeKey(e, params, fields);
            && key.apiName == e.apiName && key.spec == e.spec
            && Find(key.params, p) == (if p in params then Some(params[p]) else Find(e.defaultParams, p))
            && (fields == Some(key.fields) || (fields.None? && key.fields == e.defaultFields))
  {}

  /** Where the lake file of a key goes: the end of the key, and the partition that its parameters
      select, or on the given day today's date if they name none. */
  datatype Slot = Slot(tail: string, partitionOn: string -> string)

  datatype FetchPlan = FetchPlan(key: JobKey, rawPath: Path, lakePath: Path)

  /** `plan_single_fetch`: today's date is part of the raw path, and may be of the lake path. */
  function PlanFetch(key: JobKey, today: string, slot: Slot): FetchPlan {
    FetchPlan(key, RawPath(key.apiName, today, key), LakePath(key.apiName, slot.partitionOn(today), slot.tail))
  }

  /** `existing_active_data`: the job is done and the latest snapshot has a lake file of it. */
  predicate ExistingActiveData(c: Cat, key: JobKey) {
    IsDone(c, key) && ActiveLakeFiles(c, key) != {}
  }

  function RecordedCount(c: Cat, key: JobKey): nat {
    if key in c.jobs && c.jobs[key].recordCount.Some? then c.jobs[key].recordCount.value else 0
  }

  // ---- validation ----

  datatype FileFailure =
    | MissingFile | SizeMismatch | ChecksumMismatch | RecordCountMismatch | SchemaIdMissing
    | ParquetFooterUnreadable | RawEventCountMismatch | RawUnreadable

  function LakeFileFailures(row: FileRow, content: Content): seq<FileFailure> {
    if !row.contentType.Lake? then []
    else if !content.Parquet? then [ParquetFooterUnreadable]
    else (if row.recordCount.Some? && |content.rows| != row.recordCount.value then [RecordCountMismatch] else [])
         + (if row.schema.None? then [SchemaIdMissing] else [])
  }

  function RawFileFailures(row: FileRow, content: Content): seq<FileFailure> {
    if !row.contentType.Raw? then []
    else if !content.Jsonl? then [RawUnreadable]
    else if row.rawEventCount.Some? && |content.events| != row.rawEventCount.value then [RawEventCountMismatch] else []
  }

  /** `validate_file_rows` on one row and the content found at its path. A recorded size of 0
      never matches. */
  function FileFailures(row: FileRow, found: Option<Content>): seq<FileFailure> {
    if found.None? then [MissingFile]
    else
      var content := found.value;
      (if row.size == 0 || row.size != content.bytes then [SizeMismatch] else [])
      + (if row.sha != Sha256(content) then [ChecksumMismatch] else [])
      + (LakeFileFailures(row, content) + RawFileFailures(row, content))
  }

  /** Validation finds nothing exactly when the file is there and is what its row says. */
  lemma {:induction false} ValidationIsExact(row: FileRow, found: Option<Content>)
    ensures FileFailures(row, found) == [] <==>
            && found.Some? && row.size > 0 && found.value.bytes == row.size && Sha256(found.value) == row.sha
            && (row.contentType.Lake? ==> found.value.Parquet? && row.schema.Some?
                                          && (row.recordCount.Some? ==> |found.value.rows| == row.recordCount.value))
            && (row.contentType.Raw? ==> found.value.Jsonl?
                                         && (row.rawEventCount.Some? ==>
                                               |found.value.events| == row.rawEventCount.value))
  {}

  /** Every finding says what it has found. */
  lemma {:induction false} FailuresSayWhy(row: FileRow, found: Option<Content>, failure: FileFailure)
    ensures failure in FileFailures(row, found) <==>
            match failure
            case MissingFile => found.None?
            case SizeMismatch => found.Some? && (row.size == 0 || found.value.bytes != row.size)
            case ChecksumMismatch => found.Some? && row.sha != Sha256(found.value)
            case ParquetFooterUnreadable => found.Some? && row.contentType.Lake? && !found.value.Parquet?
            case RecordCountMismatch =>
              found.Some? && row.contentType.Lake? && found.value.Parquet? && row.recordCount.Some?
              && |found.value.rows| != row.recordCount.value
            case SchemaIdMissing => found.Some? && row.contentType.Lake? && found.value.Parquet? && row.schema.None?
            case RawUnreadable => found.Some? && row.contentType.Raw? && !found.value.Jsonl?
            case RawEventCountMismatch =>
              found.Some? && row.contentType.Raw? && found.value.Jsonl? && row.rawEventCount.Some?
              && |found.value.events| != row.rawEventCount.value
  {}

  function Find<K, V>(m: map<K, V>, k: K): Option<V> {
    if k in m then Some(m[k]) else None
  }

  // ---- actions ----

  /** What storage may do to a staged file between recording and validating it. */
  datatype Rot = NoRot | Lost | Damaged(content: Content)

  datatype Action =
    | BeginRun(runType: string)
    | BeginJob(key: JobKey, runId: RunId)
    | Write(runId: RunId, name: TmpName, content: Content)
    | NoteSchemaChange(change: SchemaChange)
    | AddSchema(schema: Schema.SchemaDef)
    | StageFile(row: FileRow)
    | Decay(runId: RunId, name: TmpName, rot: Rot)
    | Publish(runId: RunId, name: TmpName, path: Path)
    | Restage(f: FileId)
    | Commit(apiName: string, files: seq<FileId>, runId: RunId, key: JobKey)
    | FinishJob(key: JobKey, recordCount: nat, sourceItemCount: nat, rawEventCount: nat)
    | FailJob(key: JobKey, error: ErrorType)
    | EndRun(runId: RunId, status: RunStatus)
    | CleanUp(runId: RunId)
    | MoveToQuarantine(runId: RunId, dir: QuarantineDir)
    | NoteQuarantine(entry: QuarantineRow)

  function DirOf(d: Disk, runId: RunId): Dir {
    if runId in d.tmp then d.tmp[runId] else map[]
  }

  function ApplyDisk(a: Action, d: Disk): Disk {
    match a
    case Write(runId, name, content) => d.(tmp := d.tmp[runId := DirOf(d, runId)[name := content]])
    case Decay(runId, name, rot) =>
      if name !in DirOf(d, runId) || rot.NoRot? then d
      else d.(tmp := d.tmp[runId := if rot.Lost? then DirOf(d, runId) - {name}
                           else DirOf(d, runId)[name := rot.content]])
    case Publish(runId, name, path) =>
      if name !in DirOf(d, runId) then d
      else d.(tmp := d.tmp[runId := DirOf(d, runId) - {name}], final := d.final[path := DirOf(d, runId)[name]])
    case CleanUp(runId) => d.(tmp := d.tmp - {runId})
    case MoveToQuarantine(runId, dir) =>
      if runId in d.tmp
      then d.(tmp := d.tmp - {runId}, quarantined := d.quarantined[dir := d.tmp[runId]])
      else d.(quarantined := d.quarantined - {dir})
    case _ => d
  }

  function ApplyCat(a: Action, c: Cat): Cat {
    match a
    case BeginRun(runType) => CreateRun(c, runType)
    case BeginJob(key, runId) => UpsertJob(c, key, runId)
    case NoteSchemaChange(change) => RecordSchemaChange(c, change)
    case AddSchema(schema) => InsertSchema(c, schema)
    case StageFile(row) => InsertFile(c, row)
    case Restage(f) => SetFileStatus(c, f, Staged, None)
    case Commit(apiName, files, runId, key) => CommitSnapshot(c, apiName, files, runId, key, key.params)
    case FinishJob(key, n, s, e) => MarkDone(c, key, n, s, e)
    case FailJob(key, error) => MarkFailed(c, key, error)
    case EndRun(runId, status) => FinishRun(c, runId, status)
    case NoteQuarantine(entry) => RecordQuarantine(c, entry)
    case _ => c
  }

  function Apply(a: Action, w: World): World {
    World(ApplyDisk(a, w.disk), ApplyCat(a, w.cat))
  }

  function ApplyAll(actions: seq<Action>, w: World): World {
    if actions == [] then w else Apply(actions[|actions| - 1], ApplyAll(actions[..|actions| - 1], w))
  }

  // ---- faults ----

  /** What a write that fails leaves behind. */
  datatype Residue = NoDirectory | EmptyDirectory | PartialFile(content: Content)

  /** At which action of a sequence something goes wrong, and how: the process dies, or the
      action raises without taking effect, except for what a failed write leaves behind. */
  datatype Fault = NoFault | Fault(at: nat, crash: bool, residue: Residue)

  datatype FetchResult = FetchResult(runId: Option<RunId>, key: JobKey, snapshot: Option<SnapshotId>,
                                     recordCount: nat, skipped: bool)

  datatype End = Finished(result: FetchResult) | Threw(error: ErrorType) | Died

  datatype Flow = Go(w: World) | Stop(w: World, end: End)

  function Interrupted(a: Action, w: World, residue: Residue): World {
    if !a.Write? || residue.NoDirectory? then w
    else
      var dir := DirOf(w.disk, a.runId);
      w.(disk := w.disk.(tmp := w.disk.tmp[a.runId := if residue.PartialFile? then dir[a.name := residue.content]
                                           else dir]))
  }

  /** The error that the code around an action reports. */
  function ErrorOf(a: Action): ErrorType {
    match a
    case Write(_, _, _) => WriteFailed
    case Publish(_, _, _) => WriteFailed
    case Commit(_, _, _, _) => CatalogCommitFailed
    case _ => UnknownError
  }

  predicate Strikes(fault: Fault, actions: seq<Action>) {
    fault.Fault? && fault.at < |actions|
  }

  /** Carry out a sequence of actions up to the fault, if it strikes. The removal of the temp
      directory ignores errors. */
  function Perform(actions: seq<Action>, fault: Fault, w: World): Flow {
    if !Strikes(fault, actions) then Go(ApplyAll(actions, w))
    else
      var a, before := actions[fault.at], ApplyAll(actions[..fault.at], w);
      if fault.crash then Stop(Interrupted(a, before, fault.residue), Died)
      else if a.CleanUp? then Go(before)
      else Stop(Interrupted(a, before, fault.residue), Threw(ErrorOf(a)))
  }

  // ---- the request to the server ----

  datatype Reply = Answer(result: Client.QueryResult) | Refusal(error: ErrorType)

  /** The replies to the successive attempts; after the last listed one the server fails. */
  function ReplyTo(replies: seq<Reply>, attempt: nat): Reply {
    if attempt < |replies| then replies[attempt] else Refusal(ServerError)
  }

  /** `_query_with_retry` from an attempt on (attempts are counted from 1). */
  function QueryWithRetry(replies: seq<Reply>, maxAttempts: nat, attempt: nat): Reply
    requires attempt >= 1
    decreases maxAttempts - attempt
  {
    var reply := ReplyTo(replies, attempt - 1);
    if reply.Refusal? && ShouldRetry(reply.error, attempt, maxAttempts)
    then QueryWithRetry(replies, maxAttempts, attempt + 1) else reply
  }

  method QueryWithRetryLoop(replies: seq<Reply>, maxAttempts: nat) returns (reply: Reply)
    ensures reply == QueryWithRetry(replies, maxAttempts, 1)
  {
    var attempt := 1;
    while true
      invariant attempt >= 1 && QueryWithRetry(replies, maxAttempts, attempt) == QueryWithRetry(replies, maxAttempts, 1)
      decreases maxAttempts - attempt
    {
      reply := ReplyTo(replies, attempt - 1);
      if reply.Refusal? && ShouldRetry(reply.error, attempt, maxAttempts) {
        attempt := attempt + 1;
        continue;
      }
      return;
    }
  }

  // ---- one fetch ----

  /** Everything a fetch does not decide itself: the server, the clock, the encoders, and faults
      in each of its stretches of actions. */
  datatype Script = Script(
    replies: seq<Reply>, maxAttempts: nat,
    today: string,
    rawBytes: nat, lakeBytes: nat, rawRot: Rot, lakeRot: Rot,
    begin: Fault, write: Fault, stage: Fault, publish: Fault, handler: Fault)

  datatype Request = Request(key: JobKey, runId: Option<RunId>, finishRun: bool, runType: string)

  function RawContent(runId: RunId, key: JobKey, events: seq<Client.Event>, bytes: nat): Content {
    Jsonl(seq(|events|, i requires 0 <= i < |events| => RawEvent(runId, key, events[i])), bytes)
  }

  /** `_rows`: one row an item, short items padded with nulls. */
  function LakeContent(runId: RunId, key: JobKey, schema: Schema.SchemaDef, fields: seq<string>,
                       items: seq<Schema.Row>, bytes: nat): Content {
    Parquet(seq(|items|, i requires 0 <= i < |items| =>
              LakeRow(runId, key, schema,
                      seq(|fields|, j requires 0 <= j < |fields| => Schema.CellAt(items[i], j)))), bytes)
  }

  function RawRow(plan: FetchPlan, runId: RunId, result: Client.QueryResult, content: Content): FileRow {
    FileRow(plan.key.apiName, Raw, plan.rawPath, None, |result.items|, Some(|result.events|), content.bytes,
            Sha256(content), None, Staged, Some(runId), runId, plan.key, None)
  }

  function LakeFileRow(plan: FetchPlan, runId: RunId, result: Client.QueryResult, schema: Schema.SchemaDef,
                       content: Content): FileRow {
    FileRow(plan.key.apiName, Lake, plan.lakePath, Some(|result.items|), |result.items|, None, content.bytes,
            Sha256(content), Some(schema), Staged, Some(runId), runId, plan.key, None)
  }

  function BeginActions(c: Cat, req: Request): seq<Action> {
    if req.runId.Some? then [BeginJob(req.key, req.runId.value)]
    else [BeginRun(req.runType), BeginJob(req.key, |c.runs|)]
  }

  function RunOf(c: Cat, req: Request): RunId {
    if req.runId.Some? then req.runId.value else |c.runs|
  }

  function EndActions(finishRun: bool, runId: RunId, status: RunStatus): seq<Action> {
    if finishRun then [EndRun(runId, status)] else []
  }

  /** The quarantine path shared by an incompatible schema and a failed validation. */
  function RejectActions(key: JobKey, runId: RunId, finishRun: bool, reason: ErrorType, size: Option<nat>,
                         sha: Option<Digest>): seq<Action> {
    [MoveToQuarantine(runId, QuarantineDir(runId, key, reason)),
     NoteQuarantine(QuarantineRow(runId, key, reason, size, sha)),
     FailJob(key, reason)]
    + EndActions(finishRun, runId, RunFailed(Some(reason)))
  }

  function ChangeActions(decision: Schema.Decision): seq<Action> {
    if decision.changeType.Same? then []
    else [NoteSchemaChange(SchemaChange(decision.schema.apiName, decision.schema, decision.changeType,
                                        decision.Compatible()))]
  }

  function RecordActions(decision: Schema.Decision): seq<Action> {
    [AddSchema(decision.schema)] + ChangeActions(decision)
  }

  /** From recording the schema to the point where validation looks at the staged files. */
  function StageActions(plan: FetchPlan, runId: RunId, result: Client.QueryResult, decision: Schema.Decision,
                        raw: Content, lake: Content, sc: Script): seq<Action>
  {
    RecordActions(decision)
    + [Write(runId, LakeTmp(plan.key), lake),
       StageFile(RawRow(plan, runId, result, raw)),
       StageFile(LakeFileRow(plan, runId, result, decision.schema, lake)),
       Decay(runId, RawTmp(plan.key), sc.rawRot),
       Decay(runId, LakeTmp(plan.key), sc.lakeRot)]
  }

  /** Up to and including the snapshot commit. */
  function MoveActions(plan: FetchPlan, runId: RunId, rawId: FileId, lakeId: FileId): seq<Action> {
    [Publish(runId, RawTmp(plan.key), plan.rawPath),
     Publish(runId, LakeTmp(plan.key), plan.lakePath),
     Restage(rawId),
     Restage(lakeId)]
  }

  function CommitActions(plan: FetchPlan, runId: RunId, rawId: FileId, lakeId: FileId,
                         result: Client.QueryResult): seq<Action> {
    [Commit(plan.key.apiName, [rawId, lakeId], runId, plan.key),
     FinishJob(plan.key, |result.items|, |result.items|, |result.events|)]
  }

  function PublishActions(plan: FetchPlan, runId: RunId, finishRun: bool, rawId: FileId, lakeId: FileId,
                          result: Client.QueryResult): seq<Action> {
    MoveActions(plan, runId, rawId, lakeId) + CommitActions(plan, runId, rawId, lakeId, result)
    + EndActions(finishRun, runId, RunSucceeded) + [CleanUp(runId)]
  }

  datatype Ending = Ending(w: World, end: End)

  function Conclude(flow: Flow, end: End): Ending {
    match flow
    case Go(w) => Ending(w, end)
    case Stop(w, stopped) => Ending(w, stopped)
  }

  function StagedFailures(w: World, runId: RunId, plan: FetchPlan, rawId: FileId, lakeId: FileId): seq<FileFailure> {
    if rawId < |w.cat.files| && lakeId < |w.cat.files| then
      FileFailures(w.cat.files[rawId], Find(DirOf(w.disk, runId), RawTmp(plan.key)))
      + FileFailures(w.cat.files[lakeId], Find(DirOf(w.disk, runId), LakeTmp(plan.key)))
    else []
  }

  function NoData(runId: RunId, key: JobKey): End {
    Finished(FetchResult(Some(runId), key, None, 0, false))
  }

  /** The rest of the body once the batch is accepted: stage, validate, publish. */
  function Accept(w: World, plan: FetchPlan, runId: RunId, finishRun: bool, result: Client.QueryResult,
                  prepared: Schema.Preparation, raw: Content, sc: Script): Ending
  {
    var lake := LakeContent(runId, plan.key, prepared.decision.schema, result.fields, prepared.items, sc.lakeBytes);
    var rawId, lakeId := |w.cat.files|, |w.cat.files| + 1;
    match Perform(StageActions(plan, runId, result, prepared.decision, raw, lake, sc), sc.stage, w)
    case Stop(w', end) => Ending(w', end)
    case Go(staged) =>
      if StagedFailures(staged, runId, plan, rawId, lakeId) != [] then
        Conclude(Perform(RejectActions(plan.key, runId, finishRun, ValidationFailed,
                                       if RawTmp(plan.key) in DirOf(staged.disk, runId)
                                       then Some(DirOf(staged.disk, runId)[RawTmp(plan.key)].bytes) else None,
                                       None),
                         sc.publish, staged),
                 NoData(runId, plan.key))
      else
        Conclude(Perform(PublishActions(plan, runId, finishRun, rawId, lakeId, result), sc.publish, staged),
                 Finished(FetchResult(Some(runId), plan.key, Some(|staged.cat.snapshots|), |result.items|, false)))
  }

  /** The body of the try statement, after the server has answered. */
  function Store(text: Schema.Text, w: World, plan: FetchPlan, runId: RunId, finishRun: bool,
                 result: Client.QueryResult, sc: Script): Ending {
    var raw := RawContent(runId, plan.key, result.events, sc.rawBytes);
    match Perform([Write(runId, RawTmp(plan.key), raw)], sc.write, w)
    case Stop(w', end) => Ending(w', end)
    case Go(written) =>
      var api := plan.key.apiName;
      var prepared := Schema.Prepare(text, Schema.LatestSchema(written.cat.schemas, api), api, result.fields,
                                     result.items);
      if prepared.decision.Compatible() then
        Accept(written, plan, runId, finishRun, result, prepared, raw, sc)
      else
        Conclude(Perform(ChangeActions(prepared.decision)
                         + RejectActions(plan.key, runId, finishRun, SchemaIncompatible, Some(raw.bytes),
                                         Some(Sha256(raw))),
                         sc.stage, written),
                 NoData(runId, plan.key))
  }

  function Body(text: Schema.Text, w: World, plan: FetchPlan, runId: RunId, finishRun: bool, sc: Script): Ending {
    match QueryWithRetry(sc.replies, sc.maxAttempts, 1)
    case Refusal(error) => Ending(w, Threw(error))
    case Answer(result) => Store(text, w, plan, runId, finishRun, result, sc)
  }

  /** The except clause: the job fails, the run fails, the temp directory goes to quarantine, and
      the quarantine is recorded if there was one. */
  function HandlerActions(w: World, key: JobKey, runId: RunId, finishRun: bool, error: ErrorType): seq<Action> {
    [FailJob(key, error)] + EndActions(finishRun, runId, RunFailed(Some(error)))
    + [MoveToQuarantine(runId, QuarantineDir(runId, key, error))]
    + if runId in w.disk.tmp then [NoteQuarantine(QuarantineRow(runId, key, error, None, None))] else []
  }

  function Handle(ending: Ending, key: JobKey, runId: RunId, finishRun: bool, fault: Fault): Ending {
    if !ending.end.Threw? then ending
    else Conclude(Perform(HandlerActions(ending.w, key, runId, finishRun, ending.end.error), fault, ending.w),
                  ending.end)
  }

  /** `FileLakeStore.fetch` for an endpoint that the policy allows. */
  function Fetch(text: Schema.Text, w: World, req: Request, slot: Slot, sc: Script): Ending {
    var key := req.key;
    if ExistingActiveData(w.cat, key) then
      Ending(w, Finished(FetchResult(req.runId, key, LatestSnapshot(w.cat, key.apiName), RecordedCount(w.cat, key),
                                     true)))
    else
      var runId := RunOf(w.cat, req);
      var plan := PlanFetch(key, sc.today, slot);
      match Perform(BeginActions(w.cat, req), sc.begin, w)
      case Stop(w', end) => Ending(w', end)
      case Go(begun) => Handle(Body(text, begun, plan, runId, req.finishRun, sc), key, runId, req.finishRun, sc.handler)
  }
}
