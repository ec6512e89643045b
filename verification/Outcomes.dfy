/** What a fetch that returns data has committed, and when a fetch is sure to commit. */
module Outcomes {
  import opened Wrappers
  import opened Errors
  import opened Catalog
  import opened Store
  import opened Runs
  import Schema
  import Client

  // ---- a successful fetch has written what the server answered ----

  lemma {:induction false} SameDigest(row: FileRow, found: Option<Content>, content: Content)
    requires FileFailures(row, found) == [] && row.sha == Sha256(content)
    ensures found == Some(content)
  {}

  /** The staged rows carry the hashes of these contents. */
  ghost predicate StagedAs(w: World, rawId: FileId, raw: Content, lake: Content) {
    && rawId + 2 == |w.cat.files|
    && w.cat.files[rawId].sha == Sha256(raw) && w.cat.files[rawId + 1].sha == Sha256(lake)
  }

  /** Both contents are at their final paths. */
  ghost predicate Holds(d: Disk, plan: FetchPlan, raw: Content, lake: Content) {
    Find(d.final, plan.rawPath) == Some(raw) && Find(d.final, plan.lakePath) == Some(lake)
  }

  lemma {:induction false} MovedContents(w: World, plan: FetchPlan, runId: RunId, rawId: FileId, raw: Content,
                                         lake: Content)
    requires StagedAs(w, rawId, raw, lake) && Validated(w, plan, runId, rawId, rawId + 1)
    requires plan.rawPath.RawPath? && plan.lakePath.LakePath?
    ensures Holds(ApplyAll(MoveActions(plan, runId, rawId, rawId + 1), w).disk, plan, raw, lake)
  {
    SameDigest(w.cat.files[rawId], Find(DirOf(w.disk, runId), RawTmp(plan.key)), raw);
    SameDigest(w.cat.files[rawId + 1], Find(DirOf(w.disk, runId), LakeTmp(plan.key)), lake);
    MovedDisk(w.disk, runId, plan);
    MoveFour(w, plan, runId, rawId, rawId + 1);
  }

  lemma {:induction false} PublishedContents(w: World, plan: FetchPlan, runId: RunId, finishRun: bool, rawId: FileId,
                                             result: Client.QueryResult, fault: Fault, raw: Content, lake: Content)
    requires StagedAs(w, rawId, raw, lake) && Validated(w, plan, runId, rawId, rawId + 1)
    requires plan.rawPath.RawPath? && plan.lakePath.LakePath?
    requires Published(w, plan, runId, finishRun, rawId, result, fault).end.Finished?
    ensures Holds(Published(w, plan, runId, finishRun, rawId, result, fault).w.disk, plan, raw, lake)
  {
    var all := PublishActions(plan, runId, finishRun, rawId, rawId + 1, result);
    var n := Reach(all, fault);
    assert 6 <= n <= |all| by {
      PublishPrefix(plan, runId, finishRun, rawId, rawId + 1, result, n);
      if Strikes(fault, all) {
        assert all[fault.at].CleanUp?;
      }
    }
    assert all[..|all|] == all;
    PublishedData(w, plan, runId, finishRun, rawId, result, n);
    MovedContents(w, plan, runId, rawId, raw, lake);
  }

  lemma {:induction false} RejectedHasNoData(before: seq<Action>, w: World, key: JobKey, runId: RunId,
                                             finishRun: bool, reason: ErrorType, size: Option<nat>,
                                             sha: Option<Digest>, fault: Fault)
    ensures var e := Rejected(before, w, key, runId, finishRun, reason, size, sha, fault);
            e.end.Finished? ==> e.end.result.snapshot.None?
  {}

  lemma {:induction false} AcceptContents(w: World, plan: FetchPlan, runId: RunId, finishRun: bool,
                                          result: Client.QueryResult, prepared: Schema.Preparation, raw: Content,
                                          sc: Script)
    requires plan.rawPath.RawPath? && plan.lakePath.LakePath?
    requires var e := Accept(w, plan, runId, finishRun, result, prepared, raw, sc);
             e.end.Finished? && e.end.result.snapshot.Some?
    ensures var e := Accept(w, plan, runId, finishRun, result, prepared, raw, sc);
            && Holds(e.w.disk, plan, raw, LakeContent(runId, plan.key, prepared.decision.schema, result.fields,
                                                      prepared.items, sc.lakeBytes))
            && e.end.result.recordCount == |result.items|
  {
    var lake := LakeContent(runId, plan.key, prepared.decision.schema, result.fields, prepared.items, sc.lakeBytes);
    var staged := ApplyAll(StageActions(plan, runId, result, prepared.decision, raw, lake, sc), w);
    var size := AcceptBranches(w, plan, runId, finishRun, result, prepared, raw, sc);
    StagedRows(w, plan, runId, result, prepared.decision, raw, lake, sc);
    RejectedHasNoData([], staged, plan.key, runId, finishRun, ValidationFailed, size, None, sc.publish);
    PublishedContents(staged, plan, runId, finishRun, |w.cat.files|, result, sc.publish, raw, lake);
  }

  /** The schema decision that a fetch takes on a result. */
  function PreparedFor(text: Schema.Text, c: Cat, api: string, result: Client.QueryResult): Schema.Preparation {
    Schema.Prepare(text, Schema.LatestSchema(c.schemas, api), api, result.fields, result.items)
  }

  lemma {:induction false} BeginKeepsRest(w: World, req: Request)
    ensures var b := ApplyAll(BeginActions(w.cat, req), w);
            b.disk == w.disk && b.cat.files == w.cat.files && b.cat.schemas == w.cat.schemas
                && b.cat.snapshots == w.cat.snapshots
  {
    var actions := BeginActions(w.cat, req);
    if |actions| == 1 {
      ApplyOne(actions[0], w);
      assert actions == [actions[0]];
    } else {
      assert actions == [actions[0]] + [actions[1]];
      ApplyCons(actions[0], [actions[1]], w);
      ApplyOne(actions[1], Apply(actions[0], w));
    }
  }

  /** The world in which the schema decision is taken. */
  function Written(w: World, plan: FetchPlan, runId: RunId, result: Client.QueryResult, sc: Script): World {
    Apply(Write(runId, RawTmp(plan.key), RawContent(runId, plan.key, result.events, sc.rawBytes)), w)
  }

  lemma {:induction false} BodySucceeded(text: Schema.Text, w: World, plan: FetchPlan, runId: RunId, finishRun: bool,
                                         sc: Script)
    requires var e := Body(text, w, plan, runId, finishRun, sc); e.end.Finished? && e.end.result.snapshot.Some?
    ensures var reply := QueryWithRetry(sc.replies, sc.maxAttempts, 1);
            && reply.Answer?
            && var prepared := PreparedFor(text, w.cat, plan.key.apiName, reply.result);
               && prepared.decision.Compatible()
               && Body(text, w, plan, runId, finishRun, sc)
                  == Accept(Written(w, plan, runId, reply.result, sc), plan, runId, finishRun, reply.result, prepared,
                            RawContent(runId, plan.key, reply.result.events, sc.rawBytes), sc)
  {
    var result := QueryWithRetry(sc.replies, sc.maxAttempts, 1).result;
    ApplyOne(Write(runId, RawTmp(plan.key), RawContent(runId, plan.key, result.events, sc.rawBytes)), w);
  }

  lemma {:induction false} FetchSucceeded(text: Schema.Text, w: World, req: Request, slot: Slot, sc: Script)
    requires !ExistingActiveData(w.cat, req.key)
    requires var e := Fetch(text, w, req, slot, sc); e.end.Finished? && e.end.result.snapshot.Some?
    ensures Fetch(text, w, req, slot, sc)
            == Body(text, ApplyAll(BeginActions(w.cat, req), w), PlanFetch(req.key, sc.today, slot),
                    RunOf(w.cat, req), req.finishRun, sc)
  {
    var begin := BeginActions(w.cat, req);
    if !Strikes(sc.begin, begin) {
      var body := Body(text, ApplyAll(begin, w), PlanFetch(req.key, sc.today, slot), RunOf(w.cat, req), req.finishRun,
                       sc);
      assert !body.end.Threw?;
    }
  }

  /** A fetch that returns data has put both files at the planned paths. */
  lemma {:induction false} FetchedFiles(text: Schema.Text, w: World, req: Request, slot: Slot, sc: Script)
    returns (result: Client.QueryResult)
    requires !ExistingActiveData(w.cat, req.key)
    requires var e := Fetch(text, w, req, slot, sc); e.end.Finished? && e.end.result.snapshot.Some?
    ensures QueryWithRetry(sc.replies, sc.maxAttempts, 1) == Answer(result)
    ensures var e := Fetch(text, w, req, slot, sc);
            var key, runId := req.key, RunOf(w.cat, req);
            var prepared := PreparedFor(text, w.cat, key.apiName, result);
            && prepared.decision.Compatible()
            && Holds(e.w.disk, PlanFetch(key, sc.today, slot),
                     RawContent(runId, key, result.events, sc.rawBytes),
                     LakeContent(runId, key, prepared.decision.schema, result.fields, prepared.items, sc.lakeBytes))
            && e.end.result.recordCount == |result.items|
  {
    var key, runId := req.key, RunOf(w.cat, req);
    var plan := PlanFetch(key, sc.today, slot);
    BeginKeepsRest(w, req);
    var begun := ApplyAll(BeginActions(w.cat, req), w);
    FetchSucceeded(text, w, req, slot, sc);
    BodySucceeded(text, begun, plan, runId, req.finishRun, sc);
    result := QueryWithRetry(sc.replies, sc.maxAttempts, 1).result;
    AcceptContents(Written(begun, plan, runId, result, sc), plan, runId, req.finishRun, result,
                   PreparedFor(text, w.cat, key.apiName, result), RawContent(runId, key, result.events, sc.rawBytes),
                   sc);
  }

  /** The types that the schema recorded last for an API gives to the columns it has. */
  ghost function LatestTypes(c: Cat, apiName: string): Schema.Types {
    Schema.RecordedTypes(Schema.LatestSchema(c.schemas, apiName))
  }

  /** A row of the lake file: it names the run, the job and the schema it was written under, and its
      values are those of the item, padded and coerced to the types recorded before. */
  ghost predicate LakeRowIs(row: LakeRow, runId: RunId, key: JobKey, schema: Schema.SchemaDef, text: Schema.Text,
                        fields: seq<string>, item: Schema.Row, types: Schema.Types)
  {
    row.runId == runId && row.key == key && row.schema == schema
    && Schema.StoredAs(text, fields, item, types, row.source)
  }

  /** The lake rows are the items in order, padded and coerced to the recorded schema. */
  lemma {:induction false} LakeRowsAreItems(text: Schema.Text, recorded: Option<Schema.SchemaDef>, api: string,
                                            runId: RunId, key: JobKey, schema: Schema.SchemaDef,
                                            result: Client.QueryResult, bytes: nat)
    ensures var rows := LakeContent(runId, key, schema, result.fields,
                                    Schema.Prepare(text, recorded, api, result.fields, result.items).items, bytes).rows;
            && |rows| == |result.items|
            && forall i | 0 <= i < |rows| ::
                 LakeRowIs(rows[i], runId, key, schema, text, result.fields, result.items[i],
                       Schema.RecordedTypes(recorded))
  {
    var items := Schema.Prepare(text, recorded, api, result.fields, result.items).items;
    var rows := LakeContent(runId, key, schema, result.fields, items, bytes).rows;
    forall i | 0 <= i < |rows|
      ensures LakeRowIs(rows[i], runId, key, schema, text, result.fields, result.items[i],
                        Schema.RecordedTypes(recorded))
    {
      StoredRow(text, recorded, result.fields, result.items[i], items[i], rows[i].source);
    }
  }

  lemma {:induction false} StoredRow(text: Schema.Text, recorded: Option<Schema.SchemaDef>, fields: seq<string>,
                                     item: Schema.Row, prepared: Schema.Row, out: Schema.Row)
    requires prepared == if recorded.Some? then Schema.NormalizeRow(text, fields, item, recorded.value.types) else item
    requires out == seq(|fields|, j requires 0 <= j < |fields| => Schema.CellAt(prepared, j))
    ensures Schema.StoredAs(text, fields, item, Schema.RecordedTypes(recorded), out)
  {
    if recorded.Some? {
      Schema.NormalizedRow(text, fields, item, recorded.value.types);
      assert out == prepared;
    }
  }

  /** A fetch that returns data has put the answer of the server on disk. The raw file of the day
      holds its pages in order; the lake file of the key and its partition holds one row for every
      item, padded and coerced to the schema recorded before, as many as the count that is returned. */
  lemma {:induction false} FetchedContents(text: Schema.Text, w: World, req: Request, slot: Slot, sc: Script)
    returns (result: Client.QueryResult, events: seq<RawEvent>, rows: seq<LakeRow>)
    requires !ExistingActiveData(w.cat, req.key)
    requires var e := Fetch(text, w, req, slot, sc); e.end.Finished? && e.end.result.snapshot.Some?
    ensures QueryWithRetry(sc.replies, sc.maxAttempts, 1) == Answer(result)
    ensures var e := Fetch(text, w, req, slot, sc);
            var api := req.key.apiName;
            && Find(e.w.disk.final, RawPath(api, sc.today, req.key)) == Some(Jsonl(events, sc.rawBytes))
            && Find(e.w.disk.final, LakePath(api, slot.partitionOn(sc.today), slot.tail))
               == Some(Parquet(rows, sc.lakeBytes))
            && e.end.result.recordCount == |rows| == |result.items| && |events| == |result.events|
    ensures var runId := if req.runId.Some? then req.runId.value else |w.cat.runs|;
            var decision := PreparedFor(text, w.cat, req.key.apiName, result).decision;
            && decision.Compatible()
            && (forall i | 0 <= i < |events| :: events[i] == RawEvent(runId, req.key, result.events[i]))
            && forall i | 0 <= i < |rows| ::
                 LakeRowIs(rows[i], runId, req.key, decision.schema, text, result.fields, result.items[i],
                       LatestTypes(w.cat, req.key.apiName))
  {
    result := FetchedFiles(text, w, req, slot, sc);
    var runId, prepared := RunOf(w.cat, req), PreparedFor(text, w.cat, req.key.apiName, result);
    events := RawContent(runId, req.key, result.events, sc.rawBytes).events;
    rows := LakeContent(runId, req.key, prepared.decision.schema, result.fields, prepared.items, sc.lakeBytes).rows;
    LakeRowsAreItems(text, Schema.LatestSchema(w.cat.schemas, req.key.apiName), req.key.apiName, runId, req.key,
                     prepared.decision.schema, result, sc.lakeBytes);
  }

  /** The pages that the events of a raw file record. */
  function PagesOf(events: seq<RawEvent>): seq<Client.Event> {
    seq(|events|, i requires 0 <= i < |events| => events[i].event)
  }

  /** With a consistent answer the two files tell the same story: the lake rows are the items of all
      raw pages in order, padded to the fields of the first page and coerced to the schema recorded
      before, as many as the count that is returned. */
  lemma {:induction false} RawAndLakeAgree(text: Schema.Text, w: World, req: Request, slot: Slot, sc: Script)
    returns (events: seq<RawEvent>, rows: seq<LakeRow>)
    requires !ExistingActiveData(w.cat, req.key)
    requires var e := Fetch(text, w, req, slot, sc); e.end.Finished? && e.end.result.snapshot.Some?
    requires forall r | r in sc.replies && r.Answer? :: Client.Consistent(r.result)
    ensures var e := Fetch(text, w, req, slot, sc);
            var api := req.key.apiName;
            var items := Client.ItemsOf(PagesOf(events));
            && Find(e.w.disk.final, RawPath(api, sc.today, req.key)) == Some(Jsonl(events, sc.rawBytes))
            && Find(e.w.disk.final, LakePath(api, slot.partitionOn(sc.today), slot.tail))
               == Some(Parquet(rows, sc.lakeBytes))
            && e.end.result.recordCount == |rows| == |items| && events != []
            && forall i | 0 <= i < |rows| ::
                 Schema.StoredAs(text, events[0].event.response.fields, items[i], LatestTypes(w.cat, api),
                                 rows[i].source)
  {
    var result;
    result, events, rows := FetchedContents(text, w, req, slot, sc);
    AnswersAreListed(sc.replies, sc.maxAttempts, 1);
    assert PagesOf(events) == result.events;
  }

  lemma {:induction false} AnswersAreListed(replies: seq<Reply>, maxAttempts: nat, attempt: nat)
    requires attempt >= 1
    ensures var r := QueryWithRetry(replies, maxAttempts, attempt); r.Answer? ==> r in replies
    decreases maxAttempts - attempt
  {
    var reply := ReplyTo(replies, attempt - 1);
    if reply.Refusal? && ShouldRetry(reply.error, attempt, maxAttempts) {
      AnswersAreListed(replies, maxAttempts, attempt + 1);
    }
  }

  /** A refusal that may not be the last word: the rate limit, the network, the server, or a cause
      that is not known. */
  ghost predicate Passing(reply: Reply) {
    reply.Refusal? && (reply.error.RateLimited? || reply.error.NetworkError? || reply.error.ServerError?
                       || reply.error.UnknownError?)
  }

  /** The reply that counts is the first one not worth a retry, or the last one allowed. */
  lemma {:induction false} FirstDecidedReply(replies: seq<Reply>, maxAttempts: nat, attempt: nat) returns (k: nat)
    requires attempt >= 1
    ensures attempt <= k && (k == attempt || k <= maxAttempts)
    ensures QueryWithRetry(replies, maxAttempts, attempt)
            == if k <= |replies| then replies[k - 1] else Refusal(ServerError)
    ensures Passing(QueryWithRetry(replies, maxAttempts, attempt)) ==> k >= maxAttempts
    ensures forall i | attempt - 1 <= i < k - 1 && i < |replies| :: Passing(replies[i])
    decreases maxAttempts - attempt
  {
    var reply := ReplyTo(replies, attempt - 1);
    if reply.Refusal? && ShouldRetry(reply.error, attempt, maxAttempts) {
      k := FirstDecidedReply(replies, maxAttempts, attempt + 1);
    } else {
      k := attempt;
    }
  }

  // ---- when a fetch is sure to commit ----

  /** No fault before the last stretch, no rot, and files that are not empty. */
  ghost predicate CleanUntilPublish(sc: Script) {
    && sc.begin.NoFault? && sc.write.NoFault? && sc.stage.NoFault?
    && sc.rawRot.NoRot? && sc.lakeRot.NoRot? && sc.rawBytes > 0 && sc.lakeBytes > 0
  }

  ghost predicate Clean(sc: Script) {
    CleanUntilPublish(sc) && sc.publish.NoFault?
  }

  /** The server answers within the attempts, and the schema decision accepts the answer. */
  ghost predicate Accepted(text: Schema.Text, w: World, key: JobKey, sc: Script) {
    var reply := QueryWithRetry(sc.replies, sc.maxAttempts, 1);
    reply.Answer? && PreparedFor(text, w.cat, key.apiName, reply.result).decision.Compatible()
  }

  predicate LeavesDisk(a: Action) {
    !a.Write? && !a.Publish? && !a.CleanUp? && !a.MoveToQuarantine? && (a.Decay? ==> a.rot.NoRot?)
  }

  lemma {:induction false} DiskLeft(actions: seq<Action>, w: World)
    requires forall i | 0 <= i < |actions| :: LeavesDisk(actions[i])
    ensures ApplyAll(actions, w).disk == w.disk
  {
    if actions != [] {
      DiskLeft(actions[..|actions| - 1], w);
    }
  }

  lemma {:induction false} SnapshotsLeft(actions: seq<Action>, w: World)
    requires forall i | 0 <= i < |actions| :: !actions[i].Commit?
    ensures ApplyAll(actions, w).cat.snapshots == w.cat.snapshots
  {
    if actions != [] {
      SnapshotsLeft(actions[..|actions| - 1], w);
    }
  }

  lemma {:induction false} StagedDisk(w: World, plan: FetchPlan, runId: RunId, result: Client.QueryResult,
                                      decision: Schema.Decision, raw: Content, lake: Content, sc: Script)
    requires sc.rawRot.NoRot? && sc.lakeRot.NoRot?
    ensures var staged := ApplyAll(StageActions(plan, runId, result, decision, raw, lake, sc), w);
            DirOf(staged.disk, runId) == DirOf(w.disk, runId)[LakeTmp(plan.key) := lake]
  {
    var a := RecordActions(decision);
    var b := Write(runId, LakeTmp(plan.key), lake);
    var z := [StageFile(RawRow(plan, runId, result, raw)),
              StageFile(LakeFileRow(plan, runId, result, decision.schema, lake)),
              Decay(runId, RawTmp(plan.key), sc.rawRot), Decay(runId, LakeTmp(plan.key), sc.lakeRot)];
    assert StageActions(plan, runId, result, decision, raw, lake, sc) == a + ([b] + z);
    ApplyAppend(a, [b] + z, w);
    DiskLeft(a, w);
    ApplyCons(b, z, ApplyAll(a, w));
    DiskLeft(z, Apply(b, ApplyAll(a, w)));
  }

  lemma {:induction false} FreshFilesAreValid(plan: FetchPlan, runId: RunId, result: Client.QueryResult,
                                              prepared: Schema.Preparation, sc: Script)
    requires sc.rawBytes > 0 && sc.lakeBytes > 0 && |prepared.items| == |result.items|
    ensures var raw := RawContent(runId, plan.key, result.events, sc.rawBytes);
            FileFailures(RawRow(plan, runId, result, raw), Some(raw)) == []
    ensures var lake := LakeContent(runId, plan.key, prepared.decision.schema, result.fields, prepared.items,
                                    sc.lakeBytes);
            FileFailures(LakeFileRow(plan, runId, result, prepared.decision.schema, lake), Some(lake)) == []
  {}

  /** What an undisturbed fetch has staged passes validation. */
  lemma {:induction false} CleanStage(w: World, plan: FetchPlan, runId: RunId, result: Client.QueryResult,
                                      prepared: Schema.Preparation, sc: Script)
    requires CleanUntilPublish(sc) && |prepared.items| == |result.items|
    ensures var raw := RawContent(runId, plan.key, result.events, sc.rawBytes);
            var lake := LakeContent(runId, plan.key, prepared.decision.schema, result.fields, prepared.items,
                                    sc.lakeBytes);
            var written := Written(w, plan, runId, result, sc);
            var staged := ApplyAll(StageActions(plan, runId, result, prepared.decision, raw, lake, sc), written);
            var rawId := |w.cat.files|;
            && staged.cat.files == w.cat.files + [RawRow(plan, runId, result, raw),
                                                  LakeFileRow(plan, runId, result, prepared.decision.schema, lake)]
            && staged.cat.snapshots == w.cat.snapshots
            && Validated(staged, plan, runId, rawId, rawId + 1)
  {
    var raw := RawContent(runId, plan.key, result.events, sc.rawBytes);
    var lake := LakeContent(runId, plan.key, prepared.decision.schema, result.fields, prepared.items, sc.lakeBytes);
    var written := Written(w, plan, runId, result, sc);
    StagedRows(written, plan, runId, result, prepared.decision, raw, lake, sc);
    StagedDisk(written, plan, runId, result, prepared.decision, raw, lake, sc);
    SnapshotsLeft(StageActions(plan, runId, result, prepared.decision, raw, lake, sc), written);
    FreshFilesAreValid(plan, runId, result, prepared, sc);
  }

  /** The staged world of an undisturbed fetch. */
  function StagedWorld(text: Schema.Text, w: World, plan: FetchPlan, runId: RunId, result: Client.QueryResult,
                       sc: Script): World {
    var prepared := PreparedFor(text, w.cat, plan.key.apiName, result);
    ApplyAll(StageActions(plan, runId, result, prepared.decision,
                          RawContent(runId, plan.key, result.events, sc.rawBytes),
                          LakeContent(runId, plan.key, prepared.decision.schema, result.fields, prepared.items,
                                      sc.lakeBytes), sc), Written(w, plan, runId, result, sc))
  }

  /** An undisturbed fetch of an acceptable answer reaches the last stretch. */
  lemma {:induction false} CleanBody(text: Schema.Text, w: World, plan: FetchPlan, runId: RunId, finishRun: bool,
                                     sc: Script)
    requires CleanUntilPublish(sc) && Accepted(text, w, plan.key, sc)
    ensures var result := QueryWithRetry(sc.replies, sc.maxAttempts, 1).result;
            Body(text, w, plan, runId, finishRun, sc)
            == Published(StagedWorld(text, w, plan, runId, result, sc), plan, runId, finishRun, |w.cat.files|, result,
                         sc.publish)
  {
    var result := QueryWithRetry(sc.replies, sc.maxAttempts, 1).result;
    var prepared := PreparedFor(text, w.cat, plan.key.apiName, result);
    ApplyOne(Write(runId, RawTmp(plan.key), RawContent(runId, plan.key, result.events, sc.rawBytes)), w);
    CleanStage(w, plan, runId, result, prepared, sc);
    CleanAccept(Written(w, plan, runId, result, sc), plan, runId, finishRun, result, prepared, sc);
  }

  lemma {:induction false} CleanAccept(w: World, plan: FetchPlan, runId: RunId, finishRun: bool,
                                       result: Client.QueryResult, prepared: Schema.Preparation, sc: Script)
    requires sc.stage.NoFault?
    requires var raw := RawContent(runId, plan.key, result.events, sc.rawBytes);
             var lake := LakeContent(runId, plan.key, prepared.decision.schema, result.fields, prepared.items,
                                     sc.lakeBytes);
             Validated(ApplyAll(StageActions(plan, runId, result, prepared.decision, raw, lake, sc), w), plan, runId,
                       |w.cat.files|, |w.cat.files| + 1)
    ensures var raw := RawContent(runId, plan.key, result.events, sc.rawBytes);
            var lake := LakeContent(runId, plan.key, prepared.decision.schema, result.fields, prepared.items,
                                    sc.lakeBytes);
            Accept(w, plan, runId, finishRun, result, prepared, raw, sc)
            == Published(ApplyAll(StageActions(plan, runId, result, prepared.decision, raw, lake, sc), w),
                         plan, runId, finishRun, |w.cat.files|, result, sc.publish)
  {}

  /** A fetch that nothing disturbs and whose answer is acceptable returns data. */
  lemma {:induction false} CleanFetchCommits(text: Schema.Text, w: World, req: Request, slot: Slot, sc: Script)
    requires !IsDone(w.cat, req.key) && Clean(sc) && Accepted(text, w, req.key, sc)
    ensures var e := Fetch(text, w, req, slot, sc);
            e.end.Finished? && e.end.result.snapshot.Some?
  {
    BeginKeepsRest(w, req);
    CleanBody(text, ApplyAll(BeginActions(w.cat, req), w), PlanFetch(req.key, sc.today, slot), RunOf(w.cat, req),
              req.finishRun, sc);
  }
}
