/** The schema registry over runs of whole fetches, with any faults: a fetch leaves it as it was, or
    as offering the batch that the server answered leaves it. */
module SchemaRuns {
  import opened Wrappers
  import opened Errors
  import opened Catalog
  import opened Store
  import opened Safety
  import opened Runs
  import Schema
  import SchemaHistory
  import Client

  // ---- actions ----

  ghost predicate NoSchema(actions: seq<Action>) {
    forall i | 0 <= i < |actions| :: !actions[i].AddSchema?
  }

  lemma {:induction false} ApplyKeepsSchemas(actions: seq<Action>, w: World)
    requires NoSchema(actions)
    ensures ApplyAll(actions, w).cat.schemas == w.cat.schemas
  {
    if actions != [] {
      ApplyKeepsSchemas(actions[..|actions| - 1], w);
    }
  }

  lemma {:induction false} PerformKeepsSchemas(actions: seq<Action>, fault: Fault, w: World)
    requires NoSchema(actions)
    ensures Perform(actions, fault, w).w.cat.schemas == w.cat.schemas
  {
    ApplyKeepsSchemas(actions, w);
    if Strikes(fault, actions) {
      ApplyKeepsSchemas(actions[..fault.at], w);
    }
  }

  /** A stretch that begins with recording a schema: it is recorded, or nothing happened to it. */
  lemma {:induction false} PerformAddsSchema(schema: Schema.SchemaDef, rest: seq<Action>, fault: Fault, w: World)
    requires NoSchema(rest)
    ensures var after := Perform([AddSchema(schema)] + rest, fault, w).w.cat.schemas;
            after == w.cat.schemas || after == Schema.InsertSchema(w.cat.schemas, schema)
  {
    var actions, added := [AddSchema(schema)] + rest, Apply(AddSchema(schema), w);
    if !Strikes(fault, actions) {
      ApplyCons(AddSchema(schema), rest, w);
      ApplyKeepsSchemas(rest, added);
    } else if fault.at > 0 {
      assert actions[..fault.at] == [AddSchema(schema)] + rest[..fault.at - 1];
      ApplyCons(AddSchema(schema), rest[..fault.at - 1], w);
      ApplyKeepsSchemas(rest[..fault.at - 1], added);
    }
  }

  // ---- one fetch ----

  lemma {:induction false} RejectHasNoSchema(before: seq<Action>, key: JobKey, runId: RunId, finishRun: bool,
                                             reason: ErrorType, size: Option<nat>, sha: Option<Digest>)
    requires NoSchema(before)
    ensures NoSchema(before + RejectActions(key, runId, finishRun, reason, size, sha))
  {}

  lemma {:induction false} PublishHasNoSchema(plan: FetchPlan, runId: RunId, finishRun: bool, rawId: FileId,
                                              lakeId: FileId, result: Client.QueryResult)
    ensures NoSchema(PublishActions(plan, runId, finishRun, rawId, lakeId, result))
  {}

  lemma {:induction false} StageBeginsWithSchema(plan: FetchPlan, runId: RunId, result: Client.QueryResult,
                                                 decision: Schema.Decision, raw: Content, lake: Content, sc: Script)
    returns (rest: seq<Action>)
    ensures NoSchema(rest)
    ensures StageActions(plan, runId, result, decision, raw, lake, sc) == [AddSchema(decision.schema)] + rest
  {
    rest := StageActions(plan, runId, result, decision, raw, lake, sc)[1..];
  }

  /** What follows the staging does not concern schemas. */
  lemma {:induction false} AcceptedSchemas(w: World, plan: FetchPlan, runId: RunId, finishRun: bool,
                                           result: Client.QueryResult, prepared: Schema.Preparation, raw: Content,
                                           sc: Script)
    ensures var lake := LakeContent(runId, plan.key, prepared.decision.schema, result.fields, prepared.items,
                                    sc.lakeBytes);
            Accept(w, plan, runId, finishRun, result, prepared, raw, sc).w.cat.schemas
            == Perform(StageActions(plan, runId, result, prepared.decision, raw, lake, sc), sc.stage, w).w.cat.schemas
  {
    var lake := LakeContent(runId, plan.key, prepared.decision.schema, result.fields, prepared.items, sc.lakeBytes);
    var rawId, lakeId := |w.cat.files|, |w.cat.files| + 1;
    var staged := Perform(StageActions(plan, runId, result, prepared.decision, raw, lake, sc), sc.stage, w).w;
    var size := if RawTmp(plan.key) in DirOf(staged.disk, runId)
        then Some(DirOf(staged.disk, runId)[RawTmp(plan.key)].bytes) else None;
    RejectHasNoSchema([], plan.key, runId, finishRun, ValidationFailed, size, None);
    var rejected := RejectActions(plan.key, runId, finishRun, ValidationFailed, size, None);
    assert [] + rejected == rejected;
    PerformKeepsSchemas(rejected, sc.publish, staged);
    PublishHasNoSchema(plan, runId, finishRun, rawId, lakeId, result);
    PerformKeepsSchemas(PublishActions(plan, runId, finishRun, rawId, lakeId, result), sc.publish, staged);
  }

  lemma {:induction false} AcceptAddsSchema(w: World, plan: FetchPlan, runId: RunId, finishRun: bool,
                                            result: Client.QueryResult, prepared: Schema.Preparation, raw: Content,
                                            sc: Script)
    ensures var after := Accept(w, plan, runId, finishRun, result, prepared, raw, sc).w.cat.schemas;
            after == w.cat.schemas || after == Schema.InsertSchema(w.cat.schemas, prepared.decision.schema)
  {
    var lake := LakeContent(runId, plan.key, prepared.decision.schema, result.fields, prepared.items, sc.lakeBytes);
    var rest := StageBeginsWithSchema(plan, runId, result, prepared.decision, raw, lake, sc);
    AcceptedSchemas(w, plan, runId, finishRun, result, prepared, raw, sc);
    PerformAddsSchema(prepared.decision.schema, rest, sc.stage, w);
  }

  function BatchOf(apiName: string, result: Client.QueryResult): Schema.Batch {
    Schema.Batch(apiName, result.fields, result.items)
  }

  /** The registry after a fetch that got this answer. */
  ghost predicate OfferedOrKept(text: Schema.Text, before: Schema.Registry, after: Schema.Registry, reply: Reply,
                                apiName: string) {
    after == before || (reply.Answer? && after == Schema.Offer(text, before, BatchOf(apiName, reply.result)))
  }

  lemma {:induction false} RejectedKeepsSchemas(w: World, decision: Schema.Decision, key: JobKey, runId: RunId,
                                                finishRun: bool, size: Option<nat>, sha: Option<Digest>, fault: Fault)
    ensures Perform(ChangeActions(decision) + RejectActions(key, runId, finishRun, SchemaIncompatible, size, sha),
                    fault, w).w.cat.schemas
            == w.cat.schemas
  {
    RejectHasNoSchema(ChangeActions(decision), key, runId, finishRun, SchemaIncompatible, size, sha);
    PerformKeepsSchemas(ChangeActions(decision) + RejectActions(key, runId, finishRun, SchemaIncompatible, size, sha),
                        fault, w);
  }

  lemma {:induction false} StoreOffers(text: Schema.Text, w: World, plan: FetchPlan, runId: RunId, finishRun: bool,
                                       result: Client.QueryResult, sc: Script)
    ensures OfferedOrKept(text, w.cat.schemas, Store.Store(text, w, plan, runId, finishRun, result, sc).w.cat.schemas,
                          Answer(result), plan.key.apiName)
  {
    var api := plan.key.apiName;
    var raw := RawContent(runId, plan.key, result.events, sc.rawBytes);
    var write := [Write(runId, RawTmp(plan.key), raw)];
    PerformKeepsSchemas(write, sc.write, w);
    var written := Perform(write, sc.write, w).w;
    var prepared := Schema.Prepare(text, Schema.LatestSchema(written.cat.schemas, api), api, result.fields,
                                   result.items);
    if prepared.decision.Compatible() {
      AcceptAddsSchema(written, plan, runId, finishRun, result, prepared, raw, sc);
    } else {
      RejectedKeepsSchemas(written, prepared.decision, plan.key, runId, finishRun, Some(raw.bytes), Some(Sha256(raw)),
                           sc.stage);
    }
  }

  lemma {:induction false} BodyOffers(text: Schema.Text, w: World, plan: FetchPlan, runId: RunId, finishRun: bool,
                                      sc: Script)
    ensures OfferedOrKept(text, w.cat.schemas, Body(text, w, plan, runId, finishRun, sc).w.cat.schemas,
                          QueryWithRetry(sc.replies, sc.maxAttempts, 1), plan.key.apiName)
  {
    var reply := QueryWithRetry(sc.replies, sc.maxAttempts, 1);
    if reply.Answer? {
      StoreOffers(text, w, plan, runId, finishRun, reply.result, sc);
    }
  }

  lemma {:induction false} HandlerKeepsSchemas(e: Ending, key: JobKey, runId: RunId, finishRun: bool, fault: Fault)
    ensures Handle(e, key, runId, finishRun, fault).w.cat.schemas == e.w.cat.schemas
  {
    if e.end.Threw? {
      PerformKeepsSchemas(HandlerActions(e.w, key, runId, finishRun, e.end.error), fault, e.w);
    }
  }

  /** However a fetch ends, it has offered its batch to the registry or left the registry alone. */
  lemma {:induction false} FetchOffers(text: Schema.Text, w: World, req: Request, slot: Slot, sc: Script)
    ensures OfferedOrKept(text, w.cat.schemas, Fetch(text, w, req, slot, sc).w.cat.schemas,
                          QueryWithRetry(sc.replies, sc.maxAttempts, 1), req.key.apiName)
  {
    if !ExistingActiveData(w.cat, req.key) {
      var key, runId := req.key, RunOf(w.cat, req);
      var plan := PlanFetch(key, sc.today, slot);
      PerformKeepsSchemas(BeginActions(w.cat, req), sc.begin, w);
      var begun := Perform(BeginActions(w.cat, req), sc.begin, w).w;
      BodyOffers(text, begun, plan, runId, req.finishRun, sc);
      HandlerKeepsSchemas(Body(text, begun, plan, runId, req.finishRun, sc), key, runId, req.finishRun, sc.handler);
    }
  }

  // ---- runs ----

  /** Whenever the server answers a fetch of the API, its answer has the column. */
  ghost predicate AllCarry(commands: seq<Command>, apiName: string, f: string) {
    forall c | c in commands ::
      var reply := QueryWithRetry(c.sc.replies, c.sc.maxAttempts, 1);
      reply.Answer? ==> SchemaHistory.Carries(BatchOf(c.req.key.apiName, reply.result), apiName, f)
  }

  lemma {:induction false} KeptWidens(schemas: Schema.Registry, apiName: string, f: string)
    requires SchemaHistory.ColumnHistory(schemas, apiName, f)
    ensures SchemaHistory.ColumnWidens(schemas, schemas, apiName, f)
  {
    Schema.LatestIsRecorded(schemas, apiName);
  }

  /** Over any run of fetches, faults and crashes included, the recorded type of a column that
      every answer carries only goes from int to float. */
  lemma {:induction false} RunsOnlyWiden(text: Schema.Text, w: World, slots: Slots, commands: seq<Command>,
                                         apiName: string, f: string)
    requires Known(commands, slots) && AllCarry(commands, apiName, f)
    requires SchemaHistory.ColumnHistory(w.cat.schemas, apiName, f)
    ensures var after := RunAll(text, w, slots, commands).cat.schemas;
            && SchemaHistory.ColumnHistory(after, apiName, f)
            && SchemaHistory.ColumnWidens(w.cat.schemas, after, apiName, f)
    decreases |commands|
  {
    KeptWidens(w.cat.schemas, apiName, f);
    if commands != [] {
      var c := commands[0];
      var reply := QueryWithRetry(c.sc.replies, c.sc.maxAttempts, 1);
      var next := Fetch(text, w, c.req, slots[c.req.key], c.sc).w;
      FetchOffers(text, w, c.req, slots[c.req.key], c.sc);
      if next.cat.schemas != w.cat.schemas {
        SchemaHistory.OfferKeepsHistory(text, w.cat.schemas, BatchOf(c.req.key.apiName, reply.result), apiName, f);
      }
      RunsOnlyWiden(text, next, slots, commands[1..], apiName, f);
      SchemaHistory.WidensFurther(w.cat.schemas, next.cat.schemas,
                                  RunAll(text, next, slots, commands[1..]).cat.schemas, apiName, f);
    }
  }
}
