/** What can be told from the script of a fetch alone: whether its staged files pass validation, and
    whether there is a temp directory when the body of the try statement raises. */
module Scripts {
  import opened Wrappers
  import opened Errors
  import opened Catalog
  import opened Store
  import opened Runs
  import opened Outcomes
  import opened TempDirs
  import opened Backfill
  import opened Records
  import Schema
  import Client

  // ---- validation ----

  /** What storage leaves of a staged file. */
  function LeftOf(rot: Rot, content: Content): Option<Content> {
    match rot
    case NoRot => Some(content)
    case Lost => None
    case Damaged(other) => Some(other)
  }

  lemma {:induction false} DecayFound(d: Disk, runId: RunId, name: TmpName, rot: Rot)
    requires name in DirOf(d, runId)
    ensures var e := ApplyDisk(Decay(runId, name, rot), d);
            && Find(DirOf(e, runId), name) == LeftOf(rot, DirOf(d, runId)[name])
            && forall other | other != name :: Find(DirOf(e, runId), other) == Find(DirOf(d, runId), other)
  {}

  lemma {:induction false} DecayBoth(w: World, runId: RunId, key: JobKey, rawRot: Rot, lakeRot: Rot)
    requires RawTmp(key) in DirOf(w.disk, runId) && LakeTmp(key) in DirOf(w.disk, runId)
    ensures var d := DirOf(w.disk, runId);
            var e := DirOf(ApplyAll([Decay(runId, RawTmp(key), rawRot), Decay(runId, LakeTmp(key), lakeRot)], w).disk,
                           runId);
            && Find(e, RawTmp(key)) == LeftOf(rawRot, d[RawTmp(key)])
            && Find(e, LakeTmp(key)) == LeftOf(lakeRot, d[LakeTmp(key)])
  {
    var a, b := Decay(runId, RawTmp(key), rawRot), Decay(runId, LakeTmp(key), lakeRot);
    assert [a, b] == [a] + [b];
    ApplyCons(a, [b], w);
    ApplyOne(b, Apply(a, w));
    DecayFound(w.disk, runId, RawTmp(key), rawRot);
    DecayFound(ApplyDisk(a, w.disk), runId, LakeTmp(key), lakeRot);
  }

  /** What the validation finds in the temp directory. */
  lemma {:induction false} StagedFound(w: World, plan: FetchPlan, runId: RunId, result: Client.QueryResult,
                                       decision: Schema.Decision, raw: Content, lake: Content, sc: Script)
    requires Find(DirOf(w.disk, runId), RawTmp(plan.key)) == Some(raw)
    ensures var dir := DirOf(ApplyAll(StageActions(plan, runId, result, decision, raw, lake, sc), w).disk, runId);
            && Find(dir, RawTmp(plan.key)) == LeftOf(sc.rawRot, raw)
            && Find(dir, LakeTmp(plan.key)) == LeftOf(sc.lakeRot, lake)
  {
    var before := RecordActions(decision)
                  + [Write(runId, LakeTmp(plan.key), lake), StageFile(RawRow(plan, runId, result, raw)),
                     StageFile(LakeFileRow(plan, runId, result, decision.schema, lake))];
    var decays := [Decay(runId, RawTmp(plan.key), sc.rawRot), Decay(runId, LakeTmp(plan.key), sc.lakeRot)];
    assert StageActions(plan, runId, result, decision, raw, lake, sc) == before + decays;
    ApplyAppend(before, decays, w);
    StagedBefore(w, plan, runId, result, decision, raw, lake);
    DecayBoth(ApplyAll(before, w), runId, plan.key, sc.rawRot, sc.lakeRot);
  }

  lemma {:induction false} StagedBefore(w: World, plan: FetchPlan, runId: RunId, result: Client.QueryResult,
                                        decision: Schema.Decision, raw: Content, lake: Content)
    requires Find(DirOf(w.disk, runId), RawTmp(plan.key)) == Some(raw)
    ensures var before := RecordActions(decision)
                          + [Write(runId, LakeTmp(plan.key), lake), StageFile(RawRow(plan, runId, result, raw)),
                             StageFile(LakeFileRow(plan, runId, result, decision.schema, lake))];
            var dir := DirOf(ApplyAll(before, w).disk, runId);
            Find(dir, RawTmp(plan.key)) == Some(raw) && Find(dir, LakeTmp(plan.key)) == Some(lake)
  {
    var a, b := RecordActions(decision), Write(runId, LakeTmp(plan.key), lake);
    var z := [StageFile(RawRow(plan, runId, result, raw)),
              StageFile(LakeFileRow(plan, runId, result, decision.schema, lake))];
    assert a + [b, z[0], z[1]] == a + ([b] + z);
    ApplyAppend(a, [b] + z, w);
    DiskLeft(a, w);
    ApplyCons(b, z, ApplyAll(a, w));
    DiskLeft(z, Apply(b, ApplyAll(a, w)));
  }

  lemma {:induction false} RawValidIff(plan: FetchPlan, runId: RunId, result: Client.QueryResult, bytes: nat, rot: Rot)
    ensures var raw := RawContent(runId, plan.key, result.events, bytes);
            FileFailures(RawRow(plan, runId, result, raw), LeftOf(rot, raw)) == []
            <==> bytes > 0 && LeftOf(rot, raw) == Some(raw)
  {
    var raw := RawContent(runId, plan.key, result.events, bytes);
    ValidationIsExact(RawRow(plan, runId, result, raw), LeftOf(rot, raw));
  }

  lemma {:induction false} LakeValidIff(plan: FetchPlan, runId: RunId, result: Client.QueryResult,
                                        schema: Schema.SchemaDef, items: seq<Schema.Row>, bytes: nat, rot: Rot)
    requires |items| == |result.items|
    ensures var lake := LakeContent(runId, plan.key, schema, result.fields, items, bytes);
            FileFailures(LakeFileRow(plan, runId, result, schema, lake), LeftOf(rot, lake)) == []
            <==> bytes > 0 && LeftOf(rot, lake) == Some(lake)
  {
    var lake := LakeContent(runId, plan.key, schema, result.fields, items, bytes);
    ValidationIsExact(LakeFileRow(plan, runId, result, schema, lake), LeftOf(rot, lake));
  }

  /** Neither file is empty, and storage leaves both as they were written. */
  predicate Sound(plan: FetchPlan, runId: RunId, result: Client.QueryResult, prepared: Schema.Preparation, sc: Script) {
    var raw := RawContent(runId, plan.key, result.events, sc.rawBytes);
    var lake := LakeContent(runId, plan.key, prepared.decision.schema, result.fields, prepared.items, sc.lakeBytes);
    && sc.rawBytes > 0 && sc.lakeBytes > 0
    && LeftOf(sc.rawRot, raw) == Some(raw) && LeftOf(sc.lakeRot, lake) == Some(lake)
  }

  /** Staged files pass validation exactly if neither is empty and storage leaves both unchanged. */
  lemma {:induction false} StagedValidIff(w: World, plan: FetchPlan, runId: RunId, result: Client.QueryResult,
                                          prepared: Schema.Preparation, sc: Script)
    requires |prepared.items| == |result.items|
    requires var raw := RawContent(runId, plan.key, result.events, sc.rawBytes);
             Find(DirOf(w.disk, runId), RawTmp(plan.key)) == Some(raw)
    ensures var raw := RawContent(runId, plan.key, result.events, sc.rawBytes);
            var lake := LakeContent(runId, plan.key, prepared.decision.schema, result.fields, prepared.items,
                                    sc.lakeBytes);
            var staged := ApplyAll(StageActions(plan, runId, result, prepared.decision, raw, lake, sc), w);
            StagedFailures(staged, runId, plan, |w.cat.files|, |w.cat.files| + 1) == []
            <==> Sound(plan, runId, result, prepared, sc)
  {
    var raw := RawContent(runId, plan.key, result.events, sc.rawBytes);
    var lake := LakeContent(runId, plan.key, prepared.decision.schema, result.fields, prepared.items, sc.lakeBytes);
    StagedRows(w, plan, runId, result, prepared.decision, raw, lake, sc);
    StagedFound(w, plan, runId, result, prepared.decision, raw, lake, sc);
    RawValidIff(plan, runId, result, sc.rawBytes, sc.rawRot);
    LakeValidIff(plan, runId, result, prepared.decision.schema, prepared.items, sc.lakeBytes, sc.lakeRot);
  }

  // ---- a body that raises ----

  /** The fault comes after the first n actions. */
  predicate After(fault: Fault, n: nat) {
    fault.Fault? && fault.at >= n
  }

  /** The batch is rejected, and the fault comes after the move of the temp directory. */
  predicate RejectedLate(plan: FetchPlan, runId: RunId, result: Client.QueryResult, prepared: Schema.Preparation,
                         sc: Script) {
    var changes := |ChangeActions(prepared.decision)|;
    if !prepared.decision.Compatible() then After(sc.stage, changes + 1)
    else (sc.stage.NoFault? || After(sc.stage, changes + 6))
         && !Sound(plan, runId, result, prepared, sc) && After(sc.publish, 1)
  }

  /** What a script has to say for there to be no temp directory when the body raises. */
  predicate RaisesWithoutDir(text: Schema.Text, c: Cat, plan: FetchPlan, runId: RunId, sc: Script) {
    var reply := QueryWithRetry(sc.replies, sc.maxAttempts, 1);
    || reply.Refusal?
    || (if sc.write.Fault? && sc.write.at == 0 then sc.write.residue.NoDirectory?
        else RejectedLate(plan, runId, reply.result, PreparedFor(text, c, plan.key.apiName, reply.result), sc))
  }

  lemma {:induction false} RejectPrefix(before: seq<Action>, key: JobKey, runId: RunId, finishRun: bool,
                                        reason: ErrorType, size: Option<nat>, sha: Option<Digest>, n: nat)
    requires n <= |before + RejectActions(key, runId, finishRun, reason, size, sha)|
    ensures var move := MoveToQuarantine(runId, QuarantineDir(runId, key, reason));
            var rejects := RejectActions(key, runId, finishRun, reason, size, sha);
            var all := before + rejects;
            && (n <= |before| ==> all[..n] == before[..n])
            && (n > |before| ==> all[..n] == before + ([move] + rejects[1..n - |before|]))
            && forall i | 0 <= i < |rejects| :: !rejects[i].Write? && !rejects[i].CleanUp?
  {}

  lemma {:induction false} RejectPrefixGone(before: seq<Action>, w: World, key: JobKey, runId: RunId, finishRun: bool,
                                            reason: ErrorType, size: Option<nat>, sha: Option<Digest>, n: nat)
    requires !Gone(w, runId) && forall i | 0 <= i < |before| :: !Removes(before[i])
    requires n <= |before + RejectActions(key, runId, finishRun, reason, size, sha)|
    ensures Gone(ApplyAll((before + RejectActions(key, runId, finishRun, reason, size, sha))[..n], w), runId)
            <==> n > |before|
  {
    var move := MoveToQuarantine(runId, QuarantineDir(runId, key, reason));
    RejectPrefix(before, key, runId, finishRun, reason, size, sha, n);
    if n <= |before| {
      DirStays(before[..n], w, runId);
    } else {
      RemovedIsGone(before, move, RejectActions(key, runId, finishRun, reason, size, sha)[1..n - |before|], w, runId);
    }
  }

  lemma {:induction false} RejectedGoneIff(before: seq<Action>, w: World, key: JobKey, runId: RunId, finishRun: bool,
                                           reason: ErrorType, size: Option<nat>, sha: Option<Digest>, fault: Fault)
    requires !Gone(w, runId)
    requires forall i | 0 <= i < |before| :: !Removes(before[i]) && !before[i].Write?
    ensures var e := Rejected(before, w, key, runId, finishRun, reason, size, sha, fault);
            e.end.Threw? ==> (Gone(e.w, runId) <==> After(fault, |before| + 1))
  {
    var all := before + RejectActions(key, runId, finishRun, reason, size, sha);
    if Strikes(fault, all) {
      RejectPrefix(before, key, runId, finishRun, reason, size, sha, fault.at);
      RejectPrefixGone(before, w, key, runId, finishRun, reason, size, sha, fault.at);
    }
  }

  lemma {:induction false} PublishedNotGone(w: World, plan: FetchPlan, runId: RunId, finishRun: bool, rawId: FileId,
                                            result: Client.QueryResult, fault: Fault)
    requires !Gone(w, runId)
    ensures var e := Published(w, plan, runId, finishRun, rawId, result, fault); e.end.Threw? ==> !Gone(e.w, runId)
  {
    var all := PublishActions(plan, runId, finishRun, rawId, rawId + 1, result);
    PublishRemovesLast(plan, runId, finishRun, rawId, rawId + 1, result);
    if Strikes(fault, all) {
      DirStays(all[..fault.at], w, runId);
    }
  }

  lemma {:induction false} StageLength(plan: FetchPlan, runId: RunId, result: Client.QueryResult,
                                       decision: Schema.Decision, raw: Content, lake: Content, sc: Script)
    ensures var stage := StageActions(plan, runId, result, decision, raw, lake, sc);
            |stage| == |ChangeActions(decision)| + 6 && forall i | 0 <= i < |stage| :: !Removes(stage[i])
  {}

  lemma {:induction false} StageCutNotGone(w: World, plan: FetchPlan, runId: RunId, result: Client.QueryResult,
                                           decision: Schema.Decision, raw: Content, lake: Content, sc: Script)
    requires !Gone(w, runId)
    ensures !Gone(Perform(StageActions(plan, runId, result, decision, raw, lake, sc), sc.stage, w).w, runId)
  {
    var stage := StageActions(plan, runId, result, decision, raw, lake, sc);
    StageLength(plan, runId, result, decision, raw, lake, sc);
    DirStays(stage, w, runId);
    if Strikes(sc.stage, stage) {
      DirStays(stage[..sc.stage.at], w, runId);
    }
  }

  lemma {:induction false} AcceptGoneIff(w: World, plan: FetchPlan, runId: RunId, finishRun: bool,
                                         result: Client.QueryResult, prepared: Schema.Preparation, sc: Script)
    requires |prepared.items| == |result.items| && prepared.decision.Compatible()
    requires var raw := RawContent(runId, plan.key, result.events, sc.rawBytes);
             Find(DirOf(w.disk, runId), RawTmp(plan.key)) == Some(raw)
    ensures var raw := RawContent(runId, plan.key, result.events, sc.rawBytes);
            var e := Accept(w, plan, runId, finishRun, result, prepared, raw, sc);
            e.end.Threw? ==> (Gone(e.w, runId) <==> RejectedLate(plan, runId, result, prepared, sc))
  {
    var raw := RawContent(runId, plan.key, result.events, sc.rawBytes);
    var lake := LakeContent(runId, plan.key, prepared.decision.schema, result.fields, prepared.items, sc.lakeBytes);
    var staged := ApplyAll(StageActions(plan, runId, result, prepared.decision, raw, lake, sc), w);
    var size := AcceptExactly(w, plan, runId, finishRun, result, prepared, raw, sc);
    StageLength(plan, runId, result, prepared.decision, raw, lake, sc);
    StageCutNotGone(w, plan, runId, result, prepared.decision, raw, lake, sc);
    StageKeepsDir(w, plan, runId, result, prepared.decision, raw, lake, sc);
    StagedValidIff(w, plan, runId, result, prepared, sc);
    RejectedGoneIff([], staged, plan.key, runId, finishRun, ValidationFailed, size, None, sc.publish);
    PublishedNotGone(staged, plan, runId, finishRun, |w.cat.files|, result, sc.publish);
  }

  /** Which way a staged batch goes. */
  lemma {:induction false} AcceptExactly(w: World, plan: FetchPlan, runId: RunId, finishRun: bool,
                                         result: Client.QueryResult, prepared: Schema.Preparation, raw: Content,
                                         sc: Script)
    returns (size: Option<nat>)
    ensures var lake := LakeContent(runId, plan.key, prepared.decision.schema, result.fields, prepared.items,
                                    sc.lakeBytes);
            var stage := StageActions(plan, runId, result, prepared.decision, raw, lake, sc);
            var staged := ApplyAll(stage, w);
            Accept(w, plan, runId, finishRun, result, prepared, raw, sc)
            == if Strikes(sc.stage, stage) then Conclude(Perform(stage, sc.stage, w), NoData(runId, plan.key))
               else if StagedFailures(staged, runId, plan, |w.cat.files|, |w.cat.files| + 1) != [] then
                 Rejected([], staged, plan.key, runId, finishRun, ValidationFailed, size, None, sc.publish)
               else Published(staged, plan, runId, finishRun, |w.cat.files|, result, sc.publish)
  {
    var lake := LakeContent(runId, plan.key, prepared.decision.schema, result.fields, prepared.items, sc.lakeBytes);
    var stage := StageActions(plan, runId, result, prepared.decision, raw, lake, sc);
    var dir := DirOf(Perform(stage, sc.stage, w).w.disk, runId);
    size := if RawTmp(plan.key) in dir then Some(dir[RawTmp(plan.key)].bytes) else None;
    assert [] + RejectActions(plan.key, runId, finishRun, ValidationFailed, size, None)
        == RejectActions(plan.key, runId, finishRun, ValidationFailed, size, None);
    assert Strikes(sc.stage, stage) ==> !stage[sc.stage.at].CleanUp?;
  }

  lemma {:induction false} StoreGoneIff(text: Schema.Text, w: World, plan: FetchPlan, runId: RunId, finishRun: bool,
                                        result: Client.QueryResult, sc: Script)
    requires Gone(w, runId)
    ensures var e := Store.Store(text, w, plan, runId, finishRun, result, sc);
            e.end.Threw? ==>
              (Gone(e.w, runId)
               <==> if sc.write.Fault? && sc.write.at == 0 then sc.write.residue.NoDirectory?
                    else RejectedLate(plan, runId, result, PreparedFor(text, w.cat, plan.key.apiName, result), sc))
  {
    var key := plan.key;
    var raw := RawContent(runId, key, result.events, sc.rawBytes);
    var write := [Write(runId, RawTmp(key), raw)];
    if !Strikes(sc.write, write) {
      var written := ApplyAll(write, w);
      ApplyOne(write[0], w);
      var prepared := PreparedFor(text, written.cat, key.apiName, result);
      if prepared.decision.Compatible() {
        AcceptGoneIff(written, plan, runId, finishRun, result, prepared, sc);
      } else {
        RejectedGoneIff(ChangeActions(prepared.decision), written, key, runId, finishRun, SchemaIncompatible,
                        Some(raw.bytes), Some(Sha256(raw)), sc.stage);
      }
    } else {
      assert write[..0] == [];
    }
  }

  /** When the body raises, the script tells whether there is a temp directory. */
  lemma {:induction false} BodyGoneIff(text: Schema.Text, w: World, req: Request, slot: Slot, sc: Script)
    requires Gone(w, RunOf(w.cat, req)) && BodyOf(text, w, req, slot, sc).end.Threw?
    ensures Gone(BodyOf(text, w, req, slot, sc).w, RunOf(w.cat, req))
            <==> RaisesWithoutDir(text, w.cat, PlanFetch(req.key, sc.today, slot), RunOf(w.cat, req), sc)
  {
    var begun, plan := ApplyAll(BeginActions(w.cat, req), w), PlanFetch(req.key, sc.today, slot);
    var reply := QueryWithRetry(sc.replies, sc.maxAttempts, 1);
    BeginKeepsRest(w, req);
    if reply.Answer? {
      StoreGoneIff(text, begun, plan, RunOf(w.cat, req), req.finishRun, reply.result, sc);
    }
  }

  /** From the script alone: a fetch that raises, without a directory before, leaves one behind
      exactly if its body made one and the except clause was cut off before it could move it. */
  lemma {:induction false} RaisedLeavesDirIff(text: Schema.Text, w: World, req: Request, slot: Slot, sc: Script)
    requires Gone(w, RunOf(w.cat, req)) && !ExistingActiveData(w.cat, req.key)
    requires !Strikes(sc.begin, BeginActions(w.cat, req)) && Fetch(text, w, req, slot, sc).end.Threw?
    ensures Gone(Fetch(text, w, req, slot, sc).w, RunOf(w.cat, req))
            <==> !CutsRemoval(sc.handler, req.finishRun)
                 || RaisesWithoutDir(text, w.cat, PlanFetch(req.key, sc.today, slot), RunOf(w.cat, req), sc)
  {
    FetchClearsTemp(text, w, req, slot, sc);
    BodyGoneIff(text, w, req, slot, sc);
  }

  // ---- how a job that raised is classified ----

  /** The batch is rejected, and the fault strikes between the move and the note of the quarantine. */
  predicate RejectedUnnoted(plan: FetchPlan, runId: RunId, result: Client.QueryResult, prepared: Schema.Preparation,
                            sc: Script) {
    && RejectedLate(plan, runId, result, prepared, sc)
    && if prepared.decision.Compatible() then !After(sc.publish, 2)
       else !After(sc.stage, |ChangeActions(prepared.decision)| + 2)
  }

  /** The script of a body that raises without a temp directory and without having noted a quarantine. */
  predicate RaisesUnnoted(text: Schema.Text, c: Cat, plan: FetchPlan, runId: RunId, sc: Script) {
    var reply := QueryWithRetry(sc.replies, sc.maxAttempts, 1);
    || reply.Refusal?
    || (if sc.write.Fault? && sc.write.at == 0 then sc.write.residue.NoDirectory?
        else RejectedUnnoted(plan, runId, reply.result, PreparedFor(text, c, plan.key.apiName, reply.result), sc))
  }

  lemma {:induction false} NoteAfter(first: seq<Action>, row: QuarantineRow, rest: seq<Action>, w: World)
    requires forall i | 0 <= i < |first| :: !first[i].NoteQuarantine?
    requires forall i | 0 <= i < |rest| :: !rest[i].NoteQuarantine?
    ensures ApplyAll(first + ([NoteQuarantine(row)] + rest), w).cat.quarantine == w.cat.quarantine + [row]
  {
    ApplyAppend(first, [NoteQuarantine(row)] + rest, w);
    QuarantineRowsLeft(first, w);
    ApplyCons(NoteQuarantine(row), rest, ApplyAll(first, w));
    QuarantineRowsLeft(rest, Apply(NoteQuarantine(row), ApplyAll(first, w)));
  }

  lemma {:induction false} RejectParts(before: seq<Action>, key: JobKey, runId: RunId, finishRun: bool,
                                       reason: ErrorType, size: Option<nat>, sha: Option<Digest>, n: nat)
    returns (rest: seq<Action>)
    requires |before| < n <= |before + RejectActions(key, runId, finishRun, reason, size, sha)|
    ensures var all := before + RejectActions(key, runId, finishRun, reason, size, sha);
            var first := before + [MoveToQuarantine(runId, QuarantineDir(runId, key, reason))];
            all[..n] == if n == |before| + 1 then first
                        else first + ([NoteQuarantine(QuarantineRow(runId, key, reason, size, sha))] + rest)
    ensures forall i | 0 <= i < |rest| :: !rest[i].NoteQuarantine?
  {
    rest := if n == |before| + 1 then [] else RejectActions(key, runId, finishRun, reason, size, sha)[2..n - |before|];
  }

  lemma {:induction false} RejectedNotes(before: seq<Action>, w: World, key: JobKey, runId: RunId, finishRun: bool,
                                         reason: ErrorType, size: Option<nat>, sha: Option<Digest>, fault: Fault)
    requires forall i | 0 <= i < |before| :: !before[i].NoteQuarantine?
    requires Rejected(before, w, key, runId, finishRun, reason, size, sha, fault).end.Threw?
             && After(fault, |before| + 1)
    ensures Rejected(before, w, key, runId, finishRun, reason, size, sha, fault).w.cat.quarantine
            == w.cat.quarantine
               + if After(fault, |before| + 2) then [QuarantineRow(runId, key, reason, size, sha)] else []
  {
    var all := before + RejectActions(key, runId, finishRun, reason, size, sha);
    var first := before + [MoveToQuarantine(runId, QuarantineDir(runId, key, reason))];
    assert Strikes(fault, all);
    var rest := RejectParts(before, key, runId, finishRun, reason, size, sha, fault.at);
    RejectPrefix(before, key, runId, finishRun, reason, size, sha, fault.at);
    QuarantineRowsLeft(first, w);
    NoteAfter(first, QuarantineRow(runId, key, reason, size, sha), rest, w);
  }

  /** What the body adds to the quarantine if it raises without a directory. */
  ghost predicate Notes(before: Cat, after: Cat, key: JobKey, noted: bool) {
    if noted then exists row: QuarantineRow :: row.key == key && after.quarantine == before.quarantine + [row]
    else after.quarantine == before.quarantine
  }

  lemma {:induction false} AcceptNotesIff(w: World, plan: FetchPlan, runId: RunId, finishRun: bool,
                                          result: Client.QueryResult, prepared: Schema.Preparation, sc: Script)
    requires |prepared.items| == |result.items| && prepared.decision.Compatible()
    requires RejectedLate(plan, runId, result, prepared, sc)
    requires var raw := RawContent(runId, plan.key, result.events, sc.rawBytes);
             && Find(DirOf(w.disk, runId), RawTmp(plan.key)) == Some(raw)
             && Accept(w, plan, runId, finishRun, result, prepared, raw, sc).end.Threw?
    ensures var raw := RawContent(runId, plan.key, result.events, sc.rawBytes);
            Notes(w.cat, Accept(w, plan, runId, finishRun, result, prepared, raw, sc).w.cat, plan.key,
                  After(sc.publish, 2))
  {
    var raw := RawContent(runId, plan.key, result.events, sc.rawBytes);
    var lake := LakeContent(runId, plan.key, prepared.decision.schema, result.fields, prepared.items, sc.lakeBytes);
    var stage := StageActions(plan, runId, result, prepared.decision, raw, lake, sc);
    var size := AcceptExactly(w, plan, runId, finishRun, result, prepared, raw, sc);
    StageLength(plan, runId, result, prepared.decision, raw, lake, sc);
    StagedValidIff(w, plan, runId, result, prepared, sc);
    QuarantineRowsLeft(stage, w);
    RejectedNotes([], ApplyAll(stage, w), plan.key, runId, finishRun, ValidationFailed, size, None, sc.publish);
    var row := QuarantineRow(runId, plan.key, ValidationFailed, size, None);
    assert row.key == plan.key;
  }

  lemma {:induction false} StoreNotesIff(text: Schema.Text, w: World, plan: FetchPlan, runId: RunId, finishRun: bool,
                                         result: Client.QueryResult, sc: Script)
    requires !(sc.write.Fault? && sc.write.at == 0)
    requires var prepared := PreparedFor(text, w.cat, plan.key.apiName, result);
             RejectedLate(plan, runId, result, prepared, sc)
    requires Store.Store(text, w, plan, runId, finishRun, result, sc).end.Threw?
    ensures var prepared := PreparedFor(text, w.cat, plan.key.apiName, result);
            Notes(w.cat, Store.Store(text, w, plan, runId, finishRun, result, sc).w.cat, plan.key,
                  !RejectedUnnoted(plan, runId, result, prepared, sc))
  {
    var key := plan.key;
    var raw := RawContent(runId, key, result.events, sc.rawBytes);
    var write := [Write(runId, RawTmp(key), raw)];
    var written := ApplyAll(write, w);
    ApplyOne(write[0], w);
    var prepared := PreparedFor(text, written.cat, key.apiName, result);
    if prepared.decision.Compatible() {
      AcceptNotesIff(written, plan, runId, finishRun, result, prepared, sc);
    } else {
      RejectedNotes(ChangeActions(prepared.decision), written, key, runId, finishRun, SchemaIncompatible,
                    Some(raw.bytes), Some(Sha256(raw)), sc.stage);
      var row := QuarantineRow(runId, key, SchemaIncompatible, Some(raw.bytes), Some(Sha256(raw)));
      assert row.key == key;
    }
  }

  lemma {:induction false} NotesTell(c: Cat, d: Cat, key: JobKey, noted: bool)
    requires Notes(c, d, key, noted)
    ensures QuarantinedJob(d, key) <==> noted || QuarantinedJob(c, key)
  {
    if noted {
      var row: QuarantineRow :| row.key == key && d.quarantine == c.quarantine + [row];
      OneMoreQuarantined(c, d, key, row);
    }
  }

  lemma {:induction false} BodyNotes(text: Schema.Text, w: World, req: Request, slot: Slot, sc: Script)
    requires var plan := PlanFetch(req.key, sc.today, slot);
             RaisesWithoutDir(text, w.cat, plan, RunOf(w.cat, req), sc)
    requires BodyOf(text, w, req, slot, sc).end.Threw?
    ensures Notes(w.cat, BodyOf(text, w, req, slot, sc).w.cat, req.key,
                  !RaisesUnnoted(text, w.cat, PlanFetch(req.key, sc.today, slot), RunOf(w.cat, req), sc))
  {
    var begun, plan := ApplyAll(BeginActions(w.cat, req), w), PlanFetch(req.key, sc.today, slot);
    var reply := QueryWithRetry(sc.replies, sc.maxAttempts, 1);
    BeginKeepsRest(w, req);
    QuarantineRowsLeft(BeginActions(w.cat, req), w);
    if FailsUnwritten(sc) {
      UnwrittenBody(text, begun, plan, RunOf(w.cat, req), req.finishRun, sc);
    } else {
      StoreNotesIff(text, begun, plan, RunOf(w.cat, req), req.finishRun, reply.result, sc);
    }
  }

  /** From the script alone: after a raise the job is classified as quarantined, unless it was not
      before, and its body raised before making a directory or between the move and the note. */
  lemma {:induction false} RaisedStandingIff(text: Schema.Text, w: World, req: Request, slot: Slot, sc: Script)
    requires Gone(w, RunOf(w.cat, req)) && !ExistingActiveData(w.cat, req.key)
    requires sc.begin.NoFault? && sc.handler.NoFault? && Fetch(text, w, req, slot, sc).end.Threw?
    ensures StandingOf(Fetch(text, w, req, slot, sc).w.cat, req.key).QuarantinedExists?
            <==> QuarantinedJob(w.cat, req.key)
                 || !RaisesUnnoted(text, w.cat, PlanFetch(req.key, sc.today, slot), RunOf(w.cat, req), sc)
  {
    var plan, runId := PlanFetch(req.key, sc.today, slot), RunOf(w.cat, req);
    FetchThrew(text, w, req, slot, sc);
    RaisedIsQuarantinedIff(text, w, req, slot, sc);
    BodyGoneIff(text, w, req, slot, sc);
    if RaisesWithoutDir(text, w.cat, plan, runId, sc) {
      BodyNotes(text, w, req, slot, sc);
      NotesTell(w.cat, BodyOf(text, w, req, slot, sc).w.cat, req.key, !RaisesUnnoted(text, w.cat, plan, runId, sc));
    }
  }

  // ---- the error that a fetch raises ----

  /** The error that the last stretch raises when its action n fails: the two moves write, action 4
      commits. */
  function PublishError(n: nat): ErrorType {
    if n < 2 then WriteFailed else if n == 4 then CatalogCommitFailed else UnknownError
  }

  /** The error with which the body of the try statement raises, if it does. */
  function RaisedAs(text: Schema.Text, c: Cat, plan: FetchPlan, runId: RunId, sc: Script): ErrorType {
    match QueryWithRetry(sc.replies, sc.maxAttempts, 1)
    case Refusal(error) => error
    case Answer(result) =>
      var prepared := PreparedFor(text, c, plan.key.apiName, result);
      var changes := if prepared.decision.changeType.Same? then 0 else 1;
      if sc.write.Fault? && sc.write.at == 0 then WriteFailed
      else if prepared.decision.changeType.IncompatibleTypeChange? then UnknownError
      else if sc.stage.Fault? && sc.stage.at < changes + 6 then
        if sc.stage.at == changes + 1 then WriteFailed else UnknownError
      else if sc.publish.Fault? && Sound(plan, runId, result, prepared, sc) then PublishError(sc.publish.at)
      else UnknownError
  }

  lemma {:induction false} PublishRaises(w: World, plan: FetchPlan, runId: RunId, finishRun: bool, rawId: FileId,
                                         result: Client.QueryResult, fault: Fault)
    ensures var e := Published(w, plan, runId, finishRun, rawId, result, fault);
            e.end.Threw? ==> fault.Fault? && e.end.error == PublishError(fault.at)
  {
    var all := PublishActions(plan, runId, finishRun, rawId, rawId + 1, result);
    if Strikes(fault, all) {
      PublishAt(plan, runId, finishRun, rawId, result, fault.at);
    }
  }

  lemma {:induction false} PublishAt(plan: FetchPlan, runId: RunId, finishRun: bool, rawId: FileId,
                                     result: Client.QueryResult, n: nat)
    requires n < |PublishActions(plan, runId, finishRun, rawId, rawId + 1, result)|
    ensures ErrorOf(PublishActions(plan, runId, finishRun, rawId, rawId + 1, result)[n]) == PublishError(n)
  {
    var moves, commit := MoveActions(plan, runId, rawId, rawId + 1),
        CommitActions(plan, runId, rawId, rawId + 1, result);
    assert PublishActions(plan, runId, finishRun, rawId, rawId + 1, result)[n]
        == if n < 4 then moves[n] else if n < 6 then commit[n - 4]
           else (EndActions(finishRun, runId, RunSucceeded) + [CleanUp(runId)])[n - 6];
  }

  lemma {:induction false} RejectRaises(before: seq<Action>, w: World, key: JobKey, runId: RunId, finishRun: bool,
                                        reason: ErrorType, size: Option<nat>, sha: Option<Digest>, fault: Fault)
    requires forall i | 0 <= i < |before| :: ErrorOf(before[i]) == UnknownError
    ensures var e := Rejected(before, w, key, runId, finishRun, reason, size, sha, fault);
            e.end.Threw? ==> e.end.error == UnknownError
  {
    var rejects := RejectActions(key, runId, finishRun, reason, size, sha);
    assert forall i | 0 <= i < |rejects| :: ErrorOf(rejects[i]) == UnknownError;
  }

  lemma {:induction false} StageRaises(w: World, plan: FetchPlan, runId: RunId, result: Client.QueryResult,
                                       decision: Schema.Decision, raw: Content, lake: Content, sc: Script)
    ensures var stage := StageActions(plan, runId, result, decision, raw, lake, sc);
            var changes := if decision.changeType.Same? then 0 else 1;
            var e := Conclude(Perform(stage, sc.stage, w), NoData(runId, plan.key));
            && |stage| == changes + 6
            && (e.end.Threw? ==> Strikes(sc.stage, stage)
                                 && e.end.error == if sc.stage.at == changes + 1 then WriteFailed else UnknownError)
  {}

  lemma {:induction false} AcceptRaises(w: World, plan: FetchPlan, runId: RunId, finishRun: bool,
                                        result: Client.QueryResult, prepared: Schema.Preparation, sc: Script)
    requires |prepared.items| == |result.items|
    requires var raw := RawContent(runId, plan.key, result.events, sc.rawBytes);
             Find(DirOf(w.disk, runId), RawTmp(plan.key)) == Some(raw)
    ensures var raw := RawContent(runId, plan.key, result.events, sc.rawBytes);
            var changes := if prepared.decision.changeType.Same? then 0 else 1;
            var e := Accept(w, plan, runId, finishRun, result, prepared, raw, sc);
            e.end.Threw? ==>
              e.end.error
              == if sc.stage.Fault? && sc.stage.at < changes + 6 then
                   if sc.stage.at == changes + 1 then WriteFailed else UnknownError
                 else if sc.publish.Fault? && Sound(plan, runId, result, prepared, sc) then PublishError(sc.publish.at)
                 else UnknownError
  {
    var raw := RawContent(runId, plan.key, result.events, sc.rawBytes);
    var lake := LakeContent(runId, plan.key, prepared.decision.schema, result.fields, prepared.items, sc.lakeBytes);
    var staged := ApplyAll(StageActions(plan, runId, result, prepared.decision, raw, lake, sc), w);
    var size := AcceptExactly(w, plan, runId, finishRun, result, prepared, raw, sc);
    StageRaises(w, plan, runId, result, prepared.decision, raw, lake, sc);
    StagedValidIff(w, plan, runId, result, prepared, sc);
    RejectRaises([], staged, plan.key, runId, finishRun, ValidationFailed, size, None, sc.publish);
    PublishRaises(staged, plan, runId, finishRun, |w.cat.files|, result, sc.publish);
  }

  lemma {:induction false} StoreRaises(text: Schema.Text, w: World, plan: FetchPlan, runId: RunId, finishRun: bool,
                                       result: Client.QueryResult, sc: Script)
    requires QueryWithRetry(sc.replies, sc.maxAttempts, 1) == Answer(result)
    ensures var e := Store.Store(text, w, plan, runId, finishRun, result, sc);
            e.end.Threw? ==> e.end.error == RaisedAs(text, w.cat, plan, runId, sc)
  {
    var raw := RawContent(runId, plan.key, result.events, sc.rawBytes);
    var write := [Write(runId, RawTmp(plan.key), raw)];
    if !Strikes(sc.write, write) {
      var written := Written(w, plan, runId, result, sc);
      var prepared := PreparedFor(text, w.cat, plan.key.apiName, result);
      ApplyOne(write[0], w);
      if prepared.decision.Compatible() {
        AcceptRaises(written, plan, runId, finishRun, result, prepared, sc);
      } else {
        RejectRaises(ChangeActions(prepared.decision), written, plan.key, runId, finishRun, SchemaIncompatible,
                     Some(raw.bytes), Some(Sha256(raw)), sc.stage);
      }
    }
  }

  /** A fault strikes before the try statement or in its except clause. */
  ghost predicate StrikesOutside(text: Schema.Text, w: World, req: Request, slot: Slot, sc: Script) {
    var body := BodyOf(text, w, req, slot, sc);
    || Strikes(sc.begin, BeginActions(w.cat, req))
    || (body.end.Threw?
        && Strikes(sc.handler, HandlerActions(body.w, req.key, RunOf(w.cat, req), req.finishRun, body.end.error)))
  }

  /** The error with which a fetch raises. Inside the try statement it is that of the server, or by
      where the fault strikes a failed write, a failed commit or an error that is not known; and
      outside it and in its except clause always the last. */
  lemma {:induction false} RaisedErrorIs(text: Schema.Text, w: World, req: Request, slot: Slot, sc: Script)
    requires !ExistingActiveData(w.cat, req.key) && Fetch(text, w, req, slot, sc).end.Threw?
    ensures Fetch(text, w, req, slot, sc).end.error
            == if StrikesOutside(text, w, req, slot, sc) then UnknownError
               else RaisedAs(text, w.cat, PlanFetch(req.key, sc.today, slot), RunOf(w.cat, req), sc)
  {
    var begin := BeginActions(w.cat, req);
    if Strikes(sc.begin, begin) {
      assert ErrorOf(begin[sc.begin.at]) == UnknownError;
    } else {
      var plan, runId := PlanFetch(req.key, sc.today, slot), RunOf(w.cat, req);
      var begun := ApplyAll(begin, w);
      BeginKeepsRest(w, req);
      BodyRaises(text, begun, plan, runId, req.finishRun, sc);
      SameRaise(text, w.cat, begun.cat, plan, runId, sc);
      HandledEnd(BodyOf(text, w, req, slot, sc), req.key, runId, req.finishRun, sc.handler);
    }
  }

  /** Of the catalog, only the schemas matter. */
  lemma {:induction false} SameRaise(text: Schema.Text, c: Cat, d: Cat, plan: FetchPlan, runId: RunId, sc: Script)
    requires d.schemas == c.schemas
    ensures RaisedAs(text, d, plan, runId, sc) == RaisedAs(text, c, plan, runId, sc)
  {}

  lemma {:induction false} BodyRaises(text: Schema.Text, w: World, plan: FetchPlan, runId: RunId, finishRun: bool,
                                      sc: Script)
    ensures var e := Body(text, w, plan, runId, finishRun, sc);
            e.end.Threw? ==> e.end.error == RaisedAs(text, w.cat, plan, runId, sc)
  {
    var reply := QueryWithRetry(sc.replies, sc.maxAttempts, 1);
    if reply.Answer? {
      StoreRaises(text, w, plan, runId, finishRun, reply.result, sc);
    }
  }

  /** The except clause passes the error on if it works, and raises one of its own if it does not. */
  lemma {:induction false} HandledEnd(body: Ending, key: JobKey, runId: RunId, finishRun: bool, fault: Fault)
    ensures var end := Handle(body, key, runId, finishRun, fault).end;
            && (end.Threw? ==> body.end.Threw?)
            && (end.Threw? ==>
                  end.error == if Strikes(fault, HandlerActions(body.w, key, runId, finishRun, body.end.error))
                               then UnknownError else body.end.error)
  {
    if body.end.Threw? {
      var actions := HandlerActions(body.w, key, runId, finishRun, body.end.error);
      assert forall i | 0 <= i < |actions| :: ErrorOf(actions[i]) == UnknownError && !actions[i].CleanUp?;
    }
  }
}
