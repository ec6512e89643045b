/** The temp directory that the jobs of a run share, and what ends up in quarantine. */
module TempDirs {
  import opened Wrappers
  import opened Errors
  import opened Catalog
  import opened Store
  import opened Runs
  import opened Outcomes
  import Schema
  import Client

  // ---- a quarantined directory holds files of its own job only ----

  function NamesOf(key: JobKey): set<TmpName> {
    {RawTmp(key), LakeTmp(key)}
  }

  ghost predicate QuarantineOwned(d: Disk) {
    forall q | q in d.quarantined :: d.quarantined[q].Keys <= NamesOf(q.key)
  }

  /** Since v: the temp directory of the run holds files of this job only, and no other run has got
      one. No run is ever forgotten. */
  ghost predicate OwnDirs(v: World, w: World, runId: RunId, key: JobKey) {
    && DirOf(w.disk, runId).Keys <= NamesOf(key) && QuarantineOwned(w.disk)
    && w.disk.tmp.Keys <= v.disk.tmp.Keys + {runId} && |v.cat.runs| <= |w.cat.runs|
  }

  ghost predicate StaysOwn(a: Action, runId: RunId, key: JobKey) {
    match a
    case Write(r, name, _) => r == runId && name in NamesOf(key)
    case MoveToQuarantine(r, dir) => r == runId && dir.key == key
    case _ => true
  }

  ghost predicate AllOwn(actions: seq<Action>, runId: RunId, key: JobKey) {
    forall i | 0 <= i < |actions| :: StaysOwn(actions[i], runId, key)
  }

  lemma {:induction false} ApplyKeepsQuarantineOwned(a: Action, d: Disk, runId: RunId, key: JobKey)
    requires StaysOwn(a, runId, key) && DirOf(d, runId).Keys <= NamesOf(key) && QuarantineOwned(d)
    ensures QuarantineOwned(ApplyDisk(a, d))
  {
    var e := ApplyDisk(a, d);
    forall q | q in e.quarantined
      ensures e.quarantined[q].Keys <= NamesOf(q.key)
    {
      if a.MoveToQuarantine? && q == a.dir {
        assert e.quarantined[q] == DirOf(d, runId);
      }
    }
  }

  lemma {:induction false} ApplyKeepsDirs(a: Action, d: Disk, runId: RunId, key: JobKey)
    requires StaysOwn(a, runId, key) && DirOf(d, runId).Keys <= NamesOf(key)
    ensures DirOf(ApplyDisk(a, d), runId).Keys <= NamesOf(key)
    ensures ApplyDisk(a, d).tmp.Keys <= d.tmp.Keys + {runId}
  {}

  lemma {:induction false} ApplyKeepsRuns(a: Action, c: Cat)
    ensures |c.runs| <= |ApplyCat(a, c).runs|
  {}

  lemma {:induction false} ApplyOwn(a: Action, v: World, w: World, runId: RunId, key: JobKey)
    requires StaysOwn(a, runId, key) && OwnDirs(v, w, runId, key)
    ensures OwnDirs(v, Apply(a, w), runId, key)
  {
    ApplyKeepsQuarantineOwned(a, w.disk, runId, key);
    ApplyKeepsDirs(a, w.disk, runId, key);
    ApplyKeepsRuns(a, w.cat);
  }

  lemma {:induction false} ApplyAllOwn(actions: seq<Action>, v: World, w: World, runId: RunId, key: JobKey)
    requires AllOwn(actions, runId, key) && OwnDirs(v, w, runId, key)
    ensures OwnDirs(v, ApplyAll(actions, w), runId, key)
  {
    if actions != [] {
      var n := |actions| - 1;
      ApplyAllOwn(actions[..n], v, w, runId, key);
      ApplyOwn(actions[n], v, ApplyAll(actions[..n], w), runId, key);
    }
  }

  lemma {:induction false} InterruptedOwn(a: Action, v: World, w: World, residue: Residue, runId: RunId, key: JobKey)
    requires StaysOwn(a, runId, key) && OwnDirs(v, w, runId, key)
    ensures OwnDirs(v, Interrupted(a, w, residue), runId, key)
  {}

  lemma {:induction false} PerformOwn(actions: seq<Action>, fault: Fault, v: World, w: World, runId: RunId, key: JobKey)
    requires AllOwn(actions, runId, key) && OwnDirs(v, w, runId, key)
    ensures OwnDirs(v, Perform(actions, fault, w).w, runId, key)
  {
    if Strikes(fault, actions) {
      ApplyAllOwn(actions[..fault.at], v, w, runId, key);
      InterruptedOwn(actions[fault.at], v, ApplyAll(actions[..fault.at], w), fault.residue, runId, key);
    } else {
      ApplyAllOwn(actions, v, w, runId, key);
    }
  }

  lemma {:induction false} StageOwn(plan: FetchPlan, runId: RunId, result: Client.QueryResult,
                                    decision: Schema.Decision, raw: Content, lake: Content, sc: Script)
    ensures AllOwn(StageActions(plan, runId, result, decision, raw, lake, sc), runId, plan.key)
  {}

  lemma {:induction false} PublishOwn(plan: FetchPlan, runId: RunId, finishRun: bool, rawId: FileId, lakeId: FileId,
                                      result: Client.QueryResult)
    ensures AllOwn(PublishActions(plan, runId, finishRun, rawId, lakeId, result), runId, plan.key)
  {}

  lemma {:induction false} RejectOwn(key: JobKey, runId: RunId, finishRun: bool, reason: ErrorType, size: Option<nat>,
                                     sha: Option<Digest>)
    ensures AllOwn(RejectActions(key, runId, finishRun, reason, size, sha), runId, key)
  {}

  lemma {:induction false} RejectedOwn(before: seq<Action>, v: World, w: World, key: JobKey, runId: RunId,
                                       finishRun: bool, reason: ErrorType, size: Option<nat>, sha: Option<Digest>,
                                       fault: Fault)
    requires OwnDirs(v, w, runId, key) && AllOwn(before, runId, key)
    ensures OwnDirs(v, Rejected(before, w, key, runId, finishRun, reason, size, sha, fault).w, runId, key)
  {
    RejectOwn(key, runId, finishRun, reason, size, sha);
    PerformOwn(before + RejectActions(key, runId, finishRun, reason, size, sha), fault, v, w, runId, key);
  }

  lemma {:induction false} PublishedOwn(v: World, w: World, plan: FetchPlan, runId: RunId, finishRun: bool,
                                        rawId: FileId, result: Client.QueryResult, fault: Fault)
    requires OwnDirs(v, w, runId, plan.key)
    ensures OwnDirs(v, Published(w, plan, runId, finishRun, rawId, result, fault).w, runId, plan.key)
  {
    PublishOwn(plan, runId, finishRun, rawId, rawId + 1, result);
    PerformOwn(PublishActions(plan, runId, finishRun, rawId, rawId + 1, result), fault, v, w, runId, plan.key);
  }

  lemma {:induction false} AcceptOwn(v: World, w: World, plan: FetchPlan, runId: RunId, finishRun: bool,
                                     result: Client.QueryResult, prepared: Schema.Preparation, raw: Content, sc: Script)
    requires OwnDirs(v, w, runId, plan.key)
    ensures OwnDirs(v, Accept(w, plan, runId, finishRun, result, prepared, raw, sc).w, runId, plan.key)
  {
    var lake := LakeContent(runId, plan.key, prepared.decision.schema, result.fields, prepared.items, sc.lakeBytes);
    var stage := StageActions(plan, runId, result, prepared.decision, raw, lake, sc);
    var size := AcceptBranches(w, plan, runId, finishRun, result, prepared, raw, sc);
    StageOwn(plan, runId, result, prepared.decision, raw, lake, sc);
    PerformOwn(stage, sc.stage, v, w, runId, plan.key);
    if !Strikes(sc.stage, stage) {
      RejectedOwn([], v, ApplyAll(stage, w), plan.key, runId, finishRun, ValidationFailed, size, None, sc.publish);
      PublishedOwn(v, ApplyAll(stage, w), plan, runId, finishRun, |w.cat.files|, result, sc.publish);
    }
  }

  lemma {:induction false} StoreOwn(text: Schema.Text, v: World, w: World, plan: FetchPlan, runId: RunId,
                                    finishRun: bool, result: Client.QueryResult, sc: Script)
    requires OwnDirs(v, w, runId, plan.key)
    ensures OwnDirs(v, Store.Store(text, w, plan, runId, finishRun, result, sc).w, runId, plan.key)
  {
    var key := plan.key;
    var raw := RawContent(runId, key, result.events, sc.rawBytes);
    var write := [Write(runId, RawTmp(key), raw)];
    PerformOwn(write, sc.write, v, w, runId, key);
    if !Strikes(sc.write, write) {
      var written := ApplyAll(write, w);
      var prepared := PreparedFor(text, written.cat, key.apiName, result);
      if prepared.decision.Compatible() {
        AcceptOwn(v, written, plan, runId, finishRun, result, prepared, raw, sc);
      } else {
        RejectedOwn(ChangeActions(prepared.decision), v, written, key, runId, finishRun, SchemaIncompatible,
                    Some(raw.bytes), Some(Sha256(raw)), sc.stage);
      }
    }
  }

  /** A run that the caller names is in the catalog. */
  predicate RunKnown(c: Cat, req: Request) {
    req.runId.Some? ==> req.runId.value < |c.runs|
  }

  /** The stretch before the body: the run is known afterwards. */
  lemma {:induction false} BeginOwn(w: World, req: Request)
    requires DirOf(w.disk, RunOf(w.cat, req)).Keys <= NamesOf(req.key) && QuarantineOwned(w.disk)
    ensures var begun := ApplyAll(BeginActions(w.cat, req), w);
            OwnDirs(w, begun, RunOf(w.cat, req), req.key)
                && (RunKnown(w.cat, req) ==> RunOf(w.cat, req) < |begun.cat.runs|)
  {
    var begin := BeginActions(w.cat, req);
    ApplyAllOwn(begin, w, w, RunOf(w.cat, req), req.key);
    if req.runId.None? {
      assert begin == [BeginRun(req.runType)] + [BeginJob(req.key, |w.cat.runs|)];
      ApplyCons(BeginRun(req.runType), [BeginJob(req.key, |w.cat.runs|)], w);
      ApplyOne(BeginJob(req.key, |w.cat.runs|), Apply(BeginRun(req.runType), w));
    }
  }

  lemma {:induction false} BeginCutOwn(w: World, req: Request, fault: Fault)
    requires Strikes(fault, BeginActions(w.cat, req))
    ensures Perform(BeginActions(w.cat, req), fault, w).w.disk == w.disk
    ensures |w.cat.runs| <= |Perform(BeginActions(w.cat, req), fault, w).w.cat.runs|
  {
    var begin := BeginActions(w.cat, req);
    if fault.at == 1 {
      assert begin[..1] == [BeginRun(req.runType)];
      ApplyOne(BeginRun(req.runType), w);
    }
  }

  lemma {:induction false} HandleOwn(v: World, e: Ending, key: JobKey, runId: RunId, finishRun: bool, fault: Fault)
    requires OwnDirs(v, e.w, runId, key)
    ensures OwnDirs(v, Handle(e, key, runId, finishRun, fault).w, runId, key)
  {
    if e.end.Threw? {
      PerformOwn(HandlerActions(e.w, key, runId, finishRun, e.end.error), fault, v, e.w, runId, key);
    }
  }

  /** The temp directories are those of runs that the catalog knows. */
  ghost predicate TmpRunsExist(w: World) {
    forall r | r in w.disk.tmp :: r < |w.cat.runs|
  }

  /** However a fetch ends, what it has put in its temp directory and in quarantine are files of
      its own job, it has made no temp directory for another run, and its run is known if it has
      made one. */
  lemma {:induction false} FetchKeepsOwn(text: Schema.Text, w: World, req: Request, slot: Slot, sc: Script)
    requires DirOf(w.disk, RunOf(w.cat, req)).Keys <= NamesOf(req.key) && QuarantineOwned(w.disk)
    ensures OwnDirs(w, Fetch(text, w, req, slot, sc).w, RunOf(w.cat, req), req.key)
    ensures RunKnown(w.cat, req) && TmpRunsExist(w) ==> TmpRunsExist(Fetch(text, w, req, slot, sc).w)
  {
    var key, runId := req.key, RunOf(w.cat, req);
    var plan := PlanFetch(key, sc.today, slot);
    var begin := BeginActions(w.cat, req);
    if Strikes(sc.begin, begin) {
      BeginCutOwn(w, req, sc.begin);
    } else {
      var begun, reply := ApplyAll(begin, w), QueryWithRetry(sc.replies, sc.maxAttempts, 1);
      BeginOwn(w, req);
      if reply.Answer? {
        StoreOwn(text, begun, begun, plan, runId, req.finishRun, reply.result, sc);
      }
      HandleOwn(begun, Body(text, begun, plan, runId, req.finishRun, sc), key, runId, req.finishRun, sc.handler);
    }
  }

  // ---- the temp directory is gone ----

  ghost predicate Gone(w: World, runId: RunId) {
    runId !in w.disk.tmp
  }

  lemma {:induction false} StaysGone(actions: seq<Action>, w: World, runId: RunId)
    requires Gone(w, runId) && forall i | 0 <= i < |actions| :: !actions[i].Write?
    ensures Gone(ApplyAll(actions, w), runId)
  {
    if actions != [] {
      StaysGone(actions[..|actions| - 1], w, runId);
    }
  }

  lemma {:induction false} RemovedIsGone(before: seq<Action>, a: Action, after: seq<Action>, w: World, runId: RunId)
    requires a == CleanUp(runId) || (a.MoveToQuarantine? && a.runId == runId)
    requires forall i | 0 <= i < |after| :: !after[i].Write?
    ensures Gone(ApplyAll(before + ([a] + after), w), runId)
  {
    ApplyAppend(before, [a] + after, w);
    ApplyCons(a, after, ApplyAll(before, w));
    StaysGone(after, Apply(a, ApplyAll(before, w)), runId);
  }

  lemma {:induction false} RejectedIsGone(before: seq<Action>, w: World, key: JobKey, runId: RunId, finishRun: bool,
                                          reason: ErrorType, size: Option<nat>, sha: Option<Digest>)
    ensures Gone(ApplyAll(before + RejectActions(key, runId, finishRun, reason, size, sha), w), runId)
  {
    var a := MoveToQuarantine(runId, QuarantineDir(runId, key, reason));
    var after := [NoteQuarantine(QuarantineRow(runId, key, reason, size, sha)), FailJob(key, reason)]
                 + EndActions(finishRun, runId, RunFailed(Some(reason)));
    assert RejectActions(key, runId, finishRun, reason, size, sha) == [a] + after;
    RemovedIsGone(before, a, after, w, runId);
  }

  lemma {:induction false} HandledIsGone(w: World, key: JobKey, runId: RunId, finishRun: bool, error: ErrorType)
    ensures Gone(ApplyAll(HandlerActions(w, key, runId, finishRun, error), w), runId)
  {
    var before := [FailJob(key, error)] + EndActions(finishRun, runId, RunFailed(Some(error)));
    var a := MoveToQuarantine(runId, QuarantineDir(runId, key, error));
    var after := if runId in w.disk.tmp then [NoteQuarantine(QuarantineRow(runId, key, error, None, None))] else [];
    assert HandlerActions(w, key, runId, finishRun, error) == before + ([a] + after);
    RemovedIsGone(before, a, after, w, runId);
  }

  lemma {:induction false} PublishedIsGone(w: World, plan: FetchPlan, runId: RunId, finishRun: bool, rawId: FileId,
                                           lakeId: FileId, result: Client.QueryResult)
    ensures Gone(ApplyAll(PublishActions(plan, runId, finishRun, rawId, lakeId, result), w), runId)
  {
    var before := MoveActions(plan, runId, rawId, lakeId) + CommitActions(plan, runId, rawId, lakeId, result)
                  + EndActions(finishRun, runId, RunSucceeded);
    assert PublishActions(plan, runId, finishRun, rawId, lakeId, result) == before + ([CleanUp(runId)] + []);
    RemovedIsGone(before, CleanUp(runId), [], w, runId);
  }

  lemma {:induction false} RejectedClears(before: seq<Action>, w: World, key: JobKey, runId: RunId, finishRun: bool,
                                          reason: ErrorType, size: Option<nat>, sha: Option<Digest>, fault: Fault)
    requires forall i | 0 <= i < |before| :: !before[i].CleanUp?
    ensures var e := Rejected(before, w, key, runId, finishRun, reason, size, sha, fault);
            e.end.Finished? ==> e.end.result.snapshot.None? && Gone(e.w, runId)
  {
    var all := before + RejectActions(key, runId, finishRun, reason, size, sha);
    if Strikes(fault, all) {
      assert !all[fault.at].CleanUp?;
    } else {
      RejectedIsGone(before, w, key, runId, finishRun, reason, size, sha);
    }
  }

  predicate Removes(a: Action) {
    a.CleanUp? || a.MoveToQuarantine?
  }

  lemma {:induction false} DirStays(actions: seq<Action>, w: World, runId: RunId)
    requires !Gone(w, runId) && forall i | 0 <= i < |actions| :: !Removes(actions[i])
    ensures !Gone(ApplyAll(actions, w), runId)
  {
    if actions != [] {
      DirStays(actions[..|actions| - 1], w, runId);
    }
  }

  /** The removal of the temp directory after a commit fails; the source ignores that. */
  predicate CleanUpFails(fault: Fault, finishRun: bool) {
    fault.Fault? && !fault.crash && fault.at == if finishRun then 7 else 6
  }

  /** Of the last stretch only the last action removes the temp directory. */
  lemma {:induction false} PublishRemovesLast(plan: FetchPlan, runId: RunId, finishRun: bool, rawId: FileId,
                                              lakeId: FileId, result: Client.QueryResult)
    ensures var all, n := PublishActions(plan, runId, finishRun, rawId, lakeId, result), if finishRun then 7 else 6;
            |all| == n + 1 && all[n].CleanUp? && forall i | 0 <= i < n :: !Removes(all[i])
  {}

  /** After a commit that returns, the temp directory is gone unless its removal failed. */
  lemma {:induction false} PublishedClears(w: World, plan: FetchPlan, runId: RunId, finishRun: bool, rawId: FileId,
                                           result: Client.QueryResult, fault: Fault)
    requires !Gone(w, runId)
    ensures var e := Published(w, plan, runId, finishRun, rawId, result, fault);
            e.end.Finished? ==> e.end.result.snapshot.Some? && (Gone(e.w, runId) <==> !CleanUpFails(fault, finishRun))
    ensures CleanUpFails(fault, finishRun) ==> Published(w, plan, runId, finishRun, rawId, result, fault).end.Finished?
  {
    var all := PublishActions(plan, runId, finishRun, rawId, rawId + 1, result);
    PublishRemovesLast(plan, runId, finishRun, rawId, rawId + 1, result);
    if !Strikes(fault, all) {
      PublishedIsGone(w, plan, runId, finishRun, rawId, rawId + 1, result);
    } else if CleanUpFails(fault, finishRun) {
      DirStays(all[..fault.at], w, runId);
    }
  }

  /** Whether a fetch that returns has removed the temp directory. */
  ghost predicate ClearedIf(e: Ending, runId: RunId, publish: Fault, finishRun: bool) {
    e.end.Finished? ==> (Gone(e.w, runId) <==> e.end.result.snapshot.None? || !CleanUpFails(publish, finishRun))
  }

  lemma {:induction false} StageKeepsDir(w: World, plan: FetchPlan, runId: RunId, result: Client.QueryResult,
                                         decision: Schema.Decision, raw: Content, lake: Content, sc: Script)
    requires !Gone(w, runId)
    ensures !Gone(ApplyAll(StageActions(plan, runId, result, decision, raw, lake, sc), w), runId)
  {
    DirStays(StageActions(plan, runId, result, decision, raw, lake, sc), w, runId);
  }

  lemma {:induction false} AcceptClears(w: World, plan: FetchPlan, runId: RunId, finishRun: bool,
                                        result: Client.QueryResult, prepared: Schema.Preparation, raw: Content,
                                        sc: Script)
    requires !Gone(w, runId)
    ensures ClearedIf(Accept(w, plan, runId, finishRun, result, prepared, raw, sc), runId, sc.publish, finishRun)
  {
    var lake := LakeContent(runId, plan.key, prepared.decision.schema, result.fields, prepared.items, sc.lakeBytes);
    var staged := ApplyAll(StageActions(plan, runId, result, prepared.decision, raw, lake, sc), w);
    var size := AcceptBranches(w, plan, runId, finishRun, result, prepared, raw, sc);
    StageKeepsDir(w, plan, runId, result, prepared.decision, raw, lake, sc);
    RejectedClears([], staged, plan.key, runId, finishRun, ValidationFailed, size, None, sc.publish);
    PublishedClears(staged, plan, runId, finishRun, |w.cat.files|, result, sc.publish);
  }

  lemma {:induction false} StoreClears(text: Schema.Text, w: World, plan: FetchPlan, runId: RunId, finishRun: bool,
                                       result: Client.QueryResult, sc: Script)
    ensures ClearedIf(Store.Store(text, w, plan, runId, finishRun, result, sc), runId, sc.publish, finishRun)
  {
    var key := plan.key;
    var raw := RawContent(runId, key, result.events, sc.rawBytes);
    var write := [Write(runId, RawTmp(key), raw)];
    if Strikes(sc.write, write) {
      assert write[sc.write.at].Write?;
    } else {
      var written := ApplyAll(write, w);
      ApplyOne(write[0], w);
      var prepared := PreparedFor(text, written.cat, key.apiName, result);
      if prepared.decision.Compatible() {
        AcceptClears(written, plan, runId, finishRun, result, prepared, raw, sc);
      } else {
        RejectedClears(ChangeActions(prepared.decision), written, key, runId, finishRun, SchemaIncompatible,
                       Some(raw.bytes), Some(Sha256(raw)), sc.stage);
      }
    }
  }

  /** A fault in the except clause at or before the move of the temp directory. */
  predicate CutsRemoval(fault: Fault, finishRun: bool) {
    fault.Fault? && fault.at <= if finishRun then 2 else 1
  }

  /** The except clause leaves no temp directory unless there was one and a fault cut the clause off
      before it was moved; then the directory stays as it was. */
  lemma {:induction false} HandleClears(e: Ending, key: JobKey, runId: RunId, finishRun: bool, fault: Fault)
    requires e.end.Threw?
    ensures var after := Handle(e, key, runId, finishRun, fault).w;
            && (Gone(after, runId) <==> Gone(e.w, runId) || !CutsRemoval(fault, finishRun))
            && (CutsRemoval(fault, finishRun) ==> after.disk == e.w.disk)
  {
    var before := [FailJob(key, e.end.error)] + EndActions(finishRun, runId, RunFailed(Some(e.end.error)));
    var move := MoveToQuarantine(runId, QuarantineDir(runId, key, e.end.error));
    var all := HandlerActions(e.w, key, runId, finishRun, e.end.error);
    assert all == before + [move] + all[|before| + 1..];
    if CutsRemoval(fault, finishRun) {
      assert all[..fault.at] == before[..fault.at];
      DiskLeft(before[..fault.at], e.w);
    } else if Strikes(fault, all) {
      var after := all[|before| + 1..fault.at];
      assert all[..fault.at] == before + ([move] + after);
      RemovedIsGone(before, move, after, e.w, runId);
    } else {
      HandledIsGone(e.w, key, runId, finishRun, e.end.error);
    }
  }

  /** How the body of the try statement ends, for a fetch that gets there. */
  ghost function BodyOf(text: Schema.Text, w: World, req: Request, slot: Slot, sc: Script): Ending {
    Body(text, ApplyAll(BeginActions(w.cat, req), w), PlanFetch(req.key, sc.today, slot), RunOf(w.cat, req),
         req.finishRun, sc)
  }

  /** On every path out of a fetch by a return or a raise: the temp directory of the run is gone,
      except after a commit whose removal failed, and after a raise whose except clause was cut
      off before it could move the directory that the body had made. */
  lemma {:induction false} FetchClearsTemp(text: Schema.Text, w: World, req: Request, slot: Slot, sc: Script)
    requires Gone(w, RunOf(w.cat, req)) && !ExistingActiveData(w.cat, req.key)
    ensures var e, body := Fetch(text, w, req, slot, sc), BodyOf(text, w, req, slot, sc);
            && (e.end.Finished? ==>
                  (Gone(e.w, RunOf(w.cat, req))
                   <==> e.end.result.snapshot.None? || !CleanUpFails(sc.publish, req.finishRun)))
            && (e.end.Threw? && !Strikes(sc.begin, BeginActions(w.cat, req)) ==>
                  (Gone(e.w, RunOf(w.cat, req))
                   <==> Gone(body.w, RunOf(w.cat, req)) || !CutsRemoval(sc.handler, req.finishRun)))
            && (Strikes(sc.begin, BeginActions(w.cat, req)) ==> Gone(e.w, RunOf(w.cat, req)))
  {
    var key, runId := req.key, RunOf(w.cat, req);
    var plan := PlanFetch(key, sc.today, slot);
    var begin := BeginActions(w.cat, req);
    if Strikes(sc.begin, begin) {
      StaysGone(begin[..sc.begin.at], w, runId);
    } else {
      var begun, reply := ApplyAll(begin, w), QueryWithRetry(sc.replies, sc.maxAttempts, 1);
      if reply.Answer? {
        StoreClears(text, begun, plan, runId, req.finishRun, reply.result, sc);
      }
      var body := Body(text, begun, plan, runId, req.finishRun, sc);
      if body.end.Threw? {
        HandleClears(body, key, runId, req.finishRun, sc.handler);
      }
    }
  }

  // ---- a job that fails before it writes leaves no quarantine entry ----

  lemma {:induction false} QuarantineRowsLeft(actions: seq<Action>, w: World)
    requires forall i | 0 <= i < |actions| :: !actions[i].NoteQuarantine?
    ensures ApplyAll(actions, w).cat.quarantine == w.cat.quarantine
  {
    if actions != [] {
      QuarantineRowsLeft(actions[..|actions| - 1], w);
    }
  }

  lemma {:induction false} PerformQuarantineRowsLeft(actions: seq<Action>, fault: Fault, w: World)
    requires forall i | 0 <= i < |actions| :: !actions[i].NoteQuarantine?
    ensures Perform(actions, fault, w).w.cat.quarantine == w.cat.quarantine
  {
    if Strikes(fault, actions) {
      QuarantineRowsLeft(actions[..fault.at], w);
    } else {
      QuarantineRowsLeft(actions, w);
    }
  }

  /** The server refuses, or the first write fails before it has made the directory. */
  predicate FailsUnwritten(sc: Script) {
    QueryWithRetry(sc.replies, sc.maxAttempts, 1).Refusal?
    || (sc.write.Fault? && sc.write.at == 0 && sc.write.residue.NoDirectory?)
  }

  lemma {:induction false} UnwrittenBody(text: Schema.Text, w: World, plan: FetchPlan, runId: RunId, finishRun: bool,
                                         sc: Script)
    requires FailsUnwritten(sc)
    ensures var e := Body(text, w, plan, runId, finishRun, sc); e.w == w && !e.end.Finished?
  {}

  /** A job that fails before its first write leaves the quarantine table as it was. */
  lemma {:induction false} UnwrittenLeavesNoQuarantine(text: Schema.Text, w: World, req: Request, slot: Slot,
                                                       sc: Script)
    requires Gone(w, RunOf(w.cat, req)) && FailsUnwritten(sc)
    ensures Fetch(text, w, req, slot, sc).w.cat.quarantine == w.cat.quarantine
  {
    var key, runId := req.key, RunOf(w.cat, req);
    var plan := PlanFetch(key, sc.today, slot);
    var begin := BeginActions(w.cat, req);
    PerformQuarantineRowsLeft(begin, sc.begin, w);
    if !Strikes(sc.begin, begin) {
      var begun := ApplyAll(begin, w);
      StaysGone(begin, w, runId);
      UnwrittenBody(text, begun, plan, runId, req.finishRun, sc);
      var body := Body(text, begun, plan, runId, req.finishRun, sc);
      if body.end.Threw? {
        PerformQuarantineRowsLeft(HandlerActions(body.w, key, runId, req.finishRun, body.end.error), sc.handler,
                                  body.w);
      }
    }
  }
}
