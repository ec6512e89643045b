/** What becomes of another job's file in the temp directory of a run: a fetch keeps it there, or
    removes it with the directory after a commit, or spills it into the quarantine of its own job. */
module Spills {
  import opened Wrappers
  import opened Errors
  import opened Catalog
  import opened Store
  import opened Runs
  import opened Outcomes
  import opened TempDirs
  import Schema
  import Client

  // ---- actions that leave the file where it is ----

  /** The file is in the temp directory of the run, and every quarantined directory is owned. */
  ghost predicate Holding(w: World, runId: RunId, name: TmpName) {
    name in DirOf(w.disk, runId) && QuarantineOwned(w.disk)
  }

  predicate Spares(a: Action, key: JobKey) {
    && !Removes(a)
    && (a.Write? ==> a.name in NamesOf(key)) && (a.Decay? ==> a.name in NamesOf(key))
    && (a.Publish? ==> a.name in NamesOf(key))
  }

  ghost predicate AllSpare(actions: seq<Action>, key: JobKey) {
    forall i | 0 <= i < |actions| :: Spares(actions[i], key)
  }

  lemma {:induction false} ApplySpares(a: Action, w: World, runId: RunId, key: JobKey, name: TmpName)
    requires Spares(a, key) && name !in NamesOf(key) && Holding(w, runId, name)
    ensures Holding(Apply(a, w), runId, name)
  {}

  lemma {:induction false} ApplyAllSpares(actions: seq<Action>, w: World, runId: RunId, key: JobKey, name: TmpName)
    requires AllSpare(actions, key) && name !in NamesOf(key) && Holding(w, runId, name)
    ensures Holding(ApplyAll(actions, w), runId, name)
  {
    if actions != [] {
      var n := |actions| - 1;
      ApplyAllSpares(actions[..n], w, runId, key, name);
      ApplySpares(actions[n], ApplyAll(actions[..n], w), runId, key, name);
    }
  }

  lemma {:induction false} InterruptedSpares(a: Action, w: World, residue: Residue, runId: RunId, key: JobKey,
                                             name: TmpName)
    requires (a.Write? ==> a.name in NamesOf(key)) && name !in NamesOf(key) && Holding(w, runId, name)
    ensures Holding(Interrupted(a, w, residue), runId, name)
  {}

  lemma {:induction false} PerformSpares(actions: seq<Action>, fault: Fault, w: World, runId: RunId, key: JobKey,
                                         name: TmpName)
    requires AllSpare(actions, key) && name !in NamesOf(key) && Holding(w, runId, name)
    ensures Holding(Perform(actions, fault, w).w, runId, name)
  {
    if Strikes(fault, actions) {
      ApplyAllSpares(actions[..fault.at], w, runId, key, name);
      InterruptedSpares(actions[fault.at], ApplyAll(actions[..fault.at], w), fault.residue, runId, key, name);
    } else {
      ApplyAllSpares(actions, w, runId, key, name);
    }
  }

  // ---- the move to quarantine ----

  /** The directory of the run is gone, and the file is in quarantine under this job and reason. */
  ghost predicate Spilled(w: World, runId: RunId, key: JobKey, reason: ErrorType, name: TmpName) {
    && Gone(w, runId)
    && QuarantineDir(runId, key, reason) in w.disk.quarantined
    && name in w.disk.quarantined[QuarantineDir(runId, key, reason)]
  }

  ghost predicate AllLeaveDisk(actions: seq<Action>) {
    forall i | 0 <= i < |actions| :: LeavesDisk(actions[i])
  }

  lemma {:induction false} MoveSpills(before: seq<Action>, after: seq<Action>, w: World, runId: RunId, key: JobKey,
                                      reason: ErrorType, name: TmpName)
    requires AllSpare(before, key) && AllLeaveDisk(after) && name !in NamesOf(key) && Holding(w, runId, name)
    ensures Spilled(ApplyAll(before + ([MoveToQuarantine(runId, QuarantineDir(runId, key, reason))] + after), w),
                    runId, key, reason, name)
  {
    var move := MoveToQuarantine(runId, QuarantineDir(runId, key, reason));
    ApplyAppend(before, [move] + after, w);
    ApplyAllSpares(before, w, runId, key, name);
    ApplyCons(move, after, ApplyAll(before, w));
    DiskLeft(after, Apply(move, ApplyAll(before, w)));
  }

  /** A stretch with a move in it holds the file if it is cut off by then, and spills it otherwise. */
  lemma {:induction false} PerformSpills(before: seq<Action>, after: seq<Action>, fault: Fault, w: World, runId: RunId,
                                         key: JobKey, reason: ErrorType, name: TmpName)
    requires AllSpare(before, key) && AllLeaveDisk(after) && name !in NamesOf(key) && Holding(w, runId, name)
    ensures var all := before + ([MoveToQuarantine(runId, QuarantineDir(runId, key, reason))] + after);
            var y := Perform(all, fault, w).w;
            if Strikes(fault, all) && fault.at <= |before| then Holding(y, runId, name)
            else Spilled(y, runId, key, reason, name)
  {
    var move := MoveToQuarantine(runId, QuarantineDir(runId, key, reason));
    var all := before + ([move] + after);
    if !Strikes(fault, all) {
      MoveSpills(before, after, w, runId, key, reason, name);
    } else if fault.at <= |before| {
      assert all[..fault.at] == before[..fault.at];
      ApplyAllSpares(before[..fault.at], w, runId, key, name);
      InterruptedSpares(all[fault.at], ApplyAll(before[..fault.at], w), fault.residue, runId, key, name);
    } else {
      var m := fault.at - |before| - 1;
      assert all[..fault.at] == before + ([move] + after[..m]) && all[fault.at] == after[m];
      MoveSpills(before, after[..m], w, runId, key, reason, name);
    }
  }

  // ---- how the body ends ----

  predicate ReturnedData(e: Ending) {
    e.end.Finished? && e.end.result.snapshot.Some?
  }

  /** The reasons for which the body itself moves the directory. */
  const REJECTIONS: set<ErrorType> := {SchemaIncompatible, ValidationFailed}

  /** Held, spilled by a rejection, or removed after a commit. */
  ghost predicate BodyLeaves(e: Ending, runId: RunId, key: JobKey, name: TmpName) {
    || Holding(e.w, runId, name)
    || (ReturnedData(e) && QuarantineOwned(e.w.disk))
    || (!ReturnedData(e) && (e.end.Threw? ==> e.end.error == UnknownError)
        && exists reason :: reason in REJECTIONS && Spilled(e.w, runId, key, reason, name))
  }

  lemma {:induction false} StageSpares(plan: FetchPlan, runId: RunId, result: Client.QueryResult,
                                       decision: Schema.Decision, raw: Content, lake: Content, sc: Script)
    ensures AllSpare(StageActions(plan, runId, result, decision, raw, lake, sc), plan.key)
  {}

  lemma {:induction false} PublishSpares(plan: FetchPlan, runId: RunId, finishRun: bool, rawId: FileId, lakeId: FileId,
                                         result: Client.QueryResult)
    ensures var all, n := PublishActions(plan, runId, finishRun, rawId, lakeId, result), if finishRun then 7 else 6;
            |all| == n + 1 && all[n] == CleanUp(runId) && AllSpare(all[..n], plan.key)
  {}

  lemma {:induction false} PublishedLeaves(w: World, plan: FetchPlan, runId: RunId, finishRun: bool, rawId: FileId,
                                           result: Client.QueryResult, fault: Fault, name: TmpName)
    requires name !in NamesOf(plan.key) && Holding(w, runId, name)
    ensures BodyLeaves(Published(w, plan, runId, finishRun, rawId, result, fault), runId, plan.key, name)
  {
    var all := PublishActions(plan, runId, finishRun, rawId, rawId + 1, result);
    var n := |all| - 1;
    PublishSpares(plan, runId, finishRun, rawId, rawId + 1, result);
    if Strikes(fault, all) {
      assert all[..fault.at] == all[..n][..fault.at];
      ApplyAllSpares(all[..fault.at], w, runId, plan.key, name);
      InterruptedSpares(all[fault.at], ApplyAll(all[..fault.at], w), fault.residue, runId, plan.key, name);
    } else {
      ApplyAllSpares(all[..n], w, runId, plan.key, name);
    }
  }

  lemma {:induction false} RejectTail(key: JobKey, runId: RunId, finishRun: bool, reason: ErrorType, size: Option<nat>,
                                      sha: Option<Digest>)
    returns (after: seq<Action>)
    ensures AllLeaveDisk(after)
    ensures forall i | 0 <= i < |after| :: ErrorOf(after[i]) == UnknownError && !after[i].CleanUp?
    ensures RejectActions(key, runId, finishRun, reason, size, sha)
            == [MoveToQuarantine(runId, QuarantineDir(runId, key, reason))] + after
  {
    after := RejectActions(key, runId, finishRun, reason, size, sha)[1..];
  }

  lemma {:induction false} RejectedLeaves(before: seq<Action>, w: World, key: JobKey, runId: RunId, finishRun: bool,
                                          reason: ErrorType, size: Option<nat>, sha: Option<Digest>, fault: Fault,
                                          name: TmpName)
    requires AllSpare(before, key) && reason in REJECTIONS && name !in NamesOf(key) && Holding(w, runId, name)
    ensures BodyLeaves(Rejected(before, w, key, runId, finishRun, reason, size, sha, fault), runId, key, name)
  {
    var after := RejectTail(key, runId, finishRun, reason, size, sha);
    var move := MoveToQuarantine(runId, QuarantineDir(runId, key, reason));
    var all := before + ([move] + after);
    PerformSpills(before, after, fault, w, runId, key, reason, name);
    if Strikes(fault, all) && fault.at > |before| {
      assert all[fault.at] == after[fault.at - |before| - 1];
    }
  }

  lemma {:induction false} AcceptLeaves(w: World, plan: FetchPlan, runId: RunId, finishRun: bool,
                                        result: Client.QueryResult, prepared: Schema.Preparation, raw: Content,
                                        sc: Script, name: TmpName)
    requires name !in NamesOf(plan.key) && Holding(w, runId, name)
    ensures BodyLeaves(Accept(w, plan, runId, finishRun, result, prepared, raw, sc), runId, plan.key, name)
  {
    var lake := LakeContent(runId, plan.key, prepared.decision.schema, result.fields, prepared.items, sc.lakeBytes);
    var stage := StageActions(plan, runId, result, prepared.decision, raw, lake, sc);
    var size := AcceptBranches(w, plan, runId, finishRun, result, prepared, raw, sc);
    StageSpares(plan, runId, result, prepared.decision, raw, lake, sc);
    PerformSpares(stage, sc.stage, w, runId, plan.key, name);
    if !Strikes(sc.stage, stage) {
      RejectedLeaves([], ApplyAll(stage, w), plan.key, runId, finishRun, ValidationFailed, size, None, sc.publish,
                     name);
      PublishedLeaves(ApplyAll(stage, w), plan, runId, finishRun, |w.cat.files|, result, sc.publish, name);
    }
  }

  lemma {:induction false} StoreLeaves(text: Schema.Text, w: World, plan: FetchPlan, runId: RunId, finishRun: bool,
                                       result: Client.QueryResult, sc: Script, name: TmpName)
    requires name !in NamesOf(plan.key) && Holding(w, runId, name)
    ensures BodyLeaves(Store.Store(text, w, plan, runId, finishRun, result, sc), runId, plan.key, name)
  {
    var key := plan.key;
    var raw := RawContent(runId, key, result.events, sc.rawBytes);
    var write := [Write(runId, RawTmp(key), raw)];
    PerformSpares(write, sc.write, w, runId, key, name);
    if !Strikes(sc.write, write) {
      var written := ApplyAll(write, w);
      var prepared := PreparedFor(text, written.cat, key.apiName, result);
      if prepared.decision.Compatible() {
        AcceptLeaves(written, plan, runId, finishRun, result, prepared, raw, sc, name);
      } else {
        RejectedLeaves(ChangeActions(prepared.decision), written, key, runId, finishRun, SchemaIncompatible,
                       Some(raw.bytes), Some(Sha256(raw)), sc.stage, name);
      }
    }
  }

  lemma {:induction false} BodyIsLeft(text: Schema.Text, w: World, plan: FetchPlan, runId: RunId, finishRun: bool,
                                      sc: Script, name: TmpName)
    requires name !in NamesOf(plan.key) && Holding(w, runId, name)
    ensures BodyLeaves(Body(text, w, plan, runId, finishRun, sc), runId, plan.key, name)
  {
    var reply := QueryWithRetry(sc.replies, sc.maxAttempts, 1);
    if reply.Answer? {
      StoreLeaves(text, w, plan, runId, finishRun, reply.result, sc, name);
    }
  }

  // ---- the except clause ----

  lemma {:induction false} HandlerParts(w: World, key: JobKey, runId: RunId, finishRun: bool, error: ErrorType)
    returns (before: seq<Action>, after: seq<Action>)
    ensures AllSpare(before, key) && AllLeaveDisk(before) && AllLeaveDisk(after)
    ensures HandlerActions(w, key, runId, finishRun, error)
            == before + ([MoveToQuarantine(runId, QuarantineDir(runId, key, error))] + after)
  {
    before := [FailJob(key, error)] + EndActions(finishRun, runId, RunFailed(Some(error)));
    after := HandlerActions(w, key, runId, finishRun, error)[|before| + 1..];
  }

  /** Without a directory, moving it for another reason leaves what has been spilled. */
  lemma {:induction false} SpilledStays(actions: seq<Action>, w: World, runId: RunId, key: JobKey, reason: ErrorType,
                                        error: ErrorType, name: TmpName)
    requires reason != error && Spilled(w, runId, key, reason, name)
    requires forall i | 0 <= i < |actions| ::
               LeavesDisk(actions[i]) || actions[i] == MoveToQuarantine(runId, QuarantineDir(runId, key, error))
    ensures Spilled(ApplyAll(actions, w), runId, key, reason, name)
  {
    if actions != [] {
      SpilledStays(actions[..|actions| - 1], w, runId, key, reason, error, name);
    }
  }

  lemma {:induction false} HandlerKeepsSpill(e: Ending, key: JobKey, runId: RunId, finishRun: bool, fault: Fault,
                                             reason: ErrorType, name: TmpName)
    requires e.end.Threw? && e.end.error != reason && Spilled(e.w, runId, key, reason, name)
    ensures Spilled(Handle(e, key, runId, finishRun, fault).w, runId, key, reason, name)
  {
    var all := HandlerActions(e.w, key, runId, finishRun, e.end.error);
    var before, after := HandlerParts(e.w, key, runId, finishRun, e.end.error);
    if Strikes(fault, all) {
      SpilledStays(all[..fault.at], e.w, runId, key, reason, e.end.error, name);
    } else {
      SpilledStays(all, e.w, runId, key, reason, e.end.error, name);
    }
  }

  /** The file is held, or spilled without data being returned, or removed after a commit. */
  ghost predicate FetchLeaves(e: Ending, runId: RunId, key: JobKey, name: TmpName) {
    || Holding(e.w, runId, name)
    || (ReturnedData(e) && QuarantineOwned(e.w.disk))
    || (!ReturnedData(e) && exists reason :: Spilled(e.w, runId, key, reason, name))
  }

  lemma {:induction false} HandledLeaves(e: Ending, key: JobKey, runId: RunId, finishRun: bool, fault: Fault,
                                         name: TmpName)
    requires name !in NamesOf(key) && BodyLeaves(e, runId, key, name)
    ensures FetchLeaves(Handle(e, key, runId, finishRun, fault), runId, key, name)
  {
    if e.end.Threw? {
      if Holding(e.w, runId, name) {
        var before, after := HandlerParts(e.w, key, runId, finishRun, e.end.error);
        PerformSpills(before, after, fault, e.w, runId, key, e.end.error, name);
      } else {
        var reason :| reason in REJECTIONS && Spilled(e.w, runId, key, reason, name);
        HandlerKeepsSpill(e, key, runId, finishRun, fault, reason, name);
      }
    }
  }

  lemma {:induction false} FetchIsLeft(text: Schema.Text, w: World, req: Request, slot: Slot, sc: Script, name: TmpName)
    requires name !in NamesOf(req.key) && Holding(w, RunOf(w.cat, req), name)
    ensures FetchLeaves(Fetch(text, w, req, slot, sc), RunOf(w.cat, req), req.key, name)
  {
    var key, runId := req.key, RunOf(w.cat, req);
    var begin := BeginActions(w.cat, req);
    PerformSpares(begin, sc.begin, w, runId, key, name);
    if !ExistingActiveData(w.cat, key) && !Strikes(sc.begin, begin) {
      var begun, plan := ApplyAll(begin, w), PlanFetch(key, sc.today, slot);
      BodyIsLeft(text, begun, plan, runId, req.finishRun, sc, name);
      HandledLeaves(Body(text, begun, plan, runId, req.finishRun, sc), key, runId, req.finishRun, sc.handler, name);
    }
  }

  // ---- the exact condition ----

  lemma {:induction false} SpilledIsNotOwned(w: World, runId: RunId, key: JobKey, reason: ErrorType, name: TmpName)
    requires Spilled(w, runId, key, reason, name) && name !in NamesOf(key)
    ensures !QuarantineOwned(w.disk)
  {}

  /** For every fetch, with any faults: every quarantined directory still holds files of its own job
      only, if and only if the fetch found no other job's file in the temp directory of its run, or
      has not taken that directory away, or has taken it away after a commit. */
  lemma {:induction false} FetchSpillsIff(text: Schema.Text, w: World, req: Request, slot: Slot, sc: Script)
    requires QuarantineOwned(w.disk)
    ensures var e, runId := Fetch(text, w, req, slot, sc), RunOf(w.cat, req);
            QuarantineOwned(e.w.disk)
            <==> DirOf(w.disk, runId).Keys <= NamesOf(req.key) || !Gone(e.w, runId) || ReturnedData(e)
  {
    var e, runId := Fetch(text, w, req, slot, sc), RunOf(w.cat, req);
    if DirOf(w.disk, runId).Keys <= NamesOf(req.key) {
      FetchKeepsOwn(text, w, req, slot, sc);
    } else {
      var name :| name in DirOf(w.disk, runId) && name !in NamesOf(req.key);
      FetchIsLeft(text, w, req, slot, sc, name);
      if !Holding(e.w, runId, name) && !(ReturnedData(e) && QuarantineOwned(e.w.disk)) {
        var reason :| Spilled(e.w, runId, req.key, reason, name);
        SpilledIsNotOwned(e.w, runId, req.key, reason, name);
      }
    }
  }

  lemma {:induction false} RefusedSpillsIff(text: Schema.Text, w: World, req: Request, slot: Slot, sc: Script)
    requires QuarantineOwned(w.disk) && !ExistingActiveData(w.cat, req.key)
    requires !Strikes(sc.begin, BeginActions(w.cat, req)) && !CutsRemoval(sc.handler, req.finishRun)
    requires FailsUnwritten(sc) && Fetch(text, w, req, slot, sc).end.Threw?
    ensures QuarantineOwned(Fetch(text, w, req, slot, sc).w.disk)
            <==> DirOf(w.disk, RunOf(w.cat, req)).Keys <= NamesOf(req.key)
  {
    var runId, plan := RunOf(w.cat, req), PlanFetch(req.key, sc.today, slot);
    var begun := ApplyAll(BeginActions(w.cat, req), w);
    UnwrittenBody(text, begun, plan, runId, req.finishRun, sc);
    HandleClears(Body(text, begun, plan, runId, req.finishRun, sc), req.key, runId, req.finishRun, sc.handler);
    FetchSpillsIff(text, w, req, slot, sc);
  }
}
