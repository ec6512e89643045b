/** What lasts over any run of fetches, whatever the faults: the snapshot chain, done jobs, and their
    files; and what lasts as long as the faults are safe, for the whole lake and for single jobs. */
module Durability {
  import opened Catalog
  import opened Snapshots
  import opened Store
  import opened Safety
  import opened Runs
  import Schema

  // ---- the active files of a job ----

  /** New files of other jobs in a latest snapshot do not change the active files of this one. */
  lemma {:induction false} SameActive(c: Cat, d: Cat, k: JobKey, added: set<FileId>)
    requires HeadFiles(d, k.apiName) == HeadFiles(c, k.apiName) + added
    requires forall f | f in HeadFiles(c, k.apiName) :: f < |c.files| && f < |d.files| && d.files[f] == c.files[f]
    requires forall f | f in added :: f < |d.files| && d.files[f].key != k
    ensures ActiveLakeFiles(d, k) == ActiveLakeFiles(c, k)
  {}

  lemma {:induction false} ApartSameActive(v: World, w: World, key: JobKey, slots: Slots, k: JobKey)
    requires key in slots && Listed(v.cat) && Apart(v, w, key, slots)
    ensures ActiveLakeFiles(w.cat, k) == ActiveLakeFiles(v.cat, k)
  {
    ApartSameHead(v, w, key, slots);
    forall f | f in HeadFiles(v.cat, k.apiName)
      ensures f < |v.cat.files| && f < |w.cat.files| && w.cat.files[f] == v.cat.files[f]
    {
      assert f < |v.cat.files|;
    }
    SameActive(v.cat, w.cat, k, {});
  }

  lemma {:induction false} PastRows(v: World, x: World, y: World, slots: Slots, p: Publication, k: JobKey)
    requires p.key in slots && Listed(v.cat) && Past(v, x, y, slots, p)
    ensures forall f | f in HeadFiles(v.cat, k.apiName) ::
              f < |v.cat.files| && f < |y.cat.files| && y.cat.files[f] == v.cat.files[f]
    ensures p.rawId < |y.cat.files| && y.cat.files[p.rawId].key == p.key
    ensures p.lakeId < |y.cat.files| && y.cat.files[p.lakeId].key == p.key
  {
    CommitRows(v, x, slots, p);
    forall f | f in HeadFiles(v.cat, k.apiName)
      ensures f < |v.cat.files| && f < |y.cat.files| && y.cat.files[f] == v.cat.files[f]
    {
      assert f < |v.cat.files|;
    }
  }

  lemma {:induction false} PastHeads(v: World, x: World, y: World, slots: Slots, p: Publication, a: string)
    requires p.key in slots && Listed(v.cat) && Past(v, x, y, slots, p)
    ensures HeadFiles(y.cat, a) == HeadFiles(v.cat, a) + if a == p.key.apiName then {p.rawId, p.lakeId} else {}
  {
    CommitLive(v, x, slots, p, a);
  }

  lemma {:induction false} PastSameActive(v: World, x: World, y: World, slots: Slots, p: Publication, k: JobKey)
    requires p.key in slots && Listed(v.cat) && Past(v, x, y, slots, p) && k != p.key
    ensures ActiveLakeFiles(y.cat, k) == ActiveLakeFiles(v.cat, k)
  {
    PastHeads(v, x, y, slots, p, k.apiName);
    PastRows(v, x, y, slots, p, k);
    SameActive(v.cat, y.cat, k, if k.apiName == p.key.apiName then {p.rawId, p.lakeId} else {});
  }

  // ---- the catalog stays in order ----

  lemma {:induction false} ApartKeepsOrder(v: World, w: World, key: JobKey, slots: Slots)
    requires key in slots && Orderly(v.cat) && Apart(v, w, key, slots)
    ensures Orderly(w.cat)
  {
    ApartSameHead(v, w, key, slots);
    forall k | IsDone(w.cat, k)
      ensures ActiveLakeFiles(w.cat, k) != {}
    {
      assert k != key && Find(w.cat.jobs, k) == Find(v.cat.jobs, k);
      assert IsDone(v.cat, k);
      ApartSameActive(v, w, key, slots, k);
    }
  }

  lemma {:induction false} SameSnapshotsSameHeads(c: Cat, d: Cat)
    requires d.snapshots == c.snapshots && d.files == c.files && ChainOk(c)
    ensures ChainOk(d) && forall a :: HeadFiles(d, a) == HeadFiles(c, a)
  {
    OthersKeepChain(c, d);
  }

  lemma {:induction false} PastListed(v: World, x: World, y: World, slots: Slots, p: Publication)
    requires p.key in slots && Listed(v.cat) && Past(v, x, y, slots, p)
    ensures Listed(y.cat)
  {
    CommitChain(v, x, slots, p);
    SameSnapshotsSameHeads(CommittedCat(x.cat, p), y.cat);
    forall a, f | f in HeadFiles(y.cat, a)
      ensures f < |y.cat.files|
    {
      PastHeads(v, x, y, slots, p, a);
    }
  }

  lemma {:induction false} CommittedRows(v: World, x: World, y: World, slots: Slots, p: Publication)
    requires p.key in slots && Past(v, x, y, slots, p)
    ensures |y.cat.files| == |x.cat.files|
    ensures y.cat.files[p.rawId] == CommittedRow(x.cat.files[p.rawId], |x.cat.snapshots|)
    ensures y.cat.files[p.lakeId] == CommittedRow(x.cat.files[p.lakeId], |x.cat.snapshots|)
  {
    CommitRows(v, x, slots, p);
  }

  /** The lake file that was committed is an active one of its job. */
  lemma {:induction false} CommittedIsActive(v: World, x: World, y: World, slots: Slots, p: Publication)
    requires p.key in slots && Listed(v.cat) && Past(v, x, y, slots, p)
    ensures p.lakeId in ActiveLakeFiles(y.cat, p.key)
  {
    PastHeads(v, x, y, slots, p, p.key.apiName);
    CommittedRows(v, x, y, slots, p);
    CurrentIsActive(y.cat, p.key, p.lakeId);
  }

  lemma {:induction false} PastKeepsOrder(v: World, x: World, y: World, slots: Slots, p: Publication)
    requires p.key in slots && Orderly(v.cat) && Past(v, x, y, slots, p)
    ensures Orderly(y.cat)
  {
    PastListed(v, x, y, slots, p);
    forall k | IsDone(y.cat, k)
      ensures ActiveLakeFiles(y.cat, k) != {}
    {
      if k == p.key {
        CommittedIsActive(v, x, y, slots, p);
      } else {
        assert Find(y.cat.jobs, k) == Find(v.cat.jobs, k);
        assert IsDone(v.cat, k);
        PastSameActive(v, x, y, slots, p, k);
      }
    }
  }

  /** Every fetch, whatever its faults and wherever its files go, leaves the catalog in order. */
  lemma {:induction false} FetchKeepsOrder(text: Schema.Text, w: World, req: Request, slots: Slots, sc: Script)
    requires Orderly(w.cat) && req.key in slots
    ensures Orderly(Fetch(text, w, req, slots[req.key], sc).w.cat)
  {
    FetchEnded(text, w, req, slots, sc);
    var e := Fetch(text, w, req, slots[req.key], sc);
    if !IsDone(w.cat, req.key) {
      if EndedApart(w, e, req.key, slots) {
        ApartKeepsOrder(w, e.w, req.key, slots);
      } else {
        var x: World, p: Publication :| p.key == req.key && Past(w, x, e.w, slots, p);
        PastKeepsOrder(w, x, e.w, slots, p);
      }
    }
  }

  // ---- the rows of live files ----

  lemma {:induction false} ApartKeepsRows(v: World, w: World, key: JobKey, slots: Slots)
    requires key in slots && Listed(v.cat) && HeadRowsOk(v.cat, slots) && Apart(v, w, key, slots)
    ensures HeadRowsOk(w.cat, slots)
  {
    ApartSameHead(v, w, key, slots);
    forall a, f | f in HeadFiles(w.cat, a)
      ensures f < |w.cat.files| && w.cat.files[f].apiName == a && RowOk(w.cat.files[f], slots)
    {
      assert f in HeadFiles(v.cat, a) && Live(v.cat, f);
    }
  }

  lemma {:induction false} PastKeepsRows(v: World, x: World, y: World, slots: Slots, p: Publication)
    requires p.key in slots && Listed(v.cat) && HeadRowsOk(v.cat, slots) && Past(v, x, y, slots, p)
    ensures HeadRowsOk(y.cat, slots)
  {
    CommitChain(v, x, slots, p);
    CommitKeepsRows(v, x, slots, p);
    SameSnapshotsSameHeads(CommittedWorld(x, p).cat, y.cat);
    forall a, f | f in HeadFiles(y.cat, a)
      ensures f < |y.cat.files| && y.cat.files[f].apiName == a && RowOk(y.cat.files[f], slots)
    {
      assert f in HeadFiles(CommittedWorld(x, p).cat, a);
    }
  }

  lemma {:induction false} FetchKeepsHeadRows(text: Schema.Text, w: World, req: Request, slots: Slots, sc: Script)
    requires Orderly(w.cat) && HeadRowsOk(w.cat, slots) && req.key in slots
    ensures HeadRowsOk(Fetch(text, w, req, slots[req.key], sc).w.cat, slots)
  {
    FetchEnded(text, w, req, slots, sc);
    var e := Fetch(text, w, req, slots[req.key], sc);
    if !IsDone(w.cat, req.key) {
      if EndedApart(w, e, req.key, slots) {
        ApartKeepsRows(w, e.w, req.key, slots);
      } else {
        var x: World, p: Publication :| p.key == req.key && Past(w, x, e.w, slots, p);
        PastKeepsRows(w, x, e.w, slots, p);
      }
    }
  }

  // ---- committed data stays ----

  /** Nothing committed in v has changed in w: its files are still in the latest snapshots with
      the same rows and the same contents, and its jobs are done with the same counts. */
  ghost predicate Durable(v: World, w: World) {
    && (forall f | Live(v.cat, f) :: StillThere(v, w, f))
    && (forall k {:trigger Find(w.cat.jobs, k)} | IsDone(v.cat, k) :: Find(w.cat.jobs, k) == Find(v.cat.jobs, k))
  }

  ghost predicate StillThere(v: World, w: World, f: int)
    requires Live(v.cat, f)
  {
    && Live(w.cat, f) && w.cat.files[f] == v.cat.files[f]
    && Find(w.disk.final, v.cat.files[f].path) == Find(v.disk.final, v.cat.files[f].path)
  }

  /** The same, for the jobs that are done in v. */
  ghost predicate DoneStay(v: World, w: World) {
    forall k {:trigger Find(w.cat.jobs, k)} | IsDone(v.cat, k) :: Find(w.cat.jobs, k) == Find(v.cat.jobs, k)
  }

  /** The same, for the live files of the jobs that are done in v. */
  ghost predicate FilesStay(v: World, w: World) {
    forall f | Live(v.cat, f) && IsDone(v.cat, v.cat.files[f].key) :: StillThere(v, w, f)
  }

  lemma {:induction false} FetchKeepsDone(text: Schema.Text, w: World, req: Request, slots: Slots, sc: Script)
    requires Orderly(w.cat) && req.key in slots
    ensures DoneStay(w, Fetch(text, w, req, slots[req.key], sc).w)
  {
    FetchEnded(text, w, req, slots, sc);
  }

  /** The path of another job's live file is none that this job may write. */
  lemma {:induction false} OthersPathIsNotOwned(c: Cat, key: JobKey, slots: Slots, f: int)
    requires SlotsDistinct(slots) && HeadRowsOk(c, slots) && key in slots
    requires Live(c, f) && c.files[f].key != key
    ensures !Owns(key, slots, c.files[f].path)
  {
    var row := c.files[f];
    assert RowOk(row, slots);
    if Owns(key, slots, row.path) {
      OwnersAreUnique(key, row.key, slots, row.path);
    }
  }

  lemma {:induction false} ApartKeepsFile(v: World, w: World, key: JobKey, slots: Slots, f: int)
    requires SlotsDistinct(slots) && key in slots && Listed(v.cat) && HeadRowsOk(v.cat, slots)
    requires Apart(v, w, key, slots) && Live(v.cat, f) && v.cat.files[f].key != key
    ensures StillThere(v, w, f)
  {
    ApartSameHead(v, w, key, slots);
    OthersPathIsNotOwned(v.cat, key, slots, f);
  }

  lemma {:induction false} CommittedKeepsLive(c: Cat, d: Cat, p: Publication, f: int)
    requires ChainOk(c) && Live(c, f) && SameSnapshots(c, d) && d.files[f] == c.files[f]
    requires f < p.rawId && f < p.lakeId
    ensures Live(CommittedCat(d, p), f) && CommittedCat(d, p).files[f] == c.files[f]
  {
    OthersKeepChain(c, d);
    CommittedHeads(d, p, c.files[f].apiName);
  }

  lemma {:induction false} ApartIsSame(v: World, w: World, key: JobKey, slots: Slots)
    requires key in slots && Apart(v, w, key, slots)
    ensures SameSnapshots(v.cat, w.cat)
  {}

  /** Rows that were live stay live, unchanged, over any commit. */
  lemma {:induction false} PastKeepsLive(w: World, x: World, y: World, slots: Slots, p: Publication, f: int)
    requires p.key in slots && ChainOk(w.cat) && Live(w.cat, f) && Past(w, x, y, slots, p)
    ensures Live(y.cat, f) && y.cat.files[f] == w.cat.files[f]
  {
    ApartIsSame(w, x, p.key, slots);
    CommittedKeepsLive(w.cat, x.cat, p, f);
  }

  lemma {:induction false} PastKeepsFile(v: World, x: World, y: World, slots: Slots, p: Publication, f: int)
    requires SlotsDistinct(slots) && p.key in slots && Listed(v.cat) && HeadRowsOk(v.cat, slots)
    requires Past(v, x, y, slots, p) && Live(v.cat, f) && v.cat.files[f].key != p.key
    ensures StillThere(v, y, f)
  {
    PastKeepsLive(v, x, y, slots, p, f);
    ApartKeepsFile(v, x, p.key, slots, f);
  }

  /** A fetch keeps every live file of every other job, whatever the faults. */
  lemma {:induction false} FetchKeepsOthersFile(text: Schema.Text, w: World, req: Request, slots: Slots, sc: Script,
                                                f: int)
    requires SlotsDistinct(slots) && Orderly(w.cat) && HeadRowsOk(w.cat, slots) && req.key in slots
    requires Live(w.cat, f) && (w.cat.files[f].key != req.key || IsDone(w.cat, req.key))
    ensures StillThere(w, Fetch(text, w, req, slots[req.key], sc).w, f)
  {
    FetchEnded(text, w, req, slots, sc);
    var e := Fetch(text, w, req, slots[req.key], sc);
    if !IsDone(w.cat, req.key) {
      if EndedApart(w, e, req.key, slots) {
        ApartKeepsFile(w, e.w, req.key, slots, f);
      } else {
        var x: World, p: Publication :| p.key == req.key && Past(w, x, e.w, slots, p);
        PastKeepsFile(w, x, e.w, slots, p, f);
      }
    }
  }

  lemma {:induction false} FetchKeepsFiles(text: Schema.Text, w: World, req: Request, slots: Slots, sc: Script)
    requires SlotsDistinct(slots) && Orderly(w.cat) && HeadRowsOk(w.cat, slots) && req.key in slots
    ensures FilesStay(w, Fetch(text, w, req, slots[req.key], sc).w)
  {
    forall f | Live(w.cat, f) && IsDone(w.cat, w.cat.files[f].key)
      ensures StillThere(w, Fetch(text, w, req, slots[req.key], sc).w, f)
    {
      FetchKeepsOthersFile(text, w, req, slots, sc, f);
    }
  }

  /** From a lake in order, what done jobs keep is everything that is committed. */
  lemma {:induction false} StayIsDurable(v: World, w: World, slots: Slots)
    requires Inv(v, slots) && DoneStay(v, w) && FilesStay(v, w)
    ensures Durable(v, w)
  {}

  /** No fetch changes anything committed before it, whatever the faults, unsafe ones included. */
  lemma {:induction false} FetchIsDurable(text: Schema.Text, w: World, req: Request, slots: Slots, sc: Script)
    requires SlotsDistinct(slots) && Inv(w, slots) && req.key in slots
    ensures Durable(w, Fetch(text, w, req, slots[req.key], sc).w)
  {
    InvIsOrderly(w, slots);
    FetchKeepsDone(text, w, req, slots, sc);
    FetchKeepsFiles(text, w, req, slots, sc);
    StayIsDurable(w, Fetch(text, w, req, slots[req.key], sc).w, slots);
  }

  lemma {:induction false} DurableTransitive(u: World, v: World, w: World)
    requires Durable(u, v) && Durable(v, w)
    ensures Durable(u, w)
  {
    forall f | Live(u.cat, f)
      ensures StillThere(u, w, f)
    {
      assert StillThere(u, v, f) && StillThere(v, w, f);
    }
    forall k | IsDone(u.cat, k)
      ensures Find(w.cat.jobs, k) == Find(u.cat.jobs, k)
    {
      assert Find(v.cat.jobs, k) == Find(u.cat.jobs, k);
      assert IsDone(v.cat, k);
    }
  }

  lemma {:induction false} StayTransitive(u: World, v: World, w: World)
    requires DoneStay(u, v) && DoneStay(v, w)
    ensures DoneStay(u, w)
    ensures FilesStay(u, v) && FilesStay(v, w) ==> FilesStay(u, w)
  {
    forall k | IsDone(u.cat, k)
      ensures IsDone(v.cat, k) && Find(w.cat.jobs, k) == Find(u.cat.jobs, k)
    {
      assert Find(v.cat.jobs, k) == Find(u.cat.jobs, k);
    }
    if FilesStay(u, v) && FilesStay(v, w) {
      forall f | Live(u.cat, f) && IsDone(u.cat, u.cat.files[f].key)
        ensures StillThere(u, w, f)
      {
        assert StillThere(u, v, f) && StillThere(v, w, f);
      }
    }
  }

  // ---- whole runs ----

  /** Over any run of fetches, with any faults and with colliding paths, the catalog stays in order:
      the snapshot chains in particular. */
  lemma {:induction false} RunsKeepOrder(text: Schema.Text, w: World, slots: Slots, commands: seq<Command>)
    requires Orderly(w.cat) && Known(commands, slots)
    ensures Orderly(RunAll(text, w, slots, commands).cat)
    decreases |commands|
  {
    if commands != [] {
      var c := commands[0];
      FetchKeepsOrder(text, w, c.req, slots, c.sc);
      RunsKeepOrder(text, Fetch(text, w, c.req, slots[c.req.key], c.sc).w, slots, commands[1..]);
    }
  }

  /** A job that is done stays done, with its counts, over any run with any faults. */
  lemma {:induction false} RunsKeepDone(text: Schema.Text, w: World, slots: Slots, commands: seq<Command>)
    requires Orderly(w.cat) && Known(commands, slots)
    ensures DoneStay(w, RunAll(text, w, slots, commands))
    decreases |commands|
  {
    if commands != [] {
      var c := commands[0];
      var next := Fetch(text, w, c.req, slots[c.req.key], c.sc).w;
      FetchKeepsOrder(text, w, c.req, slots, c.sc);
      FetchKeepsDone(text, w, c.req, slots, c.sc);
      RunsKeepDone(text, next, slots, commands[1..]);
      StayTransitive(w, next, RunAll(text, next, slots, commands[1..]));
    }
  }

  /** The live files of a done job stay, on disk and in the catalog, over any run with any faults. */
  lemma {:induction false} RunsKeepFiles(text: Schema.Text, w: World, slots: Slots, commands: seq<Command>)
    requires SlotsDistinct(slots) && Orderly(w.cat) && HeadRowsOk(w.cat, slots) && Known(commands, slots)
    ensures FilesStay(w, RunAll(text, w, slots, commands))
    decreases |commands|
  {
    if commands != [] {
      var c := commands[0];
      var next := Fetch(text, w, c.req, slots[c.req.key], c.sc).w;
      FetchKeepsOrder(text, w, c.req, slots, c.sc);
      FetchKeepsHeadRows(text, w, c.req, slots, c.sc);
      FetchKeepsDone(text, w, c.req, slots, c.sc);
      FetchKeepsFiles(text, w, c.req, slots, c.sc);
      RunsKeepFiles(text, next, slots, commands[1..]);
      RunsKeepDone(text, next, slots, commands[1..]);
      StayTransitive(w, next, RunAll(text, next, slots, commands[1..]));
    }
  }

  /** Nothing that is committed in a lake in order changes over any run of fetches, with any faults. */
  lemma {:induction false} RunsAreDurable(text: Schema.Text, w: World, slots: Slots, commands: seq<Command>)
    requires SlotsDistinct(slots) && Inv(w, slots) && Known(commands, slots)
    ensures Durable(w, RunAll(text, w, slots, commands))
  {
    InvIsOrderly(w, slots);
    RunsKeepDone(text, w, slots, commands);
    RunsKeepFiles(text, w, slots, commands);
    StayIsDurable(w, RunAll(text, w, slots, commands), slots);
  }

  /** As long as the faults are safe, the invariant holds in every state that a run reaches. */
  lemma {:induction false} RunsAreSafe(text: Schema.Text, w: World, slots: Slots, commands: seq<Command>)
    requires SlotsDistinct(slots) && Inv(w, slots) && Legal(commands, slots)
    ensures Inv(RunAll(text, w, slots, commands), slots)
    decreases |commands|
  {
    if commands != [] {
      var c := commands[0];
      FetchKeepsInv(text, w, c.req, slots, c.sc);
      RunsAreSafe(text, Fetch(text, w, c.req, slots[c.req.key], c.sc).w, slots, commands[1..]);
    }
  }

  // ---- fetching again ----

  /** A fetch that returns data leaves its job done with the count it returns. */
  lemma {:induction false} ReturnedIsDone(text: Schema.Text, w: World, req: Request, slots: Slots, sc: Script)
    requires Orderly(w.cat) && req.key in slots
    requires var e := Fetch(text, w, req, slots[req.key], sc); e.end.Finished? && e.end.result.snapshot.Some?
    ensures var e := Fetch(text, w, req, slots[req.key], sc);
            IsDone(e.w.cat, req.key) && RecordedCount(e.w.cat, req.key) == e.end.result.recordCount
  {
    var e := Fetch(text, w, req, slots[req.key], sc);
    FetchEnded(text, w, req, slots, sc);
    if !IsDone(w.cat, req.key) {
      var x: World, p: Publication :| p.key == req.key && Past(w, x, e.w, slots, p) && CommittedVia(w, e, slots, x, p);
      CommitJobs(w, x, slots, p, req.key);
    }
  }

  /** Fetching a done job again changes nothing and returns the recorded count. */
  lemma {:induction false} DoneIsSkipped(text: Schema.Text, w: World, req: Request, slot: Slot, sc: Script)
    requires Orderly(w.cat) && IsDone(w.cat, req.key)
    ensures var r := Fetch(text, w, req, slot, sc);
            && r.w == w && r.end.Finished? && r.end.result.skipped && r.end.result.snapshot.Some?
            && r.end.result.recordCount == RecordedCount(w.cat, req.key)
  {
    var f :| f in ActiveLakeFiles(w.cat, req.key);
  }

  /** Once a fetch has returned data, fetching the same key again changes nothing and returns the
      recorded count, after whatever other fetches with whatever faults. */
  lemma {:induction false} RefetchIsNoOp(text: Schema.Text, w: World, slots: Slots, first: Command,
                                         others: seq<Command>, again: Command)
    requires Orderly(w.cat) && first.req.key in slots && Known(others, slots)
    requires again.req.key == first.req.key
    requires var e := Fetch(text, w, first.req, slots[first.req.key], first.sc);
             e.end.Finished? && e.end.result.snapshot.Some?
    ensures var e := Fetch(text, w, first.req, slots[first.req.key], first.sc);
            var later := RunAll(text, e.w, slots, others);
            var r := Fetch(text, later, again.req, slots[again.req.key], again.sc);
            && r.w == later
            && r.end.Finished? && r.end.result.skipped && r.end.result.snapshot.Some?
            && r.end.result.recordCount == e.end.result.recordCount
  {
    var key := first.req.key;
    var e := Fetch(text, w, first.req, slots[key], first.sc);
    ReturnedIsDone(text, w, first.req, slots, first.sc);
    FetchKeepsOrder(text, w, first.req, slots, first.sc);
    RunsKeepDone(text, e.w, slots, others);
    RunsKeepOrder(text, e.w, slots, others);
    var later := RunAll(text, e.w, slots, others);
    assert Find(later.cat.jobs, key) == Find(e.w.cat.jobs, key);
    DoneIsSkipped(text, later, again.req, slots[key], again.sc);
  }

  // ---- single jobs ----

  /** The live files of the job are on disk as recorded, at most one of each kind, and the job is
      done if it has any. */
  ghost predicate JobIntact(w: World, k: JobKey) {
    && (forall f | Live(w.cat, f) && w.cat.files[f].key == k :: Intact(w, f) && IsDone(w.cat, k))
    && (forall f, g | Live(w.cat, f) && Live(w.cat, g) && w.cat.files[f].key == w.cat.files[g].key == k
                      && w.cat.files[f].contentType == w.cat.files[g].contentType :: f == g)
  }

  /** The same live files of the job are still there, and none has been added. */
  ghost predicate SameJob(v: World, w: World, k: JobKey) {
    && Find(w.cat.jobs, k) == Find(v.cat.jobs, k)
    && (forall f | Live(w.cat, f) && w.cat.files[f].key == k :: Live(v.cat, f))
    && (forall f | Live(v.cat, f) && v.cat.files[f].key == k :: StillThere(v, w, f))
    && (forall f | Live(w.cat, f) && Live(v.cat, f) :: w.cat.files[f].key == v.cat.files[f].key)
  }

  lemma {:induction false} SameJobStaysIntact(v: World, w: World, k: JobKey)
    requires SameJob(v, w, k) && JobIntact(v, k)
    ensures JobIntact(w, k)
  {
    forall f | Live(w.cat, f) && w.cat.files[f].key == k
      ensures Intact(w, f) && IsDone(w.cat, k)
    {
      assert StillThere(v, w, f) && Intact(v, f);
    }
  }

  lemma {:induction false} ApartSameJob(v: World, w: World, key: JobKey, slots: Slots, k: JobKey)
    requires SlotsDistinct(slots) && key in slots && Listed(v.cat) && HeadRowsOk(v.cat, slots)
    requires Apart(v, w, key, slots) && k != key
    ensures SameJob(v, w, k)
  {
    ApartSameHead(v, w, key, slots);
    forall f | Live(v.cat, f) && v.cat.files[f].key == k
      ensures StillThere(v, w, f)
    {
      ApartKeepsFile(v, w, key, slots, f);
    }
  }

  lemma {:induction false} PastLiveIff(v: World, x: World, y: World, slots: Slots, p: Publication, f: int)
    requires p.key in slots && Listed(v.cat) && Past(v, x, y, slots, p)
    ensures Live(y.cat, f) <==> Live(v.cat, f) || f == p.rawId || f == p.lakeId
  {
    CommitChain(v, x, slots, p);
    CommitLiveIff(v, x, slots, p, f);
    SameSnapshotsSameHeads(CommittedWorld(x, p).cat, y.cat);
  }

  lemma {:induction false} PastSameJob(v: World, x: World, y: World, slots: Slots, p: Publication, k: JobKey)
    requires SlotsDistinct(slots) && p.key in slots && Listed(v.cat) && HeadRowsOk(v.cat, slots)
    requires Past(v, x, y, slots, p) && k != p.key
    ensures SameJob(v, y, k)
  {
    CommittedRows(v, x, y, slots, p);
    forall f | Live(y.cat, f) && y.cat.files[f].key == k
      ensures Live(v.cat, f)
    {
      PastLiveIff(v, x, y, slots, p, f);
    }
    forall f | Live(v.cat, f)
      ensures y.cat.files[f].key == v.cat.files[f].key
      ensures v.cat.files[f].key == k ==> StillThere(v, y, f)
    {
      PastKeepsLive(v, x, y, slots, p, f);
      if v.cat.files[f].key == k {
        PastKeepsFile(v, x, y, slots, p, f);
      }
    }
  }

  lemma {:induction false} CommittedFileIsIntact(v: World, x: World, y: World, slots: Slots, p: Publication, f: int)
    requires p.key in slots && Past(v, x, y, slots, p) && (f == p.rawId || f == p.lakeId)
    ensures f < |y.cat.files| && Intact(y, f)
  {
    CommittedRows(v, x, y, slots, p);
    assert Intact(x, f);
  }

  /** The live files of a job that had none before its commit are the two that were committed. */
  lemma {:induction false} OnlyTheCommitted(v: World, x: World, y: World, slots: Slots, p: Publication, f: int)
    requires p.key in slots && Listed(v.cat) && Past(v, x, y, slots, p)
    requires forall g | Live(v.cat, g) :: v.cat.files[g].key != p.key
    requires Live(y.cat, f) && y.cat.files[f].key == p.key
    ensures f == p.rawId || f == p.lakeId
  {
    PastLiveIff(v, x, y, slots, p, f);
    if Live(v.cat, f) {
      PastKeepsLive(v, x, y, slots, p, f);
    }
  }

  /** A job that had no live files and has just been committed, its job row updated. */
  lemma {:induction false} CommittedJobIsIntact(v: World, e: Ending, slots: Slots, x: World, p: Publication)
    requires p.key in slots && Listed(v.cat) && Past(v, x, e.w, slots, p) && CommittedVia(v, e, slots, x, p)
    requires forall f | Live(v.cat, f) :: v.cat.files[f].key != p.key
    ensures JobIntact(e.w, p.key)
  {
    CommittedRows(v, x, e.w, slots, p);
    assert IsDone(e.w.cat, p.key) by {
      CommitJobs(v, x, slots, p, p.key);
    }
    forall f | Live(e.w.cat, f) && e.w.cat.files[f].key == p.key
      ensures f == p.rawId || f == p.lakeId
      ensures Intact(e.w, f)
    {
      OnlyTheCommitted(v, x, e.w, slots, p, f);
      CommittedFileIsIntact(v, x, e.w, slots, p, f);
    }
  }

  lemma {:induction false} EndedKeepsJobIntact(v: World, e: Ending, key: JobKey, slots: Slots, safe: bool, k: JobKey)
    requires SlotsDistinct(slots) && key in slots && Listed(v.cat) && HeadRowsOk(v.cat, slots)
    requires !IsDone(v.cat, key) && JobIntact(v, k) && Ended(v, e, key, slots, safe) && (k == key ==> safe)
    ensures JobIntact(e.w, k)
  {
    if EndedApart(v, e, key, slots) {
      if k == key {
        ApartSameHead(v, e.w, key, slots);
      } else {
        ApartSameJob(v, e.w, key, slots, k);
        SameJobStaysIntact(v, e.w, k);
      }
    } else if k == key {
      var x: World, p: Publication :| p.key == key && Past(v, x, e.w, slots, p) && CommittedVia(v, e, slots, x, p);
      CommittedJobIsIntact(v, e, slots, x, p);
    } else {
      var x: World, p: Publication :| p.key == key && Past(v, x, e.w, slots, p);
      PastSameJob(v, x, e.w, slots, p, k);
      SameJobStaysIntact(v, e.w, k);
    }
  }

  /** Whatever happens to the fetches of other jobs, a job whose own fetches meet no unsafe fault has
      its live files on disk as recorded. */
  lemma {:induction false} RunsKeepJobIntact(text: Schema.Text, w: World, slots: Slots, commands: seq<Command>,
                                             k: JobKey)
    requires SlotsDistinct(slots) && Orderly(w.cat) && HeadRowsOk(w.cat, slots) && Known(commands, slots)
    requires JobIntact(w, k) && SafeFor(commands, k)
    ensures JobIntact(RunAll(text, w, slots, commands), k)
    decreases |commands|
  {
    if commands != [] {
      var c := commands[0];
      var e := Fetch(text, w, c.req, slots[c.req.key], c.sc);
      FetchEnded(text, w, c.req, slots, c.sc);
      if !IsDone(w.cat, c.req.key) {
        EndedKeepsJobIntact(w, e, c.req.key, slots, Safe(c.sc, c.req.finishRun), k);
      }
      FetchKeepsOrder(text, w, c.req, slots, c.sc);
      FetchKeepsHeadRows(text, w, c.req, slots, c.sc);
      RunsKeepJobIntact(text, e.w, slots, commands[1..], k);
    }
  }

  ghost predicate SafeFor(commands: seq<Command>, k: JobKey) {
    forall c | c in commands && c.req.key == k :: Safe(c.sc, c.req.finishRun)
  }

  lemma {:induction false} RunsKeepHeadRows(text: Schema.Text, w: World, slots: Slots, commands: seq<Command>)
    requires Orderly(w.cat) && HeadRowsOk(w.cat, slots) && Known(commands, slots)
    ensures HeadRowsOk(RunAll(text, w, slots, commands).cat, slots)
    decreases |commands|
  {
    if commands != [] {
      var c := commands[0];
      FetchKeepsOrder(text, w, c.req, slots, c.sc);
      FetchKeepsHeadRows(text, w, c.req, slots, c.sc);
      RunsKeepHeadRows(text, Fetch(text, w, c.req, slots[c.req.key], c.sc).w, slots, commands[1..]);
    }
  }

  /** From an empty lake, over any run: every live file of a job whose own fetches met no unsafe
      fault is on disk with the recorded size and hash, and shares its path with no other live file,
      whatever happened to the fetches of other jobs. */
  lemma {:induction false} ReachableLakesAreIntact(text: Schema.Text, slots: Slots, commands: seq<Command>, f: int,
                                                   g: int)
    requires SlotsDistinct(slots) && Known(commands, slots)
    requires var w := RunAll(text, EMPTY_LAKE, slots, commands);
             Live(w.cat, f) && SafeFor(commands, w.cat.files[f].key) && Live(w.cat, g)
    ensures var w := RunAll(text, EMPTY_LAKE, slots, commands);
            var row := w.cat.files[f];
            && row.path in w.disk.final
            && w.disk.final[row.path].bytes == row.size && Sha256(w.disk.final[row.path]) == row.sha
            && (f != g ==> row.path != w.cat.files[g].path)
  {
    var w := RunAll(text, EMPTY_LAKE, slots, commands);
    RunsKeepJobIntact(text, EMPTY_LAKE, slots, commands, w.cat.files[f].key);
    RunsKeepHeadRows(text, EMPTY_LAKE, slots, commands);
    assert Intact(w, f);
    if f != g {
      JobPathsDiffer(w, slots, f, g);
    }
  }

  lemma {:induction false} JobPathsDiffer(w: World, slots: Slots, f: int, g: int)
    requires SlotsDistinct(slots) && HeadRowsOk(w.cat, slots) && Live(w.cat, f) && Live(w.cat, g) && f != g
    requires JobIntact(w, w.cat.files[f].key)
    ensures w.cat.files[f].path != w.cat.files[g].path
  {
    var a, b := w.cat.files[f], w.cat.files[g];
    assert RowOk(a, slots) && RowOk(b, slots);
    if a.path == b.path {
      OwnersAreUnique(a.key, b.key, slots, a.path);
    }
  }
}
