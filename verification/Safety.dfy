/** What every fetch keeps, whatever goes wrong in it: the committed data stays intact on disk,
    jobs are done exactly when their data is in the current snapshot, and nothing committed is
    ever changed again. */
module Safety {
  import opened Wrappers
  import opened Catalog
  import opened Snapshots
  import opened Store

  // ---- paths ----

  /** Where the lake files of the keys in play may go. */
  type Slots = map<JobKey, Slot>

  /** The partition is one that the key goes to on some day. */
  ghost predicate GoesTo(slot: Slot, partition: string) {
    exists today :: slot.partitionOn(today) == partition
  }

  /** Keys of one API that end in the same characters never go to the same partition. */
  ghost predicate SlotsDistinct(slots: Slots) {
    forall k, l, partition {:trigger GoesTo(slots[k], partition), GoesTo(slots[l], partition)} |
      k in slots && l in slots && k.apiName == l.apiName && slots[k].tail == slots[l].tail
      && GoesTo(slots[k], partition) && GoesTo(slots[l], partition) :: k == l
  }

  /** The path is one that a fetch of this key may write, on whatever day. */
  ghost predicate Owns(key: JobKey, slots: Slots, p: Path)
    requires key in slots
  {
    match p
    case RawPath(_, _, k) => k == key
    case LakePath(api, partition, tail) =>
      api == key.apiName && tail == slots[key].tail && GoesTo(slots[key], partition)
  }

  lemma {:induction false} OwnersAreUnique(k: JobKey, l: JobKey, slots: Slots, p: Path)
    requires SlotsDistinct(slots) && k in slots && l in slots && Owns(k, slots, p) && Owns(l, slots, p)
    ensures k == l
  {}

  // ---- the invariant ----

  /** A file of the latest snapshot of its API. */
  ghost predicate Live(c: Cat, f: int) {
    0 <= f < |c.files| && f in HeadFiles(c, c.files[f].apiName)
  }

  /** The chain is sound, and every file of a latest snapshot has a row. */
  ghost predicate Listed(c: Cat) {
    && ChainOk(c)
    && forall a, f {:trigger f in HeadFiles(c, a)} | f in HeadFiles(c, a) :: f < |c.files|
  }

  ghost predicate RowOk(row: FileRow, slots: Slots) {
    && row.status.Current? && row.key in slots && row.apiName == row.key.apiName
    && Owns(row.key, slots, row.path)
    && match row.contentType
       case Raw => row.path.RawPath?
       case Lake => row.path.LakePath? && row.recordCount.Some?
       case _ => false
  }

  ghost predicate HeadRowsOk(c: Cat, slots: Slots) {
    forall a, f {:trigger f in HeadFiles(c, a)} | f in HeadFiles(c, a) ::
      f < |c.files| && c.files[f].apiName == a && RowOk(c.files[f], slots)
  }

  /** Validation of the committed file would find nothing wrong. */
  ghost predicate Intact(w: World, f: int)
    requires 0 <= f < |w.cat.files|
  {
    FileFailures(w.cat.files[f], Find(w.disk.final, w.cat.files[f].path)) == []
  }

  ghost predicate AllIntact(w: World) {
    forall f | Live(w.cat, f) :: Intact(w, f)
  }

  /** The latest snapshots hold at most one raw and one lake file of a job. */
  ghost predicate OnePerJob(c: Cat) {
    forall f, g | Live(c, f) && Live(c, g) && c.files[f].key == c.files[g].key
                  && c.files[f].contentType == c.files[g].contentType :: f == g
  }

  ghost predicate HasLakeFile(c: Cat, key: JobKey) {
    exists f :: Live(c, f) && c.files[f].key == key && c.files[f].contentType.Lake?
  }

  ghost predicate JobsOk(c: Cat) {
    && (forall k | IsDone(c, k) :: HasLakeFile(c, k))
    && (forall f | Live(c, f) ::
          && IsDone(c, c.files[f].key)
          && (c.files[f].contentType.Lake? ==> c.jobs[c.files[f].key].recordCount == c.files[f].recordCount))
  }

  ghost predicate Inv(w: World, slots: Slots) {
    && ChainOk(w.cat) && HeadRowsOk(w.cat, slots) && AllIntact(w) && OnePerJob(w.cat) && JobsOk(w.cat)
  }

  /** No two live files of any API share a path. */
  lemma {:induction false} LivePathsDiffer(w: World, slots: Slots, f: FileId, g: FileId)
    requires Inv(w, slots) && SlotsDistinct(slots) && Live(w.cat, f) && Live(w.cat, g) && f != g
    ensures w.cat.files[f].path != w.cat.files[g].path
  {
    var a, b := w.cat.files[f], w.cat.files[g];
    assert RowOk(a, slots) && RowOk(b, slots);
    if a.path == b.path {
      OwnersAreUnique(a.key, b.key, slots, a.path);
    }
  }

  lemma {:induction false} CurrentIsActive(c: Cat, key: JobKey, f: FileId)
    requires f < |c.files| && f in HeadFiles(c, key.apiName)
    requires c.files[f].contentType.Lake? && c.files[f].key == key && c.files[f].status.Current?
    ensures f in ActiveLakeFiles(c, key)
  {}

  lemma {:induction false} DoneHasActive(w: World, slots: Slots, key: JobKey)
    requires Inv(w, slots) && IsDone(w.cat, key)
    ensures ActiveLakeFiles(w.cat, key) != {}
  {
    assert HasLakeFile(w.cat, key);
    var f :| Live(w.cat, f) && w.cat.files[f].key == key && w.cat.files[f].contentType.Lake?;
    assert RowOk(w.cat.files[f], slots);
    CurrentIsActive(w.cat, key, f);
  }

  /** A job is done exactly when the latest snapshot of its API has an active lake file of it. */
  lemma {:induction false} DoneIffActive(w: World, slots: Slots, key: JobKey)
    requires Inv(w, slots)
    ensures IsDone(w.cat, key) <==> ActiveLakeFiles(w.cat, key) != {}
    ensures IsDone(w.cat, key) <==> ExistingActiveData(w.cat, key)
  {
    if IsDone(w.cat, key) {
      DoneHasActive(w, slots, key);
    } else {
      forall f | f in ActiveLakeFiles(w.cat, key)
        ensures false
      {
        assert w.cat.files[f].apiName == key.apiName && Live(w.cat, f);
      }
    }
  }

  /** What a catalog keeps whatever happens: files of latest snapshots have rows, and every done job
      has an active lake file. */
  ghost predicate Orderly(c: Cat) {
    Listed(c) && forall k | IsDone(c, k) :: ActiveLakeFiles(c, k) != {}
  }

  lemma {:induction false} InvIsOrderly(w: World, slots: Slots)
    requires Inv(w, slots)
    ensures Orderly(w.cat)
  {
    forall k | IsDone(w.cat, k)
      ensures ActiveLakeFiles(w.cat, k) != {}
    {
      DoneHasActive(w, slots, k);
    }
  }

  lemma {:induction false} EmptyInv(slots: Slots)
    ensures Inv(EMPTY_LAKE, slots)
  {}

  // ---- everything a fetch does before it commits ----

  ghost predicate ApartDisk(d: Disk, e: Disk, key: JobKey, slots: Slots)
    requires key in slots
  {
    forall p {:trigger Find(e.final, p)} | !Owns(key, slots, p) :: Find(e.final, p) == Find(d.final, p)
  }

  ghost predicate ApartFiles(c: Cat, d: Cat, key: JobKey) {
    && |c.files| <= |d.files|
    && (forall f | 0 <= f < |c.files| :: d.files[f] == c.files[f])
    && (forall f | |c.files| <= f < |d.files| ::
          d.files[f].addedBy.None? && d.files[f].key == key && d.files[f].status.Staged?)
  }

  ghost predicate ApartJobs(c: Cat, d: Cat, key: JobKey) {
    && (forall k {:trigger Find(d.jobs, k)} | k != key :: Find(d.jobs, k) == Find(c.jobs, k))
    && !IsDone(d, key)
  }

  ghost predicate ApartQuarantine(c: Cat, d: Cat, key: JobKey) {
    && |c.quarantine| <= |d.quarantine|
    && (forall q | 0 <= q < |c.quarantine| :: d.quarantine[q] == c.quarantine[q])
    && (forall q | |c.quarantine| <= q < |d.quarantine| :: d.quarantine[q].key == key)
  }

  /** From v to w nothing has changed that another job can see: the snapshots are the same, and
      new rows and new contents belong to the job, which is not done. */
  ghost predicate Apart(v: World, w: World, key: JobKey, slots: Slots)
    requires key in slots
  {
    && w.cat.snapshots == v.cat.snapshots
    && ApartDisk(v.disk, w.disk, key, slots)
    && ApartFiles(v.cat, w.cat, key)
    && ApartJobs(v.cat, w.cat, key)
    && ApartQuarantine(v.cat, w.cat, key)
  }

  /** The actions that keep a fetch apart. `base` is where its own file rows begin. */
  ghost predicate Harmless(a: Action, key: JobKey, slots: Slots, base: nat)
    requires key in slots
  {
    match a
    case BeginJob(k, _) => k == key
    case FailJob(k, _) => k == key
    case StageFile(row) => row.key == key && row.addedBy.None? && row.status.Staged?
    case Publish(_, _, path) => Owns(key, slots, path)
    case Restage(f) => f >= base
    case NoteQuarantine(entry) => entry.key == key
    case Commit(_, _, _, _) => false
    case FinishJob(_, _, _, _) => false
    case _ => true
  }

  lemma {:induction false} HarmlessOnDisk(a: Action, d: Disk, e: Disk, key: JobKey, slots: Slots, base: nat)
    requires key in slots && Harmless(a, key, slots, base) && ApartDisk(d, e, key, slots)
    ensures ApartDisk(d, ApplyDisk(a, e), key, slots)
  {
    forall p | !Owns(key, slots, p)
      ensures Find(ApplyDisk(a, e).final, p) == Find(d.final, p)
    {
      assert Find(e.final, p) == Find(d.final, p);
    }
  }

  lemma {:induction false} HarmlessOnFiles(a: Action, c: Cat, d: Cat, key: JobKey, slots: Slots)
    requires key in slots && Harmless(a, key, slots, |c.files|) && ApartFiles(c, d, key)
    ensures ApartFiles(c, ApplyCat(a, d), key)
  {}

  lemma {:induction false} HarmlessOnJobs(a: Action, c: Cat, d: Cat, key: JobKey, slots: Slots, base: nat)
    requires key in slots && Harmless(a, key, slots, base) && ApartJobs(c, d, key)
    ensures ApartJobs(c, ApplyCat(a, d), key)
  {
    forall k | k != key
      ensures Find(ApplyCat(a, d).jobs, k) == Find(c.jobs, k)
    {
      assert Find(d.jobs, k) == Find(c.jobs, k);
    }
  }

  lemma {:induction false} HarmlessOnQuarantine(a: Action, c: Cat, d: Cat, key: JobKey, slots: Slots, base: nat)
    requires key in slots && Harmless(a, key, slots, base) && ApartQuarantine(c, d, key)
    ensures ApartQuarantine(c, ApplyCat(a, d), key) && ApplyCat(a, d).snapshots == d.snapshots
  {}

  lemma {:induction false} ApplyApart(a: Action, v: World, w: World, key: JobKey, slots: Slots)
    requires key in slots && Harmless(a, key, slots, |v.cat.files|) && Apart(v, w, key, slots)
    ensures Apart(v, Apply(a, w), key, slots)
  {
    HarmlessOnDisk(a, v.disk, w.disk, key, slots, |v.cat.files|);
    HarmlessOnFiles(a, v.cat, w.cat, key, slots);
    HarmlessOnJobs(a, v.cat, w.cat, key, slots, |v.cat.files|);
    HarmlessOnQuarantine(a, v.cat, w.cat, key, slots, |v.cat.files|);
  }

  ghost predicate AllHarmless(actions: seq<Action>, key: JobKey, slots: Slots, base: nat)
    requires key in slots
  {
    forall i | 0 <= i < |actions| :: Harmless(actions[i], key, slots, base)
  }

  lemma {:induction false} ApplyAllApart(actions: seq<Action>, v: World, w: World, key: JobKey, slots: Slots)
    requires key in slots && AllHarmless(actions, key, slots, |v.cat.files|) && Apart(v, w, key, slots)
    ensures Apart(v, ApplyAll(actions, w), key, slots)
  {
    if actions != [] {
      var n := |actions| - 1;
      ApplyAllApart(actions[..n], v, w, key, slots);
      ApplyApart(actions[n], v, ApplyAll(actions[..n], w), key, slots);
    }
  }

  lemma {:induction false} InterruptedApart(a: Action, v: World, w: World, residue: Residue, key: JobKey, slots: Slots)
    requires key in slots && Apart(v, w, key, slots)
    ensures Apart(v, Interrupted(a, w, residue), key, slots)
  {}

  /** A stretch of harmless actions stays apart however it ends. */
  lemma {:induction false} PerformApart(actions: seq<Action>, fault: Fault, v: World, w: World, key: JobKey,
                                        slots: Slots)
    requires key in slots && AllHarmless(actions, key, slots, |v.cat.files|) && Apart(v, w, key, slots)
    ensures Apart(v, Perform(actions, fault, w).w, key, slots)
  {
    if Strikes(fault, actions) {
      var before := ApplyAll(actions[..fault.at], w);
      ApplyAllApart(actions[..fault.at], v, w, key, slots);
      InterruptedApart(actions[fault.at], v, before, fault.residue, key, slots);
    } else {
      ApplyAllApart(actions, v, w, key, slots);
    }
  }

  // ---- staying apart keeps the invariant ----

  lemma {:induction false} NotDoneNotLive(w: World, slots: Slots, key: JobKey, f: FileId)
    requires Inv(w, slots) && !IsDone(w.cat, key) && Live(w.cat, f)
    ensures w.cat.files[f].key != key
  {}

  lemma {:induction false} ApartSameHead(v: World, w: World, key: JobKey, slots: Slots)
    requires key in slots && Listed(v.cat) && Apart(v, w, key, slots)
    ensures Listed(w.cat) && forall a :: HeadFiles(w.cat, a) == HeadFiles(v.cat, a)
    ensures forall f :: Live(w.cat, f) <==> Live(v.cat, f)
    ensures forall f | Live(v.cat, f) :: w.cat.files[f] == v.cat.files[f]
  {
    OthersKeepChain(v.cat, w.cat);
    forall a, f | f in HeadFiles(w.cat, a)
      ensures f < |w.cat.files|
    {
      assert f in HeadFiles(v.cat, a);
    }
    forall f
      ensures Live(w.cat, f) <==> Live(v.cat, f)
    {
      if Live(w.cat, f) {
        assert f in HeadFiles(v.cat, w.cat.files[f].apiName);
      }
    }
  }

  lemma {:induction false} ApartKeepsIntact(v: World, w: World, key: JobKey, slots: Slots, f: FileId)
    requires SlotsDistinct(slots) && key in slots && Inv(v, slots) && Apart(v, w, key, slots) && !IsDone(v.cat, key)
    requires Live(v.cat, f)
    ensures f < |w.cat.files| && Intact(w, f)
    ensures Find(w.disk.final, v.cat.files[f].path) == Find(v.disk.final, v.cat.files[f].path)
  {
    var row := v.cat.files[f];
    assert RowOk(row, slots) && Intact(v, f);
    NotDoneNotLive(v, slots, key, f);
    if Owns(key, slots, row.path) {
      OwnersAreUnique(key, row.key, slots, row.path);
    }
    assert Find(w.disk.final, row.path) == Find(v.disk.final, row.path);
  }

  lemma {:induction false} ApartKeepsDone(v: World, w: World, key: JobKey, slots: Slots, k: JobKey)
    requires key in slots && Inv(v, slots) && Apart(v, w, key, slots) && IsDone(w.cat, k)
    ensures HasLakeFile(w.cat, k)
  {
    ApartSameHead(v, w, key, slots);
    assert k != key && Find(w.cat.jobs, k) == Find(v.cat.jobs, k);
    assert IsDone(v.cat, k) && HasLakeFile(v.cat, k);
    var f :| Live(v.cat, f) && v.cat.files[f].key == k && v.cat.files[f].contentType.Lake?;
    assert Live(w.cat, f);
  }

  lemma {:induction false} ApartKeepsJobs(v: World, w: World, key: JobKey, slots: Slots)
    requires key in slots && Inv(v, slots) && Apart(v, w, key, slots) && !IsDone(v.cat, key)
    ensures JobsOk(w.cat)
  {
    ApartSameHead(v, w, key, slots);
    forall k | IsDone(w.cat, k)
      ensures HasLakeFile(w.cat, k)
    {
      ApartKeepsDone(v, w, key, slots, k);
    }
    forall f | Live(w.cat, f)
      ensures IsDone(w.cat, w.cat.files[f].key)
      ensures w.cat.files[f].contentType.Lake? ==>
                w.cat.jobs[w.cat.files[f].key].recordCount == w.cat.files[f].recordCount
    {
      assert Live(v.cat, f);
      NotDoneNotLive(v, slots, key, f);
      assert Find(w.cat.jobs, w.cat.files[f].key) == Find(v.cat.jobs, w.cat.files[f].key);
    }
  }

  lemma {:induction false} ApartKeepsInv(v: World, w: World, key: JobKey, slots: Slots)
    requires SlotsDistinct(slots) && key in slots && Inv(v, slots) && Apart(v, w, key, slots) && !IsDone(v.cat, key)
    ensures Inv(w, slots)
  {
    ApartSameHead(v, w, key, slots);
    ApartKeepsJobs(v, w, key, slots);
    forall f | Live(w.cat, f)
      ensures Intact(w, f)
    {
      ApartKeepsIntact(v, w, key, slots, f);
    }
    forall a, f | f in HeadFiles(w.cat, a)
      ensures f < |w.cat.files| && w.cat.files[f].apiName == a && RowOk(w.cat.files[f], slots)
    {
      assert f in HeadFiles(v.cat, a) && Live(v.cat, f);
    }
  }

  // ---- the commit ----

  /** What a fetch is about to commit: its two files and the counts for the job row. */
  datatype Publication = Publication(key: JobKey, runId: RunId, rawId: FileId, lakeId: FileId,
                                     recordCount: nat, sourceItemCount: nat, rawEventCount: nat)

  /** The two files of the job are ready: new rows, and contents at their final paths that
      validation accepts. */
  ghost predicate Ready(v: World, w: World, slots: Slots, p: Publication)
    requires p.key in slots
  {
    && Apart(v, w, p.key, slots) && p.key in w.cat.jobs
    && |v.cat.files| <= p.rawId < |w.cat.files| && |v.cat.files| <= p.lakeId < |w.cat.files| && p.rawId != p.lakeId
    && ReadyRow(w, p.key, slots, p.rawId, Raw) && ReadyRow(w, p.key, slots, p.lakeId, Lake)
    && w.cat.files[p.lakeId].recordCount == Some(p.recordCount)
  }

  ghost predicate ReadyRow(w: World, key: JobKey, slots: Slots, f: FileId, contentType: ContentType)
    requires key in slots && f < |w.cat.files|
  {
    var row := w.cat.files[f];
    && row.key == key && row.apiName == key.apiName && row.contentType == contentType
    && Owns(key, slots, row.path) && (if contentType.Raw? then row.path.RawPath? else row.path.LakePath?)
    && Intact(w, f)
  }

  ghost function CommittedCat(c: Cat, p: Publication): Cat {
    CommitSnapshot(c, p.key.apiName, [p.rawId, p.lakeId], p.runId, p.key, p.key.params)
  }

  /** The world after the commit and the update of the job row. */
  ghost function CommittedWorld(w: World, p: Publication): World {
    World(w.disk, MarkDone(CommittedCat(w.cat, p), p.key, p.recordCount, p.sourceItemCount, p.rawEventCount))
  }

  lemma {:induction false} CommitChain(v: World, w: World, slots: Slots, p: Publication)
    requires p.key in slots && Listed(v.cat) && Ready(v, w, slots, p)
    ensures ChainOk(w.cat) && ChainOk(CommittedCat(w.cat, p))
    ensures ChainOk(CommittedWorld(w, p).cat)
    ensures forall a :: HeadFiles(CommittedWorld(w, p).cat, a) == HeadFiles(CommittedCat(w.cat, p), a)
  {
    ApartSameHead(v, w, p.key, slots);
    CommitKeepsChain(w.cat, p.key.apiName, [p.rawId, p.lakeId], p.runId, p.key, p.key.params);
    OthersKeepChain(CommittedCat(w.cat, p), CommittedWorld(w, p).cat);
  }

  lemma {:induction false} CommittedHeads(c: Cat, p: Publication, a: string)
    requires ChainOk(c)
    ensures HeadFiles(CommittedCat(c, p), a) == HeadFiles(c, a) + if a == p.key.apiName then {p.rawId, p.lakeId} else {}
  {
    CommitHeadFiles(c, CommittedCat(c, p), p.key.apiName, [p.rawId, p.lakeId], p.runId, p.key, p.key.params, a);
    assert (set f | f in [p.rawId, p.lakeId]) == {p.rawId, p.lakeId};
  }

  /** Which files are in the latest snapshots after the commit. */
  lemma {:induction false} CommitLive(v: World, w: World, slots: Slots, p: Publication, a: string)
    requires p.key in slots && Listed(v.cat) && Ready(v, w, slots, p)
    ensures HeadFiles(CommittedWorld(w, p).cat, a)
            == HeadFiles(v.cat, a) + if a == p.key.apiName then {p.rawId, p.lakeId} else {}
  {
    assert HeadFiles(CommittedWorld(w, p).cat, a) == HeadFiles(CommittedCat(w.cat, p), a) by {
      CommitChain(v, w, slots, p);
    }
    assert ChainOk(w.cat) && HeadFiles(w.cat, a) == HeadFiles(v.cat, a) by {
      ApartSameHead(v, w, p.key, slots);
    }
    CommittedHeads(w.cat, p, a);
  }

  /** The rows after the commit: the two new ones are current, the live ones as they were. */
  lemma {:induction false} CommitRows(v: World, w: World, slots: Slots, p: Publication)
    requires p.key in slots && Ready(v, w, slots, p)
    ensures var d := CommittedWorld(w, p);
            && |d.cat.files| == |w.cat.files|
            && d.cat.files[p.rawId] == CommittedRow(w.cat.files[p.rawId], |w.cat.snapshots|)
            && d.cat.files[p.lakeId] == CommittedRow(w.cat.files[p.lakeId], |w.cat.snapshots|)
            && forall f | 0 <= f < |v.cat.files| :: d.cat.files[f] == v.cat.files[f]
  {}

  /** A file is live after the commit iff it was before or is one of the two. */
  lemma {:induction false} CommitLiveIff(v: World, w: World, slots: Slots, p: Publication, f: int)
    requires p.key in slots && Listed(v.cat) && Ready(v, w, slots, p)
    ensures var d := CommittedWorld(w, p);
            Live(d.cat, f) <==> Live(v.cat, f) || f == p.rawId || f == p.lakeId
  {
    CommitRows(v, w, slots, p);
    var d := CommittedWorld(w, p);
    if 0 <= f < |d.cat.files| {
      CommitLive(v, w, slots, p, d.cat.files[f].apiName);
    }
    if Live(d.cat, f) && f != p.rawId && f != p.lakeId {
      assert f in HeadFiles(v.cat, d.cat.files[f].apiName);
    }
  }

  lemma {:induction false} NewRowOk(w: World, slots: Slots, p: Publication, f: FileId, contentType: ContentType)
    requires p.key in slots && f < |w.cat.files| && ReadyRow(w, p.key, slots, f, contentType)
    requires contentType.Raw? || (contentType.Lake? && w.cat.files[f].recordCount.Some?)
    ensures RowOk(CommittedRow(w.cat.files[f], |w.cat.snapshots|), slots)
  {}

  ghost predicate RowIn(c: Cat, slots: Slots, a: string, f: FileId) {
    f < |c.files| && c.files[f].apiName == a && RowOk(c.files[f], slots)
  }

  lemma {:induction false} CommitKeepsOldRow(v: World, w: World, slots: Slots, p: Publication, a: string, f: FileId)
    requires p.key in slots && HeadRowsOk(v.cat, slots) && Ready(v, w, slots, p) && f in HeadFiles(v.cat, a)
    ensures RowIn(CommittedWorld(w, p).cat, slots, a, f)
  {
    assert RowIn(v.cat, slots, a, f);
    assert CommittedWorld(w, p).cat.files[f] == v.cat.files[f] by {
      CommitRows(v, w, slots, p);
    }
  }

  lemma {:induction false} CommitAddsRow(v: World, w: World, slots: Slots, p: Publication, f: FileId,
                                         contentType: ContentType)
    requires p.key in slots && Ready(v, w, slots, p)
    requires (f == p.rawId && contentType.Raw?) || (f == p.lakeId && contentType.Lake?)
    ensures RowIn(CommittedWorld(w, p).cat, slots, p.key.apiName, f)
  {
    NewRowOk(w, slots, p, f, contentType);
    CommitRows(v, w, slots, p);
  }

  /** The files of a latest snapshot after the commit: old ones, or one of the two new ones. */
  lemma {:induction false} CommitRowsOk(c: Cat, slots: Slots, a: string, before: set<FileId>, rawId: FileId,
                                        lakeId: FileId, api: string)
    requires HeadFiles(c, a) == before + if a == api then {rawId, lakeId} else {}
    requires forall f | f in before :: RowIn(c, slots, a, f)
    requires RowIn(c, slots, api, rawId) && RowIn(c, slots, api, lakeId)
    ensures forall f | f in HeadFiles(c, a) :: RowIn(c, slots, a, f)
  {}

  lemma {:induction false} CommitKeepsRowsOf(v: World, w: World, slots: Slots, p: Publication, a: string)
    requires p.key in slots && Listed(v.cat) && HeadRowsOk(v.cat, slots) && Ready(v, w, slots, p)
    ensures forall f | f in HeadFiles(CommittedWorld(w, p).cat, a) :: RowIn(CommittedWorld(w, p).cat, slots, a, f)
  {
    CommitLive(v, w, slots, p, a);
    forall f | f in HeadFiles(v.cat, a)
      ensures RowIn(CommittedWorld(w, p).cat, slots, a, f)
    {
      CommitKeepsOldRow(v, w, slots, p, a, f);
    }
    CommitAddsRow(v, w, slots, p, p.rawId, Raw);
    CommitAddsRow(v, w, slots, p, p.lakeId, Lake);
    CommitRowsOk(CommittedWorld(w, p).cat, slots, a, HeadFiles(v.cat, a), p.rawId, p.lakeId, p.key.apiName);
  }

  lemma {:induction false} CommitKeepsRow(v: World, w: World, slots: Slots, p: Publication, a: string, f: FileId)
    requires p.key in slots && Listed(v.cat) && HeadRowsOk(v.cat, slots) && Ready(v, w, slots, p)
    requires f in HeadFiles(CommittedWorld(w, p).cat, a)
    ensures RowIn(CommittedWorld(w, p).cat, slots, a, f)
  {
    CommitKeepsRowsOf(v, w, slots, p, a);
  }

  lemma {:induction false} RowsInAreOk(c: Cat, slots: Slots)
    requires forall a, f {:trigger f in HeadFiles(c, a)} | f in HeadFiles(c, a) :: RowIn(c, slots, a, f)
    ensures HeadRowsOk(c, slots)
  {}

  lemma {:induction false} CommitKeepsRows(v: World, w: World, slots: Slots, p: Publication)
    requires p.key in slots && Listed(v.cat) && HeadRowsOk(v.cat, slots) && Ready(v, w, slots, p)
    ensures HeadRowsOk(CommittedWorld(w, p).cat, slots)
  {
    var c := CommittedWorld(w, p).cat;
    forall a, f | f in HeadFiles(c, a)
      ensures RowIn(c, slots, a, f)
    {
      CommitKeepsRow(v, w, slots, p, a, f);
    }
    RowsInAreOk(c, slots);
  }

  lemma {:induction false} CommitKeepsFile(v: World, w: World, slots: Slots, p: Publication, f: FileId)
    requires SlotsDistinct(slots) && p.key in slots && !IsDone(v.cat, p.key)
    requires Inv(v, slots) && Ready(v, w, slots, p) && (Live(v.cat, f) || f == p.rawId || f == p.lakeId)
    ensures f < |CommittedWorld(w, p).cat.files| && Intact(CommittedWorld(w, p), f)
  {
    CommitRows(v, w, slots, p);
    if f != p.rawId && f != p.lakeId {
      ApartKeepsIntact(v, w, p.key, slots, f);
      assert w.cat.files[f] == v.cat.files[f];
    }
  }

  lemma {:induction false} CommitKeepsIntact(v: World, w: World, slots: Slots, p: Publication)
    requires SlotsDistinct(slots) && p.key in slots && !IsDone(v.cat, p.key)
    requires Inv(v, slots) && Ready(v, w, slots, p)
    ensures AllIntact(CommittedWorld(w, p))
  {
    var d := CommittedWorld(w, p);
    forall f | Live(d.cat, f)
      ensures Intact(d, f)
    {
      CommitLiveIff(v, w, slots, p, f);
      CommitKeepsFile(v, w, slots, p, f);
    }
  }

  lemma {:induction false} CommitKeepsOnePerJob(v: World, w: World, slots: Slots, p: Publication)
    requires p.key in slots && !IsDone(v.cat, p.key) && Inv(v, slots) && Ready(v, w, slots, p)
    ensures OnePerJob(CommittedWorld(w, p).cat)
  {
    CommitRows(v, w, slots, p);
    var d := CommittedWorld(w, p);
    forall f, g | Live(d.cat, f) && Live(d.cat, g) && d.cat.files[f].key == d.cat.files[g].key
                  && d.cat.files[f].contentType == d.cat.files[g].contentType
      ensures f == g
    {
      CommitLiveIff(v, w, slots, p, f);
      CommitLiveIff(v, w, slots, p, g);
      if Live(v.cat, f) {
        NotDoneNotLive(v, slots, p.key, f);
      }
      if Live(v.cat, g) {
        NotDoneNotLive(v, slots, p.key, g);
      }
    }
  }

  lemma {:induction false} CommitJobs(v: World, w: World, slots: Slots, p: Publication, k: JobKey)
    requires p.key in slots && Ready(v, w, slots, p)
    ensures var d := CommittedWorld(w, p);
            if k == p.key then IsDone(d.cat, k) && d.cat.jobs[k].recordCount == Some(p.recordCount)
            else Find(d.cat.jobs, k) == Find(v.cat.jobs, k)
  {
    if k != p.key {
      assert Find(w.cat.jobs, k) == Find(v.cat.jobs, k);
    }
  }

  lemma {:induction false} CommitKeepsLakeFile(v: World, w: World, slots: Slots, p: Publication, f: int)
    requires p.key in slots && Inv(v, slots) && Ready(v, w, slots, p)
    requires (Live(v.cat, f) && v.cat.files[f].contentType.Lake?) || f == p.lakeId
    ensures var d := CommittedWorld(w, p).cat;
            Live(d, f) && d.files[f].contentType.Lake?
                && d.files[f].key == if f == p.lakeId then p.key else v.cat.files[f].key
  {
    CommitRows(v, w, slots, p);
    CommitLiveIff(v, w, slots, p, f);
  }

  lemma {:induction false} CommitKeepsDone(v: World, w: World, slots: Slots, p: Publication, k: JobKey)
    requires p.key in slots && Inv(v, slots) && Ready(v, w, slots, p)
    requires IsDone(CommittedWorld(w, p).cat, k)
    ensures HasLakeFile(CommittedWorld(w, p).cat, k)
  {
    CommitJobs(v, w, slots, p, k);
    if k == p.key {
      CommitKeepsLakeFile(v, w, slots, p, p.lakeId);
    } else {
      assert IsDone(v.cat, k);
      assert HasLakeFile(v.cat, k);
      var f :| Live(v.cat, f) && v.cat.files[f].key == k && v.cat.files[f].contentType.Lake?;
      CommitKeepsLakeFile(v, w, slots, p, f);
    }
  }

  lemma {:induction false} CommitKeepsLiveDone(v: World, w: World, slots: Slots, p: Publication, f: int)
    requires p.key in slots && !IsDone(v.cat, p.key) && Inv(v, slots) && Ready(v, w, slots, p)
    requires Live(CommittedWorld(w, p).cat, f)
    ensures var c := CommittedWorld(w, p).cat;
            && IsDone(c, c.files[f].key)
            && (c.files[f].contentType.Lake? ==> c.jobs[c.files[f].key].recordCount == c.files[f].recordCount)
  {
    CommitRows(v, w, slots, p);
    CommitLiveIff(v, w, slots, p, f);
    var c := CommittedWorld(w, p).cat;
    CommitJobs(v, w, slots, p, c.files[f].key);
    if f != p.rawId && f != p.lakeId {
      NotDoneNotLive(v, slots, p.key, f);
    }
  }

  /** Committing a job that is ready keeps the invariant. */
  lemma {:induction false} CommitKeepsInv(v: World, w: World, slots: Slots, p: Publication)
    requires SlotsDistinct(slots) && p.key in slots && !IsDone(v.cat, p.key)
    requires Inv(v, slots) && Ready(v, w, slots, p)
    ensures Inv(CommittedWorld(w, p), slots)
  {
    CommitChain(v, w, slots, p);
    CommitKeepsRows(v, w, slots, p);
    CommitKeepsIntact(v, w, slots, p);
    CommitKeepsOnePerJob(v, w, slots, p);
    var c := CommittedWorld(w, p).cat;
    forall k | IsDone(c, k)
      ensures HasLakeFile(c, k)
    {
      CommitKeepsDone(v, w, slots, p, k);
    }
    forall f | Live(c, f)
      ensures IsDone(c, c.files[f].key)
      ensures c.files[f].contentType.Lake? ==> c.jobs[c.files[f].key].recordCount == c.files[f].recordCount
    {
      CommitKeepsLiveDone(v, w, slots, p, f);
    }
  }
}
