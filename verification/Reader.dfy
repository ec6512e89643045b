/** What a reader of the lake sees of an API. */
module Reader {
  import opened Wrappers
  import opened Catalog
  import opened Store
  import opened Safety

  /** `list_active_files`: the readable lake files of a snapshot, or of the latest one. */
  function ListActiveFiles(c: Cat, apiName: string, snapshot: Option<SnapshotId>): set<FileId> {
    if snapshot.None? then
      set f | f in HeadFiles(c, apiName) && f < |c.files| && c.files[f].contentType.Lake?
              && c.files[f].status !in INACTIVE && c.files[f].status !in OUTDATED
    else if snapshot.value < |c.snapshots| then
      set f | f in c.snapshots[snapshot.value].files && f < |c.files| && c.files[f].contentType.Lake?
              && c.files[f].status !in INACTIVE
    else {}
  }

  /** Neither quarantined nor missing nor deleted nor pending to be. */
  ghost predicate Readable(status: FileStatus) {
    status.Staged? || status.Current? || status.Superseded? || status.Compacted?
  }

  /** The latest data of an API are the readable lake files of its current snapshot that no other beats,
      without those that were superseded or compacted; the data of a given snapshot are all of its
      readable lake files. */
  lemma {:induction false} ListedIff(c: Cat, apiName: string, snapshot: Option<SnapshotId>, f: int)
    ensures f in ListActiveFiles(c, apiName, snapshot) <==>
            && 0 <= f < |c.files| && c.files[f].contentType.Lake? && Readable(c.files[f].status)
            && match snapshot
               case None =>
                 && !c.files[f].status.Superseded? && !c.files[f].status.Compacted?
                 && exists s :: 0 <= s < |c.snapshots| && Unbeaten(c.snapshots, apiName, |c.snapshots|, s)
                                && f in c.snapshots[s].files
               case Some(s) => s < |c.snapshots| && f in c.snapshots[s].files
  {
    if snapshot.None? {
      if s :| 0 <= s < |c.snapshots| && Unbeaten(c.snapshots, apiName, |c.snapshots|, s)
              && f in c.snapshots[s].files {
        LatestIsUnbeaten(c.snapshots, apiName, |c.snapshots|, s);
      }
      if f in HeadFiles(c, apiName) {
        LatestBeatsAll(c.snapshots, apiName, |c.snapshots|);
      }
    }
  }

  /** The rows and the contents that reading the latest data of an API goes through. */
  function Reads(c: Cat, files: map<Path, Content>, apiName: string): map<FileId, (FileRow, Option<Content>)> {
    map f | f in ListActiveFiles(c, apiName, None) :: (c.files[f], Find(files, c.files[f].path))
  }

  /** In a lake in order the latest data of an API is exactly its live lake files. */
  lemma {:induction false} ActiveFilesAreLive(w: World, slots: Slots, a: string, f: FileId)
    requires Inv(w, slots)
    ensures f in ListActiveFiles(w.cat, a, None)
            <==> Live(w.cat, f) && w.cat.files[f].contentType.Lake? && w.cat.files[f].apiName == a
  {
    if f in HeadFiles(w.cat, a) {
      assert f < |w.cat.files| && RowOk(w.cat.files[f], slots);
    }
  }

  /** A reader sees every done job through exactly one file, with the recorded count... */
  lemma {:induction false} ReaderSeesDoneJobs(w: World, slots: Slots, key: JobKey) returns (f: FileId)
    requires Inv(w, slots) && IsDone(w.cat, key)
    ensures f in ListActiveFiles(w.cat, key.apiName, None) && w.cat.files[f].key == key
    ensures w.cat.files[f].recordCount == w.cat.jobs[key].recordCount
    ensures forall g | g in ListActiveFiles(w.cat, key.apiName, None) && w.cat.files[g].key == key :: g == f
  {
    assert HasLakeFile(w.cat, key);
    f :| Live(w.cat, f) && w.cat.files[f].key == key && w.cat.files[f].contentType.Lake?;
    assert RowOk(w.cat.files[f], slots);
    ActiveFilesAreLive(w, slots, key.apiName, f);
    forall g | g in ListActiveFiles(w.cat, key.apiName, None) && w.cat.files[g].key == key
      ensures g == f
    {
      ActiveFilesAreLive(w, slots, key.apiName, g);
    }
  }

  /** ... and no file of a job that is not done. */
  lemma {:induction false} ReaderSeesOnlyDoneJobs(w: World, slots: Slots, a: string, f: FileId)
    requires Inv(w, slots) && f in ListActiveFiles(w.cat, a, None)
    ensures IsDone(w.cat, w.cat.files[f].key) && w.cat.files[f].key.apiName == a
  {
    ActiveFilesAreLive(w, slots, a, f);
  }
}
