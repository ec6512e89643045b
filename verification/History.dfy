/** Reading an earlier snapshot: whatever is fetched afterwards, and whatever goes wrong in it, a
    snapshot keeps its files, and in a lake in order their rows and contents. */
module History {
  import opened Wrappers
  import opened Catalog
  import opened Snapshots
  import opened Store
  import opened Safety
  import opened Runs
  import opened Durability
  import opened Reader
  import Schema

  /** Every snapshot is still there, with the files it had and its place in the chain; at most it is no
      longer current. */
  ghost predicate SnapshotsStay(c: Cat, d: Cat) {
    |c.snapshots| <= |d.snapshots| && forall s | 0 <= s < |c.snapshots| :: StaysAt(c, d, s)
  }

  ghost predicate StaysAt(c: Cat, d: Cat, s: int)
    requires 0 <= s < |c.snapshots| <= |d.snapshots|
  {
    d.snapshots[s].(current := false) == c.snapshots[s].(current := false)
    && (d.snapshots[s].current ==> c.snapshots[s].current)
  }

  lemma {:induction false} CommitKeepsSnapshots(c: Cat, apiName: string, newFiles: seq<FileId>, runId: nat, key: JobKey)
    ensures SnapshotsStay(c, CommitSnapshot(c, apiName, newFiles, runId, key, key.params))
  {}

  /** No fetch, however it ends, takes a snapshot away or changes what it holds. */
  lemma {:induction false} FetchKeepsSnapshots(text: Schema.Text, w: World, req: Request, slots: Slots, sc: Script)
    requires Orderly(w.cat) && req.key in slots
    ensures SnapshotsStay(w.cat, Fetch(text, w, req, slots[req.key], sc).w.cat)
  {
    FetchEnded(text, w, req, slots, sc);
    var e := Fetch(text, w, req, slots[req.key], sc);
    if !IsDone(w.cat, req.key) && !EndedApart(w, e, req.key, slots) {
      var x: World, p: Publication :| p.key == req.key && Past(w, x, e.w, slots, p);
      PastKeepsSnapshots(w, x, e.w, slots, p);
    }
  }

  lemma {:induction false} PastKeepsSnapshots(v: World, x: World, y: World, slots: Slots, p: Publication)
    requires p.key in slots && Past(v, x, y, slots, p)
    ensures SnapshotsStay(v.cat, y.cat)
  {
    assert x.cat.snapshots == v.cat.snapshots;
    CommitKeepsSnapshots(x.cat, p.key.apiName, [p.rawId, p.lakeId], p.runId, p.key);
  }

  lemma {:induction false} SnapshotsStayOn(c: Cat, d: Cat, e: Cat)
    requires SnapshotsStay(c, d) && SnapshotsStay(d, e)
    ensures SnapshotsStay(c, e)
  {
    forall s | 0 <= s < |c.snapshots|
      ensures StaysAt(c, e, s)
    {
      assert StaysAt(c, d, s) && StaysAt(d, e, s);
    }
  }

  /** Nor does any run of fetches, with any faults. */
  lemma {:induction false} RunsKeepSnapshots(text: Schema.Text, w: World, slots: Slots, commands: seq<Command>)
    requires Orderly(w.cat) && Known(commands, slots)
    ensures SnapshotsStay(w.cat, RunAll(text, w, slots, commands).cat)
    decreases |commands|
  {
    if commands != [] {
      var c := commands[0];
      var next := Fetch(text, w, c.req, slots[c.req.key], c.sc).w;
      FetchKeepsSnapshots(text, w, c.req, slots, c.sc);
      FetchKeepsOrder(text, w, c.req, slots, c.sc);
      RunsKeepSnapshots(text, next, slots, commands[1..]);
      SnapshotsStayOn(w.cat, next.cat, RunAll(text, next, slots, commands[1..]).cat);
    }
  }

  lemma {:induction false} OfSnapshotIsLive(w: World, slots: Slots, s: SnapshotId, f: FileId)
    requires Inv(w, slots) && s < |w.cat.snapshots| && f in w.cat.snapshots[s].files
    ensures Live(w.cat, f)
  {
    assert UnderHead(w.cat, s);
    assert f in HeadFiles(w.cat, w.cat.snapshots[s].apiName);
  }

  /** A snapshot of a lake in order, read by its id after any run of fetches with any faults, reads as
      it did before: the same files, with the same rows and the same contents. */
  lemma {:induction false} OldSnapshotsReadTheSame(text: Schema.Text, w: World, slots: Slots, commands: seq<Command>,
                                                   apiName: string, s: SnapshotId)
    requires SlotsDistinct(slots) && Inv(w, slots) && Known(commands, slots) && s < |w.cat.snapshots|
    ensures var x := RunAll(text, w, slots, commands);
            && ListActiveFiles(x.cat, apiName, Some(s)) == ListActiveFiles(w.cat, apiName, Some(s))
            && forall f | f in ListActiveFiles(w.cat, apiName, Some(s)) ::
                 x.cat.files[f] == w.cat.files[f]
                 && Find(x.disk.final, w.cat.files[f].path) == Find(w.disk.final, w.cat.files[f].path)
  {
    var x := RunAll(text, w, slots, commands);
    InvIsOrderly(w, slots);
    RunsKeepSnapshots(text, w, slots, commands);
    RunsAreDurable(text, w, slots, commands);
    assert StaysAt(w.cat, x.cat, s);
    forall f | f in w.cat.snapshots[s].files
      ensures f < |w.cat.files| && f < |x.cat.files| && x.cat.files[f] == w.cat.files[f]
      ensures Find(x.disk.final, w.cat.files[f].path) == Find(w.disk.final, w.cat.files[f].path)
    {
      OfSnapshotIsLive(w, slots, s, f);
      assert StillThere(w, x, f);
    }
  }
}
