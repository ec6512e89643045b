/** The snapshot chain of the catalog: under a single writer every API has one current snapshot,
    its ancestors are numbered 1 to n, and no file ever leaves it. */
module Snapshots {
  import opened Wrappers
  import opened Catalog

  /** The files whose rows say that snapshot i added them. */
  ghost function AddedBy(c: Cat, i: SnapshotId): set<FileId> {
    set f: FileId | 0 <= f < |c.files| && c.files[f].addedBy == Some(i)
  }

  /** A snapshot holds its parent's files and the ones it added, and is numbered one higher. */
  ghost predicate LinkOk(c: Cat, i: SnapshotId)
    requires i < |c.snapshots|
  {
    var s := c.snapshots[i];
    match s.parent
    case None => s.sequence == 1 && s.files == AddedBy(c, i)
    case Some(p) =>
      && p < i && c.snapshots[p].apiName == s.apiName
      && s.sequence == c.snapshots[p].sequence + 1
      && s.files == c.snapshots[p].files + AddedBy(c, i)
  }

  /** Its API has a latest snapshot that holds all its files; only the latest is current. */
  ghost predicate UnderHead(c: Cat, i: SnapshotId)
    requires i < |c.snapshots|
  {
    var s := c.snapshots[i];
    var head := LatestSnapshot(c, s.apiName);
    && head.Some?
    && s.files <= c.snapshots[head.value].files
    && s.sequence <= c.snapshots[head.value].sequence
    && (s.current ==> head.value == i)
  }

  ghost predicate ChainOk(c: Cat) {
    && (forall i | 0 <= i < |c.snapshots| :: LinkOk(c, i) && UnderHead(c, i))
    && (forall i, j | 0 <= i < |c.snapshots| && 0 <= j < |c.snapshots|
                      && c.snapshots[i].apiName == c.snapshots[j].apiName
                      && c.snapshots[i].sequence == c.snapshots[j].sequence :: i == j)
    && (forall f | 0 <= f < |c.files| && c.files[f].addedBy.Some? :: c.files[f].addedBy.value < |c.snapshots|)
  }

  // ---- what every other transaction keeps ----

  /** Nothing but the slot of the file table and rows not yet committed has changed. */
  ghost predicate SameSnapshots(c: Cat, d: Cat) {
    && d.snapshots == c.snapshots
    && |c.files| <= |d.files|
    && (forall f | 0 <= f < |c.files| :: d.files[f].addedBy == c.files[f].addedBy)
    && (forall f | |c.files| <= f < |d.files| :: d.files[f].addedBy.None?)
  }

  lemma {:induction false} OthersKeepChain(c: Cat, d: Cat)
    requires ChainOk(c) && SameSnapshots(c, d)
    ensures ChainOk(d)
    ensures forall a :: HeadFiles(d, a) == HeadFiles(c, a)
  {
    forall i: SnapshotId
      ensures AddedBy(d, i) == AddedBy(c, i)
    {}
    forall i | 0 <= i < |d.snapshots|
      ensures LinkOk(d, i) && UnderHead(d, i)
    {
      assert LinkOk(c, i) && UnderHead(c, i);
    }
  }

  // ---- the commit ----

  lemma {:induction false} OnlyCurrentIsLatest(c: Cat, apiName: string, i: SnapshotId)
    requires i < |c.snapshots| && IsCurrentOf(c.snapshots[i], apiName)
    requires forall j | 0 <= j < |c.snapshots| && IsCurrentOf(c.snapshots[j], apiName) :: j == i
    ensures LatestSnapshot(c, apiName) == Some(i)
  {}

  /** The snapshots after a commit: the new one is the latest of its API, other APIs keep theirs. */
  lemma {:induction false} CommitLatest(c: Cat, d: Cat, apiName: string, newFiles: seq<FileId>, runId: RunId,
                                        key: JobKey, cursor: map<string, string>, a: string)
    requires ChainOk(c) && d == CommitSnapshot(c, apiName, newFiles, runId, key, cursor)
    ensures LatestSnapshot(d, a) == if a == apiName then Some(|c.snapshots|) else LatestSnapshot(c, a)
  {
    forall i | 0 <= i < |c.snapshots|
      ensures d.snapshots[i] == c.snapshots[i].(current := c.snapshots[i].current && c.snapshots[i].apiName != apiName)
    {
      assert UnderHead(c, i);
    }
    if a == apiName {
      OnlyCurrentIsLatest(d, a, |c.snapshots|);
    } else if LatestSnapshot(c, a).Some? {
      var head := LatestSnapshot(c, a).value;
      forall j | 0 <= j < |d.snapshots| && IsCurrentOf(d.snapshots[j], a)
        ensures j == head
      {
        assert UnderHead(c, j);
      }
      OnlyCurrentIsLatest(d, a, head);
    }
  }

  lemma {:induction false} CommitHeadFiles(c: Cat, d: Cat, apiName: string, newFiles: seq<FileId>, runId: RunId,
                                           key: JobKey, cursor: map<string, string>, a: string)
    requires ChainOk(c) && d == CommitSnapshot(c, apiName, newFiles, runId, key, cursor)
    ensures HeadFiles(d, a) == HeadFiles(c, a) + if a == apiName then set f | f in newFiles else {}
  {
    CommitLatest(c, d, apiName, newFiles, runId, key, cursor, a);
  }

  lemma {:induction false} CommitAddedBy(c: Cat, d: Cat, apiName: string, newFiles: seq<FileId>, runId: RunId,
                                         key: JobKey, cursor: map<string, string>, i: SnapshotId)
    requires ChainOk(c) && d == CommitSnapshot(c, apiName, newFiles, runId, key, cursor)
    requires forall f | f in newFiles :: f < |c.files| && c.files[f].addedBy.None?
    ensures AddedBy(d, i) == if i == |c.snapshots| then set f | f in newFiles else AddedBy(c, i)
  {}

  function SetOf(newFiles: seq<FileId>): set<FileId> {
    set f | f in newFiles
  }

  /** The snapshot table with one more snapshot, which continues the parent. */
  ghost predicate Continued(c: Cat, d: Cat, parent: Option<SnapshotId>, apiName: string, newFiles: set<FileId>) {
    var n := |c.snapshots|;
    && |d.snapshots| == n + 1
    && (forall i | 0 <= i < n :: d.snapshots[i].(current := false) == c.snapshots[i].(current := false))
    && d.snapshots[n].apiName == apiName && d.snapshots[n].parent == parent
    && match parent
       case None => d.snapshots[n].sequence == 1 && d.snapshots[n].files == newFiles
       case Some(p) =>
         p < n && c.snapshots[p].apiName == apiName
         && d.snapshots[n].sequence == c.snapshots[p].sequence + 1
         && d.snapshots[n].files == c.snapshots[p].files + newFiles
  }

  lemma {:induction false} CommitContinues(c: Cat, apiName: string, newFiles: seq<FileId>, runId: RunId, key: JobKey,
                                           cursor: map<string, string>)
    ensures Continued(c, CommitSnapshot(c, apiName, newFiles, runId, key, cursor), LatestSnapshot(c, apiName),
                      apiName, SetOf(newFiles))
  {}

  lemma {:induction false} ContinuedKeepsLink(c: Cat, d: Cat, parent: Option<SnapshotId>, apiName: string,
                                              newFiles: set<FileId>, i: SnapshotId)
    requires ChainOk(c) && Continued(c, d, parent, apiName, newFiles) && i < |d.snapshots|
    requires AddedBy(d, i) == if i == |c.snapshots| then newFiles else AddedBy(c, i)
    ensures LinkOk(d, i)
  {
    if i < |c.snapshots| {
      assert LinkOk(c, i);
      assert d.snapshots[i].(current := false) == c.snapshots[i].(current := false);
      if c.snapshots[i].parent.Some? {
        var p := c.snapshots[i].parent.value;
        assert d.snapshots[p].(current := false) == c.snapshots[p].(current := false);
      }
    } else if parent.Some? {
      assert d.snapshots[parent.value].(current := false) == c.snapshots[parent.value].(current := false);
    }
  }

  lemma {:induction false} CommitKeepsLink(c: Cat, d: Cat, apiName: string, newFiles: seq<FileId>, runId: RunId,
                                           key: JobKey, cursor: map<string, string>, i: SnapshotId)
    requires ChainOk(c) && d == CommitSnapshot(c, apiName, newFiles, runId, key, cursor)
    requires forall f | f in newFiles :: f < |c.files| && c.files[f].addedBy.None?
    requires i < |d.snapshots|
    ensures LinkOk(d, i)
  {
    CommitAddedBy(c, d, apiName, newFiles, runId, key, cursor, i);
    CommitContinues(c, apiName, newFiles, runId, key, cursor);
    ContinuedKeepsLink(c, d, LatestSnapshot(c, apiName), apiName, SetOf(newFiles), i);
  }

  lemma {:induction false} CommitKeepsUnderHead(c: Cat, d: Cat, apiName: string, newFiles: seq<FileId>, runId: RunId,
                                                key: JobKey, cursor: map<string, string>, i: SnapshotId)
    requires ChainOk(c) && d == CommitSnapshot(c, apiName, newFiles, runId, key, cursor)
    requires i < |d.snapshots|
    ensures UnderHead(d, i)
    ensures d.snapshots[i].apiName == apiName && i < |c.snapshots| ==>
              d.snapshots[i].sequence < d.snapshots[|c.snapshots|].sequence
  {
    CommitLatest(c, d, apiName, newFiles, runId, key, cursor, d.snapshots[i].apiName);
    if i < |c.snapshots| {
      assert UnderHead(c, i);
    }
  }

  lemma {:induction false} CommitKeepsChain(c: Cat, apiName: string, newFiles: seq<FileId>, runId: RunId,
                                            key: JobKey, cursor: map<string, string>)
    requires ChainOk(c)
    requires forall f | f in newFiles :: f < |c.files| && c.files[f].addedBy.None?
    ensures ChainOk(CommitSnapshot(c, apiName, newFiles, runId, key, cursor))
  {
    var d := CommitSnapshot(c, apiName, newFiles, runId, key, cursor);
    forall i: SnapshotId | i < |d.snapshots|
      ensures LinkOk(d, i) && UnderHead(d, i)
    {
      CommitKeepsLink(c, d, apiName, newFiles, runId, key, cursor, i);
      CommitKeepsUnderHead(c, d, apiName, newFiles, runId, key, cursor, i);
    }
    forall i: SnapshotId, j: SnapshotId | i < j < |d.snapshots| && d.snapshots[i].apiName == d.snapshots[j].apiName
      ensures d.snapshots[i].sequence != d.snapshots[j].sequence
    {
      CommitKeepsUnderHead(c, d, apiName, newFiles, runId, key, cursor, i);
    }
  }

  // ---- what the chain means ----

  /** The snapshots from the first ancestor to i. */
  ghost function Lineage(c: Cat, i: SnapshotId): seq<SnapshotId>
    requires i < |c.snapshots| && ChainOk(c)
    decreases i
  {
    assert LinkOk(c, i);
    match c.snapshots[i].parent
    case None => [i]
    case Some(p) => Lineage(c, p) + [i]
  }

  /** Along the lineage the sequence numbers are exactly 1, 2, ..., n. */
  lemma {:induction false} LineageIsNumbered(c: Cat, i: SnapshotId)
    requires i < |c.snapshots| && ChainOk(c)
    ensures |Lineage(c, i)| == c.snapshots[i].sequence
    ensures forall k | 0 <= k < |Lineage(c, i)| ::
              var a := Lineage(c, i)[k];
              a < |c.snapshots| && c.snapshots[a].sequence == k + 1 && c.snapshots[a].apiName == c.snapshots[i].apiName
    decreases i
  {
    assert LinkOk(c, i);
    if c.snapshots[i].parent.Some? {
      LineageIsNumbered(c, c.snapshots[i].parent.value);
    }
  }

  /** The snapshots of an API are exactly the lineage of its latest one: no forks, no gaps. */
  lemma {:induction false} LineageIsEverything(c: Cat, apiName: string, head: SnapshotId, i: SnapshotId)
    requires ChainOk(c) && LatestSnapshot(c, apiName) == Some(head) && i < |c.snapshots|
    ensures c.snapshots[i].apiName == apiName <==> i in Lineage(c, head)
  {
    LineageIsNumbered(c, head);
    if c.snapshots[i].apiName == apiName {
      assert UnderHead(c, i);
      LineageIsNumbered(c, i);
      var k := c.snapshots[i].sequence - 1;
      assert c.snapshots[Lineage(c, head)[k]].sequence == k + 1;
      assert Lineage(c, head)[k] == i;
    }
  }

  /** Every file a snapshot ever added is among the files of the current snapshot of its API. */
  lemma {:induction false} CommittedFilesStay(c: Cat, f: FileId)
    requires ChainOk(c) && f < |c.files| && c.files[f].addedBy.Some?
    ensures f in HeadFiles(c, c.snapshots[c.files[f].addedBy.value].apiName)
  {
    var i := c.files[f].addedBy.value;
    assert LinkOk(c, i) && UnderHead(c, i);
    assert f in AddedBy(c, i);
  }

  // ---- why a single writer ----

  lemma {:induction false} SameNumberBreaksTheChain(c: Cat, i: nat, j: nat)
    requires i < j < |c.snapshots| && c.snapshots[i].apiName == c.snapshots[j].apiName
    requires c.snapshots[i].sequence == c.snapshots[j].sequence
    ensures !ChainOk(c)
  {}

  /** Every number up to that of the latest snapshot is taken. */
  lemma {:induction false} NumberIsTaken(c: Cat, apiName: string, head: SnapshotId, number: nat) returns (i: SnapshotId)
    requires ChainOk(c) && LatestSnapshot(c, apiName) == Some(head)
    requires 1 <= number <= c.snapshots[head].sequence
    ensures i < |c.snapshots| && c.snapshots[i].apiName == apiName && c.snapshots[i].sequence == number
  {
    LineageIsNumbered(c, head);
    i := Lineage(c, head)[number - 1];
  }

  /** A snapshot of the API other than the latest has a lower number. */
  lemma {:induction false} BelowTheHead(c: Cat, p: SnapshotId) returns (head: SnapshotId)
    requires ChainOk(c) && p < |c.snapshots|
    ensures LatestSnapshot(c, c.snapshots[p].apiName) == Some(head)
    ensures p != head ==> c.snapshots[p].sequence < c.snapshots[head].sequence
  {
    assert UnderHead(c, p);
    head := LatestSnapshot(c, c.snapshots[p].apiName).value;
  }

  /** One more snapshot, numbered after the parent that it names. */
  ghost predicate Onto(c: Cat, d: Cat, parent: Option<SnapshotId>, apiName: string)
    requires parent.Some? ==> parent.value < |c.snapshots|
  {
    var n := |c.snapshots|;
    && |d.snapshots| == n + 1 && d.snapshots[n].apiName == apiName && d.snapshots[n].parent == parent
    && d.snapshots[n].sequence == (if parent.Some? then c.snapshots[parent.value].sequence + 1 else 1)
    && forall i | 0 <= i < n ::
         d.snapshots[i].apiName == c.snapshots[i].apiName && d.snapshots[i].sequence == c.snapshots[i].sequence
  }

  lemma {:induction false} OtherApiBreaksTheChain(c: Cat, d: Cat, p: SnapshotId, apiName: string)
    requires p < |c.snapshots| && Onto(c, d, Some(p), apiName) && c.snapshots[p].apiName != apiName
    ensures !ChainOk(d)
  {
    assert !LinkOk(d, |c.snapshots|);
  }

  lemma {:induction false} OlderParentBreaksTheChain(c: Cat, d: Cat, p: SnapshotId, apiName: string)
    requires ChainOk(c) && p < |c.snapshots| && Onto(c, d, Some(p), apiName)
    requires c.snapshots[p].apiName == apiName && LatestSnapshot(c, apiName) != Some(p)
    ensures !ChainOk(d)
  {
    var head := BelowTheHead(c, p);
    var i := NumberIsTaken(c, apiName, head, c.snapshots[p].sequence + 1);
    SameNumberBreaksTheChain(d, i, |c.snapshots|);
  }

  lemma {:induction false} NoParentBreaksTheChain(c: Cat, d: Cat, apiName: string)
    requires ChainOk(c) && Onto(c, d, None, apiName) && LatestSnapshot(c, apiName).Some?
    ensures !ChainOk(d)
  {
    var head := LatestSnapshot(c, apiName).value;
    assert LinkOk(c, head);
    var i := NumberIsTaken(c, apiName, head, 1);
    SameNumberBreaksTheChain(d, i, |c.snapshots|);
  }

  /** A commit onto any snapshot but the latest repeats a number or continues another API. */
  lemma {:induction false} StaleParentBreaksTheChain(c: Cat, d: Cat, parent: Option<SnapshotId>, apiName: string)
    requires ChainOk(c) && (parent.Some? ==> parent.value < |c.snapshots|) && Onto(c, d, parent, apiName)
    requires parent != LatestSnapshot(c, apiName)
    ensures !ChainOk(d)
  {
    if parent.None? {
      NoParentBreaksTheChain(c, d, apiName);
    } else if c.snapshots[parent.value].apiName != apiName {
      OtherApiBreaksTheChain(c, d, parent.value, apiName);
    } else {
      OlderParentBreaksTheChain(c, d, parent.value, apiName);
    }
  }

  /** A commit keeps the chain exactly when the parent it read is still the latest snapshot. */
  lemma {:induction false} ChainNeedsTheLatestParent(c: Cat, parent: Option<SnapshotId>, apiName: string,
                                                     newFiles: seq<FileId>, runId: RunId, key: JobKey,
                                                     cursor: map<string, string>)
    requires ChainOk(c) && (parent.Some? ==> parent.value < |c.snapshots|)
    requires forall f | f in newFiles :: f < |c.files| && c.files[f].addedBy.None?
    ensures ChainOk(CommitOnto(c, parent, apiName, newFiles, runId, key, cursor))
            <==> parent == LatestSnapshot(c, apiName)
  {
    if parent == LatestSnapshot(c, apiName) {
      CommitKeepsChain(c, apiName, newFiles, runId, key, cursor);
    } else {
      StaleParentBreaksTheChain(c, CommitOnto(c, parent, apiName, newFiles, runId, key, cursor), parent, apiName);
    }
  }

  /** Of the two current snapshots with the same number the younger one is the latest. */
  lemma {:induction false} TwoWritersTables(c: Cat, first: Cat, second: Cat, apiName: string)
    requires ChainOk(c)
    requires var n := |c.snapshots|;
             && |first.snapshots| == n + 1 && |second.snapshots| == n + 2
             && first.snapshots[..n] == Supersede(c.snapshots, LatestSnapshot(c, apiName))
             && second.snapshots[..n + 1] == Supersede(first.snapshots, LatestSnapshot(c, apiName))
             && IsCurrentOf(first.snapshots[n], apiName) && IsCurrentOf(second.snapshots[n + 1], apiName)
             && second.snapshots[n + 1].sequence == first.snapshots[n].sequence
    ensures LatestSnapshot(second, apiName) == Some(|c.snapshots| + 1)
  {
    var n, parent := |c.snapshots|, LatestSnapshot(c, apiName);
    forall i | 0 <= i < n
      ensures !IsCurrentOf(second.snapshots[i], apiName)
    {
      assert UnderHead(c, i);
      assert first.snapshots[..n][i] == first.snapshots[i] && second.snapshots[..n + 1][i] == second.snapshots[i];
    }
    assert second.snapshots[..n + 1][n] == second.snapshots[n];
    assert LatestAmong(second.snapshots, apiName, n) == None;
    assert LatestAmong(second.snapshots, apiName, n + 1) == Some(n);
  }

  /** Writing twice onto the same parent repeats a number. */
  lemma {:induction false} SecondWriterBreaksTheChain(c: Cat, first: Cat, second: Cat, apiName: string)
    requires var parent := LatestSnapshot(c, apiName);
             && ChainOk(first) && LatestSnapshot(first, apiName) != parent
             && (parent.Some? ==> parent.value < |first.snapshots|) && Onto(first, second, parent, apiName)
    ensures !ChainOk(second)
  {
    StaleParentBreaksTheChain(first, second, LatestSnapshot(c, apiName), apiName);
  }

  /** A second writer that read the parent before the first one committed breaks the chain, and
      the first one's files are lost from the latest snapshot. */
  lemma {:induction false} TwoWritersForkTheChain(c: Cat, first: Cat, second: Cat, apiName: string,
                                                  newFiles: seq<FileId>, otherFiles: seq<FileId>,
                                                  runId: RunId, key: JobKey, cursor: map<string, string>)
    requires ChainOk(c)
    requires forall f | f in newFiles :: f < |c.files| && c.files[f].addedBy.None?
    requires first == CommitOnto(c, LatestSnapshot(c, apiName), apiName, newFiles, runId, key, cursor)
    requires second == CommitOnto(first, LatestSnapshot(c, apiName), apiName, otherFiles, runId, key, cursor)
    ensures !ChainOk(second)
    ensures HeadFiles(second, apiName) == HeadFiles(c, apiName) + SetOf(otherFiles)
  {
    CommitKeepsChain(c, apiName, newFiles, runId, key, cursor);
    CommitLatest(c, first, apiName, newFiles, runId, key, cursor, apiName);
    SecondWriterBreaksTheChain(c, first, second, apiName);
    TwoWritersTables(c, first, second, apiName);
  }
}
