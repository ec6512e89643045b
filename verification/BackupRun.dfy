/** Carrying out a backup: the staged copy, its check, and the swap; what a backup that returns
    preserves, what a failing one leaves alone, and which lakes can be backed up. */
module BackupRun {
  import opened Wrappers
  import opened Catalog
  import opened Snapshots
  import opened Store
  import opened LakeStore
  import opened Safety
  import opened Durability
  import opened Backup
  import opened Reader

  // ---- what a backup acts on ----

  /** What lies at the target path. */
  datatype Entry = Nothing | EmptyDirectory | OtherFile | BackupAt(root: Root)

  datatype Place = Elsewhere | AtSource | InsideSource

  datatype NamedConfig = NamedConfig(name: string, file: ConfigFile)

  datatype Step = CopyCatalog | CopyConfigs | CopyFiles | WriteManifest | RemoveTarget | ReplaceTarget

  /** What storage does: which step raises, what a failed removal leaves of the target, what a
      copy puts at a path instead of the source's content, and what has become of staged files
      when they are checked. */
  datatype BackupScript = BackupScript(fault: Option<Step>, leftover: Entry, catalogBytes: nat, catalogReadable: bool,
                                       copied: map<Path, Content>, rot: map<Path, Content>, lost: set<Path>)

  datatype BackupError =
    | NoActiveSnapshots | TargetNotAllowed | TargetExists | SourceMissing | CopySizeMismatch | CopyChecksumMismatch
    | RestoreCheckFailed | StepFailed(step: Step)

  // ---- the guard ----

  predicate GuardOk(place: Place, target: Entry, overwrite: bool) {
    place.Elsewhere? && (target.Nothing? || target.EmptyDirectory? || overwrite)
  }

  // ---- copying ----

  /** What a copy of the file at this path is. */
  function CopyOf(source: map<Path, Content>, sc: BackupScript, p: Path): Option<Content> {
    if p !in source then None else if p in sc.copied then Some(sc.copied[p]) else Some(source[p])
  }

  predicate CopyFits(item: BackupItem, copy: Option<Content>) {
    copy.Some? && copy.value.bytes == item.size && Sha256(copy.value) == item.sha
  }

  function Copies(items: seq<BackupItem>, source: map<Path, Content>, sc: BackupScript): map<Path, Content> {
    map p | p in (set i | 0 <= i < |items| :: items[i].path) && CopyOf(source, sc, p).Some? ::
      CopyOf(source, sc, p).value
  }

  ghost predicate AllFit(items: seq<BackupItem>, source: map<Path, Content>, sc: BackupScript) {
    forall i | 0 <= i < |items| :: CopyFits(items[i], CopyOf(source, sc, items[i].path))
  }

  /** The item at this place is the first whose copy does not fit, for this reason. */
  ghost predicate UnfitAt(items: seq<BackupItem>, i: int, source: map<Path, Content>, sc: BackupScript,
                          error: BackupError) {
    && 0 <= i < |items| && AllFit(items[..i], source, sc)
    && match CopyOf(source, sc, items[i].path)
       case None => error == SourceMissing
       case Some(copy) =>
         if copy.bytes != items[i].size then error == CopySizeMismatch
         else Sha256(copy) != items[i].sha && error == CopyChecksumMismatch
  }

  function Rotten(files: map<Path, Content>, sc: BackupScript): map<Path, Content> {
    map p | p in files && p !in sc.lost :: if p in sc.rot then sc.rot[p] else files[p]
  }

  function ConfigMap(configs: seq<NamedConfig>): map<string, ConfigFile> {
    if configs == [] then map[]
    else ConfigMap(configs[..|configs| - 1])[configs[|configs| - 1].name := configs[|configs| - 1].file]
  }

  function ConfigEntries(configs: seq<NamedConfig>): seq<ConfigEntry> {
    seq(|configs|, i requires 0 <= i < |configs| => ConfigEntry(configs[i].name, configs[i].file.bytes,
                                                                HashOf(configs[i].file)))
  }

  function TotalSize(items: seq<BackupItem>): nat {
    if items == [] then 0 else TotalSize(items[..|items| - 1]) + items[|items| - 1].size
  }

  function ManifestOf(plan: BackupPlan, catalog: CatalogFile, configs: seq<NamedConfig>): Manifest {
    Manifest(MANIFEST_VERSION, |plan.items|, TotalSize(plan.items), plan.snapshots,
             CatalogEntry(catalog.bytes, HashOf(catalog)), ConfigEntries(configs), plan.items)
  }

  /** The staged backup as the check finds it. */
  function StagedCopy(plan: BackupPlan, w: World, configs: seq<NamedConfig>, sc: BackupScript): Root {
    var catalog := CatalogFile(w.cat, sc.catalogBytes, sc.catalogReadable);
    Root(Rotten(Copies(plan.items, w.disk.final, sc), sc), Some(catalog), ConfigMap(configs),
         Some(ManifestOf(plan, catalog, configs)))
  }

  /** Sizes add up over lists of items. */
  lemma {:induction false} SizesAddUp(a: seq<BackupItem>, b: seq<BackupItem>)
    ensures TotalSize(a + b) == TotalSize(a) + TotalSize(b)
    ensures |a| == 1 ==> TotalSize(a) == a[0].size
    decreases |b|
  {
    if b == [] {
      assert a + b == a;
      assert |a| == 1 ==> a[..0] == [];
    } else {
      var n := |b| - 1;
      assert (a + b)[..|a + b| - 1] == a + b[..n];
      SizesAddUp(a, b[..n]);
    }
  }

  /** What the manifest says of the plan. */
  lemma {:induction false} ManifestTells(plan: BackupPlan, w: World, configs: seq<NamedConfig>, sc: BackupScript)
    ensures var m := StagedCopy(plan, w, configs, sc).manifest;
            && m.Some? && m.value.version == 1 && m.value.fileCount == |plan.items| && m.value.files == plan.items
            && m.value.snapshots == plan.snapshots && m.value.totalSize == TotalSize(plan.items)
            && |m.value.configs| == |configs|
            && forall i | 0 <= i < |configs| :: m.value.configs[i].name == configs[i].name
  {}

  /** No step of the staging raises. */
  predicate StagingWorks(sc: BackupScript) {
    sc.fault.None? || sc.fault.value.RemoveTarget? || sc.fault.value.ReplaceTarget?
  }

  /** Everything up to the swap works out. */
  ghost predicate Passes(plan: BackupPlan, w: World, configs: seq<NamedConfig>, place: Place, target: Entry,
                         overwrite: bool, sc: BackupScript) {
    && !plan.rejected && GuardOk(place, target, overwrite)
    && StagingWorks(sc)
    && AllFit(plan.items, w.disk.final, sc)
    && CheckFailures(StagedCopy(plan, w, configs, sc)) == []
  }

  /** A source is missing, a copy is not as planned, or the step that raises has raised. */
  ghost predicate InCopying(error: BackupError, sc: BackupScript) {
    error.SourceMissing? || error.CopySizeMismatch? || error.CopyChecksumMismatch?
    || (error.StepFailed? && sc.fault == Some(error.step))
  }

  ghost predicate RemovalFails(target: Entry, sc: BackupScript) {
    sc.fault == Some(RemoveTarget) && !target.Nothing?
  }

  // ---- the executor object ----

  class BackupExecutor {
    const store: FileLakeStore
    const catalog: CatalogStore
    var target: Entry
    var staging: Option<Root>

    constructor (store: FileLakeStore, target: Entry)
      ensures this.store == store && catalog == store.catalog && this.target == target && staging == None
    {
      this.store, this.target, staging := store, target, None;
      catalog := store.catalog;
    }

    method CopyAll(items: seq<BackupItem>, sc: BackupScript)
      returns (error: Option<BackupError>, files: map<Path, Content>)
      ensures error.None? <==> AllFit(items, store.State().disk.final, sc)
      ensures error.None? ==> files == Copies(items, store.State().disk.final, sc)
      ensures error.Some? ==> exists i :: UnfitAt(items, i, store.State().disk.final, sc, error.value)
    {
      var source := store.final;
      files, error := map[], None;
      for i := 0 to |items|
        invariant AllFit(items[..i], source, sc) && files == Copies(items[..i], source, sc)
      {
        var item := items[i];
        assert items[..i + 1] == items[..i] + [item];
        if item.path !in source {
          assert UnfitAt(items, i, source, sc, SourceMissing);
          return Some(SourceMissing), files;
        }
        var copy := if item.path in sc.copied then sc.copied[item.path] else source[item.path];
        files := files[item.path := copy];
        if copy.bytes != item.size {
          assert UnfitAt(items, i, source, sc, CopySizeMismatch);
          return Some(CopySizeMismatch), files;
        }
        if Sha256(copy) != item.sha {
          assert UnfitAt(items, i, source, sc, CopyChecksumMismatch);
          return Some(CopyChecksumMismatch), files;
        }
        OneMoreCopy(items, i, source, sc);
      }
      assert items[..|items|] == items;
    }

    method CopyConfigFiles(configs: seq<NamedConfig>) returns (files: map<string, ConfigFile>)
      ensures files == ConfigMap(configs)
    {
      files := map[];
      for i := 0 to |configs|
        invariant files == ConfigMap(configs[..i])
      {
        assert configs[..i + 1][..i] == configs[..i];
        files := files[configs[i].name := configs[i].file];
      }
      assert configs[..|configs|] == configs;
    }

    /** Catalog, endpoint configurations, files and manifest, in this order, as long as no step raises. */
    method MakeCopy(plan: BackupPlan, configs: seq<NamedConfig>, sc: BackupScript)
      returns (error: Option<BackupError>, root: Root)
      requires catalog == store.catalog
      ensures error.None? <==> StagingWorks(sc) && AllFit(plan.items, store.State().disk.final, sc)
      ensures error.None? ==> root == StagedCopy(plan, store.State(), configs, sc)
      ensures error.Some? ==> InCopying(error.value, sc)
    {
      root := Root(map[], None, map[], None);
      if sc.fault == Some(CopyCatalog) {
        return Some(StepFailed(CopyCatalog)), root;
      }
      var catalogFile := CatalogFile(catalog.State(), sc.catalogBytes, sc.catalogReadable);
      if sc.fault == Some(CopyConfigs) {
        return Some(StepFailed(CopyConfigs)), root;
      }
      var configFiles := CopyConfigFiles(configs);
      if sc.fault == Some(CopyFiles) {
        return Some(StepFailed(CopyFiles)), root;
      }
      var files;
      error, files := CopyAll(plan.items, sc);
      if error.Some? {
        return;
      }
      if sc.fault == Some(WriteManifest) {
        return Some(StepFailed(WriteManifest)), root;
      }
      root := Root(Rotten(files, sc), Some(catalogFile), configFiles, Some(ManifestOf(plan, catalogFile, configs)));
    }

    /** The staged copy is made and checked. */
    method Stage(plan: BackupPlan, configs: seq<NamedConfig>, sc: BackupScript) returns (error: Option<BackupError>)
      requires catalog == store.catalog
      modifies this`staging
      ensures error.None? <==>
              StagingWorks(sc) && AllFit(plan.items, store.State().disk.final, sc)
              && CheckFailures(StagedCopy(plan, store.State(), configs, sc)) == []
      ensures error.None? ==> staging == Some(StagedCopy(plan, store.State(), configs, sc))
      ensures error.Some? ==>
                if StagingWorks(sc) && AllFit(plan.items, store.State().disk.final, sc) then
                  error == Some(RestoreCheckFailed)
                else InCopying(error.value, sc)
    {
      var root;
      error, root := MakeCopy(plan, configs, sc);
      staging := Some(root);
      if error.None? {
        var failures, counts := Check(root);
        if failures != [] {
          error := Some(RestoreCheckFailed);
        }
      }
    }

    /** `backup`: with an error before the swap the target is as it was; without an error it is the
        staged copy that passed the check. The staging directory is gone in any case. */
    method Run(plan: BackupPlan, configs: seq<NamedConfig>, place: Place, overwrite: bool, sc: BackupScript)
      returns (error: Option<BackupError>)
      requires catalog == store.catalog
      modifies this`target, this`staging
      ensures staging == old(staging) || staging == None
      ensures var passes := Passes(plan, store.State(), configs, place, old(target), overwrite, sc);
              && (error.None? <==> passes && !RemovalFails(old(target), sc) && sc.fault != Some(ReplaceTarget))
              && (error.None? ==> target == BackupAt(StagedCopy(plan, store.State(), configs, sc)) && staging == None)
              && (!passes ==> target == old(target))
              && (passes && RemovalFails(old(target), sc) ==> target == sc.leftover)
              && (passes && sc.fault == Some(ReplaceTarget) ==> target == Nothing)
      ensures error.None? ==> sc.fault.None? || (sc.fault == Some(RemoveTarget) && old(target).Nothing?)
      ensures error == Some(NoActiveSnapshots) <==> plan.rejected
      ensures error == Some(TargetNotAllowed) <==> !plan.rejected && (place.AtSource? || place.InsideSource?)
      ensures error == Some(TargetExists) <==>
              !plan.rejected && place.Elsewhere? && !overwrite && (old(target).OtherFile? || old(target).BackupAt?)
    {
      if plan.rejected {
        return Some(NoActiveSnapshots);
      }
      if !place.Elsewhere? {
        return Some(TargetNotAllowed);
      }
      if !target.Nothing? && !target.EmptyDirectory? && !overwrite {
        return Some(TargetExists);
      }
      error := Stage(plan, configs, sc);
      if error.Some? {
        staging := None;
        return;
      }
      if !target.Nothing? {
        if sc.fault == Some(RemoveTarget) {
          target, staging := sc.leftover, None;
          return Some(StepFailed(RemoveTarget));
        }
        target := Nothing;
      }
      if sc.fault == Some(ReplaceTarget) {
        staging := None;
        return Some(StepFailed(ReplaceTarget));
      }
      target, staging := BackupAt(staging.value), None;
    }
  }

  lemma {:induction false} OneMoreCopy(items: seq<BackupItem>, i: nat, source: map<Path, Content>, sc: BackupScript)
    requires i < |items| && CopyOf(source, sc, items[i].path).Some?
    ensures Copies(items[..i + 1], source, sc)
            == Copies(items[..i], source, sc)[items[i].path := CopyOf(source, sc, items[i].path).value]
  {
    var before, after := items[..i], items[..i + 1];
    assert (set k | 0 <= k < |after| :: after[k].path)
        == (set k | 0 <= k < |before| :: before[k].path) + {items[i].path} by {
      assert after == before + [items[i]];
      assert forall k | 0 <= k < |before| :: after[k] == before[k];
      assert after[i] == items[i];
    }
  }

  // ---- a backup preserves reads ----

  /** Every file that reading the latest data of an API goes through is in the plan. */
  lemma {:induction false} ActiveIsPlanned(c: Cat, api: Option<string>, a: string, f: FileId)
    requires f in ListActiveFiles(c, a, None) && (api.None? || api.value == a)
    ensures InPlan(c, api, f)
    ensures ItemFor(c.files[f], f, Holders(c, api, f, |c.snapshots|)) in PlanItems(c, api, |c.files|)
  {
    var head := LatestSnapshot(c, a).value;
    assert head in Holders(c, api, f, |c.snapshots|);
    PlannedIff(c, api, |c.files|, ItemFor(c.files[f], f, Holders(c, api, f, |c.snapshots|)));
  }

  /** The staged copy holds, for every planned file, the content with the recorded hash. */
  lemma {:induction false} CheckedContent(plan: BackupPlan, w: World, configs: seq<NamedConfig>, sc: BackupScript,
                                          item: BackupItem)
    requires CheckFailures(StagedCopy(plan, w, configs, sc)) == [] && item in plan.items
    ensures var copy := StagedCopy(plan, w, configs, sc);
            item.path in copy.files && Sha256(copy.files[item.path]) == item.sha
  {
    CheckIsExact(StagedCopy(plan, w, configs, sc));
    assert ItemOk(item, Find(StagedCopy(plan, w, configs, sc).files, item.path));
  }

  /** A backup does not pass if storage has lost or damaged the catalog or a planned file in it. */
  lemma {:induction false} DamageIsFound(plan: BackupPlan, w: World, configs: seq<NamedConfig>, sc: BackupScript,
                                         item: BackupItem)
    requires CheckFailures(StagedCopy(plan, w, configs, sc)) == []
    ensures sc.catalogBytes > 0 && sc.catalogReadable
    ensures item in plan.items ==>
              && item.path in w.disk.final && item.path !in sc.lost
              && (item.path in sc.rot ==> Sha256(sc.rot[item.path]) == item.sha)
              && (item.path !in sc.rot && item.path in sc.copied ==> Sha256(sc.copied[item.path]) == item.sha)
              && (item.path !in sc.rot && item.path !in sc.copied ==> Sha256(w.disk.final[item.path]) == item.sha)
  {
    CheckIsExact(StagedCopy(plan, w, configs, sc));
    if item in plan.items {
      CheckedContent(plan, w, configs, sc, item);
    }
  }

  /** The file at the path of this row has the recorded hash. */
  ghost predicate AsRecorded(row: FileRow, files: map<Path, Content>) {
    row.path in files && Sha256(files[row.path]) == row.sha
  }

  lemma {:induction false} SameContentsSameReads(c: Cat, files: map<Path, Content>, others: map<Path, Content>,
                                                 a: string)
    requires forall f | f in ListActiveFiles(c, a, None) ::
      Find(others, c.files[f].path) == Find(files, c.files[f].path)
    ensures Reads(c, others, a) == Reads(c, files, a)
  {}

  /** A file that the catalog c of the plan has active, and whose row has not changed since, reads
      from the copy what it reads from the lake. */
  lemma {:induction false} PlannedFileReadsTheSame(plan: BackupPlan, c: Cat, w: World, api: Option<string>,
                                                   configs: seq<NamedConfig>, sc: BackupScript, a: string, f: FileId)
    requires plan == PlanOf(c, api) && (api.None? || api.value == a)
    requires CheckFailures(StagedCopy(plan, w, configs, sc)) == []
    requires f in ListActiveFiles(c, a, None) && AsRecorded(c.files[f], w.disk.final)
    ensures Find(StagedCopy(plan, w, configs, sc).files, c.files[f].path) == Find(w.disk.final, c.files[f].path)
  {
    ActiveIsPlanned(c, api, a, f);
    CheckedContent(plan, w, configs, sc, ItemFor(c.files[f], f, Holders(c, api, f, |c.snapshots|)));
  }

  /** A copy that fits shows that the source is as recorded. */
  lemma {:induction false} CopiedAsRecorded(plan: BackupPlan, c: Cat, w: World, api: Option<string>, sc: BackupScript,
                                            a: string, f: FileId)
    requires plan == PlanOf(c, api) && (api.None? || api.value == a) && f in ListActiveFiles(c, a, None)
    requires AllFit(plan.items, w.disk.final, sc) && sc.copied == map[]
    ensures AsRecorded(c.files[f], w.disk.final)
  {
    ActiveIsPlanned(c, api, a, f);
    var item := ItemFor(c.files[f], f, Holders(c, api, f, |c.snapshots|));
    var i :| 0 <= i < |plan.items| && plan.items[i] == item;
    assert CopyFits(plan.items[i], CopyOf(w.disk.final, sc, plan.items[i].path));
  }

  /** The active files of an API and their rows are the same in both catalogs. */
  ghost predicate SameActiveFiles(c: Cat, d: Cat, a: string) {
    && ListActiveFiles(d, a, None) == ListActiveFiles(c, a, None)
    && forall f | f in ListActiveFiles(c, a, None) :: d.files[f] == c.files[f]
  }

  /** A backup that passes reads like the source, API by API: the same rows and the same content at
      every path, as long as the API has the active files that it had when the plan was made. */
  lemma {:induction false} FaithfulBackupReadsTheSame(plan: BackupPlan, c: Cat, w: World, api: Option<string>,
                                                      configs: seq<NamedConfig>, place: Place, target: Entry,
                                                      overwrite: bool, sc: BackupScript, a: string)
    requires plan == PlanOf(c, api) && (api.None? || api.value == a) && SameActiveFiles(c, w.cat, a)
    requires Passes(plan, w, configs, place, target, overwrite, sc) && sc.copied == map[]
    ensures var copy := StagedCopy(plan, w, configs, sc);
            copy.catalog.Some? && Reads(copy.catalog.value.cat, copy.files, a) == Reads(w.cat, w.disk.final, a)
  {
    var files := StagedCopy(plan, w, configs, sc).files;
    forall f | f in ListActiveFiles(w.cat, a, None)
      ensures Find(files, w.cat.files[f].path) == Find(w.disk.final, w.cat.files[f].path)
    {
      CopiedAsRecorded(plan, c, w, api, sc, a, f);
      PlannedFileReadsTheSame(plan, c, w, api, configs, sc, a, f);
    }
    SameContentsSameReads(w.cat, w.disk.final, files, a);
  }

  ghost predicate Names(plan: BackupPlan, p: Path) {
    exists item :: item in plan.items && item.path == p
  }

  /** An active file of the copied catalog can be read from a backup that passes exactly when an
      item of the plan names its path. */
  lemma {:induction false} UnplannedFileIsMissing(plan: BackupPlan, w: World, configs: seq<NamedConfig>,
                                                  sc: BackupScript, a: string, f: FileId)
    requires f in ListActiveFiles(w.cat, a, None) && CheckFailures(StagedCopy(plan, w, configs, sc)) == []
    ensures var copy := StagedCopy(plan, w, configs, sc);
            var found := Reads(copy.catalog.value.cat, copy.files, a);
            f in found && found[f].0 == w.cat.files[f] && (found[f].1.None? <==> !Names(plan, w.cat.files[f].path))
  {
    var p := w.cat.files[f].path;
    if Names(plan, p) {
      var item :| item in plan.items && item.path == p;
      CheckedContent(plan, w, configs, sc, item);
    } else {
      assert p !in Copies(plan.items, w.disk.final, sc);
    }
  }

  // ---- a backup of a lake that goes on ----

  /** In a lake in order every live file of an API in scope, raw or lake, is to be backed up. */
  lemma {:induction false} LiveIsPlanned(v: World, slots: Slots, api: Option<string>, f: FileId)
    requires Inv(v, slots) && Live(v.cat, f) && (api.None? || api.value == v.cat.files[f].apiName)
    ensures ToBackUp(v.cat, api, f)
  {
    assert RowOk(v.cat.files[f], slots);
    var s := LatestSnapshot(v.cat, v.cat.files[f].apiName).value;
    assert HeldBy(v.cat, api, f, s);
  }

  /** A backup holds every live file, raw or lake, that the lake in order had when the plan was made,
      with the content that the lake had then and still has. */
  lemma {:induction false} LiveFilesAreCopied(plan: BackupPlan, v: World, w: World, slots: Slots, api: Option<string>,
                                              configs: seq<NamedConfig>, sc: BackupScript, f: FileId)
    requires Inv(v, slots) && Durable(v, w) && Live(v.cat, f)
    requires plan == PlanOf(v.cat, api) && (api.None? || api.value == v.cat.files[f].apiName)
    requires CheckFailures(StagedCopy(plan, w, configs, sc)) == []
    ensures var p := v.cat.files[f].path;
            && Find(StagedCopy(plan, w, configs, sc).files, p) == Find(w.disk.final, p)
            && Find(w.disk.final, p) == Find(v.disk.final, p) && Find(v.disk.final, p).Some?
  {
    var c := v.cat;
    LiveIsPlanned(v, slots, api, f);
    InPlanIff(c, api, f);
    assert Intact(v, f) && StillThere(v, w, f);
    var item := ItemFor(c.files[f], f, Holders(c, api, f, |c.snapshots|));
    PlannedIff(c, api, |c.files|, item);
    CheckedContent(plan, w, configs, sc, item);
    ValidationIsExact(c.files[f], Find(v.disk.final, c.files[f].path));
  }

  lemma {:induction false} PlannedIsLive(w: World, slots: Slots, api: Option<string>, f: FileId)
    requires Inv(w, slots) && InPlan(w.cat, api, f)
    ensures Live(w.cat, f)
  {
    var s :| s in Holders(w.cat, api, f, |w.cat.snapshots|);
    assert UnderHead(w.cat, s);
    assert f in HeadFiles(w.cat, w.cat.snapshots[s].apiName);
  }

  /** What was active when the plan was made still is, with the same row. */
  lemma {:induction false} ActiveStaysActive(v: World, w: World, slots: Slots, a: string, f: FileId)
    requires Inv(v, slots) && Inv(w, slots) && Durable(v, w) && f in ListActiveFiles(v.cat, a, None)
    ensures f in ListActiveFiles(w.cat, a, None) && w.cat.files[f] == v.cat.files[f]
  {
    ActiveFilesAreLive(v, slots, a, f);
    assert StillThere(v, w, f);
    ActiveFilesAreLive(w, slots, a, f);
  }

  /** No item names the path of a file that became active after the plan was made. */
  lemma {:induction false} LaterFileIsUnplanned(v: World, w: World, slots: Slots, api: Option<string>, a: string,
                                                f: FileId)
    requires SlotsDistinct(slots) && Inv(v, slots) && Inv(w, slots) && Durable(v, w)
    requires f in ListActiveFiles(w.cat, a, None) && f !in ListActiveFiles(v.cat, a, None)
    ensures !Names(PlanOf(v.cat, api), w.cat.files[f].path)
  {
    ActiveFilesAreLive(w, slots, a, f);
    forall item | item in PlanOf(v.cat, api).items
      ensures item.path != w.cat.files[f].path
    {
      PlannedIff(v.cat, api, |v.cat.files|, item);
      PlannedIsLive(v, slots, api, item.file);
      assert StillThere(v, w, item.file);
      if item.file == f {
        ActiveFilesAreLive(v, slots, a, f);
      } else {
        LivePathsDiffer(w, slots, item.file, f);
      }
    }
  }

  /** The lake may go on between the plan and the copy: a file that was active when the plan was
      made reads the same from the backup, and one that became active later is not in it. */
  lemma {:induction false} BackupHoldsWhatWasPlanned(plan: BackupPlan, v: World, w: World, slots: Slots,
                                                     api: Option<string>, configs: seq<NamedConfig>, sc: BackupScript,
                                                     a: string, f: FileId)
    requires SlotsDistinct(slots) && Inv(v, slots) && Inv(w, slots) && Durable(v, w)
    requires plan == PlanOf(v.cat, api) && (api.None? || api.value == a)
    requires CheckFailures(StagedCopy(plan, w, configs, sc)) == [] && f in ListActiveFiles(w.cat, a, None)
    ensures var found := Find(StagedCopy(plan, w, configs, sc).files, w.cat.files[f].path);
            && (f in ListActiveFiles(v.cat, a, None) ==> found == Find(w.disk.final, w.cat.files[f].path))
            && (f !in ListActiveFiles(v.cat, a, None) ==> found.None?)
            && Find(w.disk.final, w.cat.files[f].path).Some?
  {
    ActiveFilesAreLive(w, slots, a, f);
    assert Intact(w, f);
    if f in ListActiveFiles(v.cat, a, None) {
      ActiveStaysActive(v, w, slots, a, f);
      PlannedFileReadsTheSame(plan, v.cat, w, api, configs, sc, a, f);
    } else {
      LaterFileIsUnplanned(v, w, slots, api, a, f);
      UnplannedFileIsMissing(plan, w, configs, sc, a, f);
    }
  }

  /** The backup reads like the lake at the time of the copy exactly when the API gained no file
      since the plan was made. */
  lemma {:induction false} BackupReadsTheSameIff(plan: BackupPlan, v: World, w: World, slots: Slots,
                                                 api: Option<string>, configs: seq<NamedConfig>, sc: BackupScript,
                                                 a: string)
    requires SlotsDistinct(slots) && Inv(v, slots) && Inv(w, slots) && Durable(v, w)
    requires plan == PlanOf(v.cat, api) && (api.None? || api.value == a)
    requires CheckFailures(StagedCopy(plan, w, configs, sc)) == []
    ensures var copy := StagedCopy(plan, w, configs, sc);
            && copy.catalog.Some?
            && (Reads(copy.catalog.value.cat, copy.files, a) == Reads(w.cat, w.disk.final, a)
                <==> ListActiveFiles(w.cat, a, None) == ListActiveFiles(v.cat, a, None))
  {
    var files := StagedCopy(plan, w, configs, sc).files;
    var before, now := ListActiveFiles(v.cat, a, None), ListActiveFiles(w.cat, a, None);
    if now == before {
      forall f | f in now
        ensures Find(files, w.cat.files[f].path) == Find(w.disk.final, w.cat.files[f].path)
      {
        BackupHoldsWhatWasPlanned(plan, v, w, slots, api, configs, sc, a, f);
      }
      SameContentsSameReads(w.cat, w.disk.final, files, a);
    } else {
      var f := NewFile(v, w, slots, a);
      BackupHoldsWhatWasPlanned(plan, v, w, slots, api, configs, sc, a, f);
      assert Reads(w.cat, files, a)[f] != Reads(w.cat, w.disk.final, a)[f];
    }
  }

  lemma {:induction false} NewFile(v: World, w: World, slots: Slots, a: string) returns (f: FileId)
    requires Inv(v, slots) && Inv(w, slots) && Durable(v, w)
    requires ListActiveFiles(w.cat, a, None) != ListActiveFiles(v.cat, a, None)
    ensures f in ListActiveFiles(w.cat, a, None) && f !in ListActiveFiles(v.cat, a, None)
  {
    forall g | g in ListActiveFiles(v.cat, a, None)
      ensures g in ListActiveFiles(w.cat, a, None)
    {
      ActiveStaysActive(v, w, slots, a, g);
    }
    f :| f in ListActiveFiles(w.cat, a, None) && f !in ListActiveFiles(v.cat, a, None);
  }

  // ---- which lakes can be backed up ----

  /** Storage behaves, and the small files are not empty. */
  ghost predicate Undisturbed(configs: seq<NamedConfig>, sc: BackupScript) {
    && sc.fault.None? && sc.copied == map[] && sc.rot == map[] && sc.lost == {} && sc.catalogBytes > 0
    && sc.catalogReadable
    && (forall i | 0 <= i < |configs| :: configs[i].file.bytes > 0)
    && (forall i, j | 0 <= i < j < |configs| :: configs[i].name != configs[j].name)
  }

  lemma {:induction false} IntactFits(row: FileRow, f: FileId, holders: set<SnapshotId>, found: Option<Content>)
    requires FileFailures(row, found) == []
    ensures CopyFits(ItemFor(row, f, holders), found) && ItemOk(ItemFor(row, f, holders), found)
  {}

  lemma {:induction false} PlannedFits(w: World, slots: Slots, api: Option<string>, item: BackupItem)
    requires Inv(w, slots) && item in PlanItems(w.cat, api, |w.cat.files|)
    ensures CopyFits(item, Find(w.disk.final, item.path)) && ItemOk(item, Find(w.disk.final, item.path))
  {
    PlannedIff(w.cat, api, |w.cat.files|, item);
    PlannedIsLive(w, slots, api, item.file);
    assert Intact(w, item.file);
    IntactFits(w.cat.files[item.file], item.file, item.snapshots, Find(w.disk.final, item.path));
  }

  lemma {:induction false} ConfigsFit(configs: seq<NamedConfig>)
    requires forall i | 0 <= i < |configs| :: configs[i].file.bytes > 0
    requires forall i, j | 0 <= i < j < |configs| :: configs[i].name != configs[j].name
    ensures forall i | 0 <= i < |configs| :: Find(ConfigMap(configs), configs[i].name) == Some(configs[i].file)
  {
    if configs != [] {
      var n := |configs| - 1;
      ConfigsFit(configs[..n]);
      forall i | 0 <= i < |configs|
        ensures Find(ConfigMap(configs), configs[i].name) == Some(configs[i].file)
      {
        if i < n {
          assert configs[..n][i] == configs[i];
        }
      }
    }
  }

  lemma {:induction false} UndisturbedCopies(items: seq<BackupItem>, source: map<Path, Content>, sc: BackupScript,
                                             item: BackupItem)
    requires sc.copied == map[] && sc.rot == map[] && sc.lost == {} && item in items && item.path in source
    ensures CopyOf(source, sc, item.path) == Some(source[item.path])
    ensures Find(Rotten(Copies(items, source, sc), sc), item.path) == Some(source[item.path])
  {
    var i :| 0 <= i < |items| && items[i] == item;
    assert item.path in (set k | 0 <= k < |items| :: items[k].path);
  }

  /** Every lake in order can be backed up: if storage behaves, the copy of its latest snapshots
      passes every check. */
  lemma {:induction false} LakesInOrderBackUp(w: World, slots: Slots, api: Option<string>, configs: seq<NamedConfig>,
                                              place: Place, target: Entry, overwrite: bool, sc: BackupScript)
    requires Inv(w, slots) && LatestSnapshots(w.cat, api) != {}
    requires GuardOk(place, target, overwrite) && Undisturbed(configs, sc)
    ensures Passes(PlanOf(w.cat, api), w, configs, place, target, overwrite, sc)
  {
    var plan := PlanOf(w.cat, api);
    var copy := StagedCopy(plan, w, configs, sc);
    forall item | item in plan.items
      ensures CopyFits(item, CopyOf(w.disk.final, sc, item.path)) && ItemOk(item, Find(copy.files, item.path))
    {
      PlannedFits(w, slots, api, item);
      UndisturbedCopies(plan.items, w.disk.final, sc, item);
    }
    ConfigsFit(configs);
    CheckIsExact(copy);
  }
}
