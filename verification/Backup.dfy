/** Backing up a lake: the plan over the latest snapshots, the staged copy with its manifest, the
    restore check, and the swap with an earlier backup. */
module Backup {
  import opened Wrappers
  import opened Catalog
  import opened Store

  // ---- what lies in a backup ----

  datatype ConfigFile = ConfigFile(text: string, bytes: nat)

  /** The database file of the catalog. */
  datatype CatalogFile = CatalogFile(cat: Cat, bytes: nat, readable: bool)

  datatype Hash<T> = HashOf(value: T)

  datatype CatalogEntry = CatalogEntry(size: nat, sha: Hash<CatalogFile>)

  datatype ConfigEntry = ConfigEntry(name: string, size: nat, sha: Hash<ConfigFile>)

  datatype BackupItem = BackupItem(
    file: FileId, apiName: string, layer: ContentType, path: Path, snapshots: set<SnapshotId>,
    recordCount: Option<nat>, rawEventCount: Option<nat>, size: nat, sha: Digest)

  datatype Manifest = Manifest(version: nat, fileCount: nat, totalSize: nat, snapshots: set<SnapshotId>,
                               catalog: CatalogEntry, configs: seq<ConfigEntry>, files: seq<BackupItem>)

  const MANIFEST_VERSION := 1

  datatype Root = Root(files: map<Path, Content>, catalog: Option<CatalogFile>, configs: map<string, ConfigFile>,
                       manifest: Option<Manifest>)

  // ---- the plan ----

  predicate InScope(s: Snapshot, api: Option<string>) {
    s.current && (api.Some? ==> s.apiName == api.value)
  }

  predicate Wanted(row: FileRow) {
    row.status !in INACTIVE && row.status !in OUTDATED
        && (row.contentType.Raw? || row.contentType.Lake? || row.contentType.Object?)
  }

  /** The first n snapshots that are in scope and hold the file. */
  function Holders(c: Cat, api: Option<string>, f: FileId, n: nat): set<SnapshotId>
    requires n <= |c.snapshots|
  {
    set s | 0 <= s < n && InScope(c.snapshots[s], api) && f in c.snapshots[s].files
  }

  function ItemFor(row: FileRow, f: FileId, holders: set<SnapshotId>): BackupItem {
    BackupItem(f, row.apiName, row.contentType, row.path, holders, row.recordCount, row.rawEventCount, row.size,
               row.sha)
  }

  predicate InPlan(c: Cat, api: Option<string>, f: int) {
    0 <= f < |c.files| && Wanted(c.files[f]) && Holders(c, api, f, |c.snapshots|) != {}
  }

  /** The items for the first n files. */
  function PlanItems(c: Cat, api: Option<string>, n: nat): seq<BackupItem>
    requires n <= |c.files|
  {
    if n == 0 then []
    else PlanItems(c, api, n - 1)
         + if InPlan(c, api, n - 1) then [ItemFor(c.files[n - 1], n - 1, Holders(c, api, n - 1, |c.snapshots|))] else []
  }

  datatype BackupPlan = BackupPlan(snapshots: set<SnapshotId>, items: seq<BackupItem>, rejected: bool)

  function LatestSnapshots(c: Cat, api: Option<string>): set<SnapshotId> {
    set s | 0 <= s < |c.snapshots| && InScope(c.snapshots[s], api)
  }

  function PlanOf(c: Cat, api: Option<string>): BackupPlan {
    var snapshots := LatestSnapshots(c, api);
    BackupPlan(snapshots, PlanItems(c, api, |c.files|), snapshots == {})
  }

  // ---- what the plan lists ----

  /** A current snapshot, of the given API if there is one, holds the file. */
  ghost predicate HeldBy(c: Cat, api: Option<string>, f: FileId, s: int) {
    0 <= s < |c.snapshots| && c.snapshots[s].current && (api.None? || c.snapshots[s].apiName == api.value)
    && f in c.snapshots[s].files
  }

  /** A raw, lake or object file in some snapshot in scope, neither quarantined nor missing nor deleted
      nor pending to be, and neither superseded nor compacted. */
  ghost predicate ToBackUp(c: Cat, api: Option<string>, f: int) {
    && 0 <= f < |c.files|
    && (c.files[f].contentType.Raw? || c.files[f].contentType.Lake? || c.files[f].contentType.Object?)
    && (c.files[f].status.Staged? || c.files[f].status.Current?)
    && exists s :: HeldBy(c, api, f, s)
  }

  /** The item says of the file what its row says, and names all snapshots in scope that hold it. */
  ghost predicate Describes(item: BackupItem, c: Cat, api: Option<string>, f: int)
    requires 0 <= f < |c.files|
  {
    && item.file == f && item.apiName == c.files[f].apiName && item.layer == c.files[f].contentType
    && item.path == c.files[f].path && item.recordCount == c.files[f].recordCount
    && item.rawEventCount == c.files[f].rawEventCount && item.size == c.files[f].size && item.sha == c.files[f].sha
    && forall s :: s in item.snapshots <==> HeldBy(c, api, f, s)
  }

  lemma {:induction false} InPlanIff(c: Cat, api: Option<string>, f: int)
    ensures InPlan(c, api, f) <==> ToBackUp(c, api, f)
  {
    if InPlan(c, api, f) {
      var s :| s in Holders(c, api, f, |c.snapshots|);
      assert HeldBy(c, api, f, s);
    }
    if ToBackUp(c, api, f) {
      var s :| HeldBy(c, api, f, s);
      assert s in Holders(c, api, f, |c.snapshots|);
    }
  }

  lemma {:induction false} ItemIff(item: BackupItem, c: Cat, api: Option<string>, f: nat)
    requires f < |c.files|
    ensures item == ItemFor(c.files[f], f, Holders(c, api, f, |c.snapshots|)) <==> Describes(item, c, api, f)
  {
    var holders := Holders(c, api, f, |c.snapshots|);
    assert forall s :: s in holders <==> HeldBy(c, api, f, s);
    if Describes(item, c, api, f) {
      assert item.snapshots == holders;
    }
  }

  lemma {:induction false} PlannedIff(c: Cat, api: Option<string>, n: nat, item: BackupItem)
    requires n <= |c.files|
    ensures item in PlanItems(c, api, n)
            <==> item.file < n && InPlan(c, api, item.file)
                 && item == ItemFor(c.files[item.file], item.file, Holders(c, api, item.file, |c.snapshots|))
  {
    if n > 0 {
      PlannedIff(c, api, n - 1, item);
    }
  }

  /** The plan lists every file to back up once, in the order of the files, and nothing else. */
  lemma {:induction false} PlanIsExact(c: Cat, api: Option<string>, item: BackupItem)
    ensures item in PlanItems(c, api, |c.files|)
            <==> ToBackUp(c, api, item.file) && Describes(item, c, api, item.file)
  {
    PlannedIff(c, api, |c.files|, item);
    InPlanIff(c, api, item.file);
    if item.file < |c.files| {
      ItemIff(item, c, api, item.file);
    }
  }

  lemma {:induction false} PlanIsOrdered(c: Cat, api: Option<string>, n: nat)
    requires n <= |c.files|
    ensures forall i | 0 <= i < |PlanItems(c, api, n)| :: PlanItems(c, api, n)[i].file < n
    ensures forall i, j | 0 <= i < j < |PlanItems(c, api, n)| ::
              PlanItems(c, api, n)[i].file < PlanItems(c, api, n)[j].file
  {
    if n > 0 {
      PlanIsOrdered(c, api, n - 1);
    }
  }

  /** The plan in terms of the tables. */
  ghost predicate IsPlanOf(plan: BackupPlan, c: Cat, api: Option<string>) {
    && (forall s :: s in plan.snapshots <==>
          0 <= s < |c.snapshots| && c.snapshots[s].current && (api.None? || c.snapshots[s].apiName == api.value))
    && (plan.rejected <==> plan.snapshots == {})
    && (forall item :: item in plan.items <==> ToBackUp(c, api, item.file) && Describes(item, c, api, item.file))
    && (forall i, j | 0 <= i < j < |plan.items| :: plan.items[i].file < plan.items[j].file)
  }

  lemma {:induction false} PlanMeans(c: Cat, api: Option<string>)
    ensures IsPlanOf(PlanOf(c, api), c, api)
  {
    forall item
      ensures item in PlanOf(c, api).items <==> ToBackUp(c, api, item.file) && Describes(item, c, api, item.file)
    {
      PlanIsExact(c, api, item);
    }
    PlanIsOrdered(c, api, |c.files|);
  }

  /** The holders seen so far: the files below f have been looked up in one snapshot more. */
  ghost function SeenHolders(c: Cat, api: Option<string>, s: nat, f: nat, g: FileId): set<SnapshotId>
    requires s <= |c.snapshots| && (f > 0 ==> s < |c.snapshots|)
  {
    Holders(c, api, g, if g < f then s + 1 else s)
  }

  ghost function HeldSoFar(c: Cat, api: Option<string>, s: nat, f: nat): map<FileId, set<SnapshotId>>
    requires s <= |c.snapshots| && (f > 0 ==> s < |c.snapshots|)
  {
    map g: FileId | 0 <= g < |c.files| && Wanted(c.files[g]) && SeenHolders(c, api, s, f, g) != {} ::
      SeenHolders(c, api, s, f, g)
  }

  lemma {:induction false} SeenGrows(c: Cat, api: Option<string>, s: nat, f: nat, g: FileId)
    requires s < |c.snapshots|
    ensures SeenHolders(c, api, s, f + 1, g)
            == SeenHolders(c, api, s, f, g)
               + if g == f && InScope(c.snapshots[s], api) && f in c.snapshots[s].files then {s} else {}
  {}

  lemma {:induction false} HeldGrows(c: Cat, api: Option<string>, s: nat, f: nat)
    requires s < |c.snapshots| && f < |c.files|
    ensures var held := HeldSoFar(c, api, s, f);
            HeldSoFar(c, api, s, f + 1)
            == if InScope(c.snapshots[s], api) && f in c.snapshots[s].files && Wanted(c.files[f])
               then held[f := (if f in held then held[f] else {}) + {s}] else held
  {
    var held, grown := HeldSoFar(c, api, s, f), HeldSoFar(c, api, s, f + 1);
    var hit := InScope(c.snapshots[s], api) && f in c.snapshots[s].files && Wanted(c.files[f]);
    var expected := if hit then held[f := (if f in held then held[f] else {}) + {s}] else held;
    forall g: FileId
      ensures g in grown <==> g in expected
      ensures g in grown ==> grown[g] == expected[g]
    {
      SeenGrows(c, api, s, f, g);
    }
  }

  class BackupPlanner {
    const catalog: CatalogStore

    constructor (catalog: CatalogStore)
      ensures this.catalog == catalog
    {
      this.catalog := catalog;
    }

    /** One snapshot's files join the ones collected before. */
    method Collect(api: Option<string>, s: nat, before: map<FileId, set<SnapshotId>>)
      returns (held: map<FileId, set<SnapshotId>>)
      requires s < |catalog.snapshots| && before == HeldSoFar(catalog.State(), api, s, 0)
      ensures held == HeldSoFar(catalog.State(), api, s + 1, 0)
    {
      held := before;
      var files, snapshot := catalog.files, catalog.snapshots[s];
      for f := 0 to |files|
        invariant held == HeldSoFar(catalog.State(), api, s, f)
      {
        HeldGrows(catalog.State(), api, s, f);
        if InScope(snapshot, api) && f in snapshot.files && Wanted(files[f]) {
          held := held[f := (if f in held then held[f] else {}) + {s}];
        }
      }
    }

    /** The plan names the current snapshots in scope, and is refused if there are none. It lists the
        raw, lake and object files that they hold and that are usable, each once, as their rows
        describe them, and nothing else. */
    method Plan(api: Option<string>) returns (plan: BackupPlan)
      ensures IsPlanOf(plan, catalog.State(), api)
      ensures plan == PlanOf(catalog.State(), api)
    {
      var c := catalog.State();
      PlanMeans(c, api);
      var snapshots := LatestSnapshots(c, api);
      if snapshots == {} {
        NothingInScope(c, api, |c.files|);
        return BackupPlan({}, [], true);
      }
      var held: map<FileId, set<SnapshotId>> := map[];
      for s := 0 to |c.snapshots|
        invariant held == HeldSoFar(c, api, s, 0)
      {
        held := Collect(api, s, held);
      }
      var items := [];
      for f := 0 to |c.files|
        invariant items == PlanItems(c, api, f)
      {
        if f in held {
          items := items + [ItemFor(c.files[f], f, held[f])];
        }
      }
      plan := BackupPlan(snapshots, items, false);
    }
  }

  lemma {:induction false} NothingInScope(c: Cat, api: Option<string>, n: nat)
    requires LatestSnapshots(c, api) == {} && n <= |c.files|
    ensures PlanItems(c, api, n) == []
  {
    if n > 0 {
      NothingInScope(c, api, n - 1);
      assert Holders(c, api, n - 1, |c.snapshots|) <= LatestSnapshots(c, api);
    }
  }

  // ---- the restore check ----

  datatype CheckFailure =
    | ManifestMissing | UnsupportedVersion | FileCountMismatch
    | CatalogMissing | CatalogSizeMismatch | CatalogChecksumMismatch | CatalogUnreadable
    | ConfigMissing(name: string) | ConfigSizeMismatch(name: string) | ConfigChecksumMismatch(name: string)
    | FileFailed(file: FileId, reason: FileFailure)

  function CatalogFailures(entry: CatalogEntry, found: Option<CatalogFile>): seq<CheckFailure> {
    if found.None? then [CatalogMissing]
    else
      (if entry.size == 0 || entry.size != found.value.bytes then [CatalogSizeMismatch] else [])
      + (if entry.sha != HashOf(found.value) then [CatalogChecksumMismatch] else [])
      + (if !found.value.readable then [CatalogUnreadable] else [])
  }

  function ConfigFailures(entry: ConfigEntry, found: Option<ConfigFile>): seq<CheckFailure> {
    if found.None? then [ConfigMissing(entry.name)]
    else
      (if entry.size == 0 || entry.size != found.value.bytes then [ConfigSizeMismatch(entry.name)] else [])
      + (if entry.sha != HashOf(found.value) then [ConfigChecksumMismatch(entry.name)] else [])
  }

  function ConfigsFailures(entries: seq<ConfigEntry>, configs: map<string, ConfigFile>): seq<CheckFailure> {
    if entries == [] then []
    else
      var n := |entries| - 1;
      ConfigsFailures(entries[..n], configs) + ConfigFailures(entries[n], Find(configs, entries[n].name))
  }

  function SizeReasons(item: BackupItem, content: Content): seq<FileFailure> {
    if item.size == 0 || item.size != content.bytes then [SizeMismatch] else []
  }

  function HashReasons(item: BackupItem, content: Content): seq<FileFailure> {
    if item.sha != Sha256(content) then [ChecksumMismatch] else []
  }

  function BasicReasons(item: BackupItem, content: Content): seq<FileFailure> {
    SizeReasons(item, content) + HashReasons(item, content)
  }

  function LakeReasons(item: BackupItem, content: Content): seq<FileFailure> {
    if !item.layer.Lake? then []
    else if !content.Parquet? then [ParquetFooterUnreadable]
    else if item.recordCount.Some? && |content.rows| != item.recordCount.value then [RecordCountMismatch] else []
  }

  function RawReasons(item: BackupItem, content: Content): seq<FileFailure> {
    if !item.layer.Raw? then []
    else if !content.Jsonl? then [RawUnreadable]
    else if item.rawEventCount.Some? && |content.events| != item.rawEventCount.value then [RawEventCountMismatch]
        else []
  }

  /** What is wrong with the content found for an item. */
  function ItemReasons(item: BackupItem, found: Option<Content>): seq<FileFailure> {
    if found.None? then [MissingFile]
    else BasicReasons(item, found.value) + (LakeReasons(item, found.value) + RawReasons(item, found.value))
  }

  function Tagged(file: FileId, reasons: seq<FileFailure>): seq<CheckFailure> {
    seq(|reasons|, i requires 0 <= i < |reasons| => FileFailed(file, reasons[i]))
  }

  function FilesFailures(items: seq<BackupItem>, files: map<Path, Content>): seq<CheckFailure> {
    if items == [] then []
    else
      var n := |items| - 1;
      FilesFailures(items[..n], files) + Tagged(items[n].file, ItemReasons(items[n], Find(files, items[n].path)))
  }

  function ManifestFailures(manifest: Option<Manifest>): seq<CheckFailure> {
    if manifest.None? then [ManifestMissing]
    else
      (if manifest.value.version != MANIFEST_VERSION then [UnsupportedVersion] else [])
      + (if manifest.value.fileCount != |manifest.value.files| then [FileCountMismatch] else [])
  }

  /** `RestoreChecker.check`: a manifest that is not valid ends the check. */
  function CheckFailures(root: Root): seq<CheckFailure> {
    var invalid := ManifestFailures(root.manifest);
    if invalid != [] then invalid
    else
      var m := root.manifest.value;
      CatalogFailures(m.catalog, root.catalog) + ConfigsFailures(m.configs, root.configs)
          + FilesFailures(m.files, root.files)
  }

  // ---- what the check means ----

  ghost predicate ItemOk(item: BackupItem, found: Option<Content>) {
    && found.Some? && item.size > 0 && found.value.bytes == item.size && Sha256(found.value) == item.sha
    && (item.layer.Lake? ==>
          found.value.Parquet? && (item.recordCount.Some? ==> |found.value.rows| == item.recordCount.value))
    && (item.layer.Raw? ==>
          found.value.Jsonl? && (item.rawEventCount.Some? ==> |found.value.events| == item.rawEventCount.value))
  }

  ghost predicate ConfigOk(entry: ConfigEntry, found: Option<ConfigFile>) {
    found.Some? && entry.size > 0 && found.value.bytes == entry.size && HashOf(found.value) == entry.sha
  }

  ghost predicate CatalogOk(entry: CatalogEntry, found: Option<CatalogFile>) {
    found.Some? && entry.size > 0 && found.value.bytes == entry.size && HashOf(found.value) == entry.sha
        && found.value.readable
  }

  ghost predicate FilesOk(items: seq<BackupItem>, files: map<Path, Content>) {
    forall item | item in items :: ItemOk(item, Find(files, item.path))
  }

  ghost predicate ConfigsOk(entries: seq<ConfigEntry>, configs: map<string, ConfigFile>) {
    forall entry | entry in entries :: ConfigOk(entry, Find(configs, entry.name))
  }

  ghost predicate Sound(root: Root) {
    && root.manifest.Some?
    && var m := root.manifest.value;
       && m.version == MANIFEST_VERSION && m.fileCount == |m.files|
       && CatalogOk(m.catalog, root.catalog) && ConfigsOk(m.configs, root.configs) && FilesOk(m.files, root.files)
  }

  lemma {:induction false} ItemIsExact(item: BackupItem, found: Option<Content>)
    ensures ItemReasons(item, found) == [] <==> ItemOk(item, found)
  {}

  lemma {:induction false} FilesOkSplit(items: seq<BackupItem>, last: BackupItem, files: map<Path, Content>)
    ensures FilesOk(items + [last], files) <==> FilesOk(items, files) && ItemOk(last, Find(files, last.path))
  {
    if FilesOk(items + [last], files) {
      assert last in items + [last];
      forall item | item in items
        ensures ItemOk(item, Find(files, item.path))
      {
        assert item in items + [last];
      }
    }
  }

  lemma {:induction false} NoReasons(item: BackupItem, found: Option<Content>)
    ensures Tagged(item.file, ItemReasons(item, found)) == [] <==> ItemOk(item, found)
  {
    ItemIsExact(item, found);
    assert |Tagged(item.file, ItemReasons(item, found))| == |ItemReasons(item, found)|;
  }

  lemma {:induction false} BothEmpty<T>(a: seq<T>, b: seq<T>)
    ensures a + b == [] <==> a == [] && b == []
  {
    assert |a + b| == |a| + |b|;
  }

  lemma {:induction false} FilesAreExact(items: seq<BackupItem>, files: map<Path, Content>)
    ensures FilesFailures(items, files) == [] <==> FilesOk(items, files)
  {
    if items != [] {
      var n := |items| - 1;
      FilesAreExact(items[..n], files);
      NoReasons(items[n], Find(files, items[n].path));
      BothEmpty(FilesFailures(items[..n], files),
                Tagged(items[n].file, ItemReasons(items[n], Find(files, items[n].path))));
      assert items == items[..n] + [items[n]];
      FilesOkSplit(items[..n], items[n], files);
    }
  }

  lemma {:induction false} ConfigIsExact(entry: ConfigEntry, found: Option<ConfigFile>)
    ensures ConfigFailures(entry, found) == [] <==> ConfigOk(entry, found)
  {}

  lemma {:induction false} ConfigsOkSplit(entries: seq<ConfigEntry>, last: ConfigEntry,
                                          configs: map<string, ConfigFile>)
    ensures ConfigsOk(entries + [last], configs)
            <==> ConfigsOk(entries, configs) && ConfigOk(last, Find(configs, last.name))
  {
    if ConfigsOk(entries + [last], configs) {
      assert last in entries + [last];
      forall entry | entry in entries
        ensures ConfigOk(entry, Find(configs, entry.name))
      {
        assert entry in entries + [last];
      }
    }
  }

  lemma {:induction false} ConfigsAreExact(entries: seq<ConfigEntry>, configs: map<string, ConfigFile>)
    ensures ConfigsFailures(entries, configs) == [] <==> ConfigsOk(entries, configs)
  {
    if entries != [] {
      var n := |entries| - 1;
      ConfigsAreExact(entries[..n], configs);
      ConfigIsExact(entries[n], Find(configs, entries[n].name));
      BothEmpty(ConfigsFailures(entries[..n], configs), ConfigFailures(entries[n], Find(configs, entries[n].name)));
      assert entries == entries[..n] + [entries[n]];
      ConfigsOkSplit(entries[..n], entries[n], configs);
    }
  }

  /** The check finds nothing exactly when the backup is what its manifest says. */
  lemma {:induction false} CheckIsExact(root: Root)
    ensures CheckFailures(root) == [] <==> Sound(root)
  {
    if ManifestFailures(root.manifest) == [] {
      FilesAreExact(root.manifest.value.files, root.files);
      ConfigsAreExact(root.manifest.value.configs, root.configs);
    }
  }

  // ---- every finding says what is wrong ----

  lemma {:induction false} ManifestFindings(manifest: Option<Manifest>, failure: CheckFailure)
    ensures failure in ManifestFailures(manifest) <==>
            match failure
            case ManifestMissing => manifest.None?
            case UnsupportedVersion => manifest.Some? && manifest.value.version != 1
            case FileCountMismatch => manifest.Some? && manifest.value.fileCount != |manifest.value.files|
            case _ => false
  {}

  lemma {:induction false} CatalogFindings(entry: CatalogEntry, found: Option<CatalogFile>, failure: CheckFailure)
    ensures failure in CatalogFailures(entry, found) <==>
            match failure
            case CatalogMissing => found.None?
            case CatalogSizeMismatch => found.Some? && (entry.size == 0 || found.value.bytes != entry.size)
            case CatalogChecksumMismatch => found.Some? && HashOf(found.value) != entry.sha
            case CatalogUnreadable => found.Some? && !found.value.readable
            case _ => false
  {}

  lemma {:induction false} ConfigFindings(entry: ConfigEntry, found: Option<ConfigFile>, failure: CheckFailure)
    ensures failure in ConfigFailures(entry, found) <==>
            match failure
            case ConfigMissing(name) => name == entry.name && found.None?
            case ConfigSizeMismatch(name) =>
              name == entry.name && found.Some? && (entry.size == 0 || found.value.bytes != entry.size)
            case ConfigChecksumMismatch(name) => name == entry.name && found.Some? && HashOf(found.value) != entry.sha
            case _ => false
  {}

  lemma {:induction false} ItemFindings(item: BackupItem, found: Option<Content>, reason: FileFailure)
    ensures reason in ItemReasons(item, found) <==>
            match reason
            case MissingFile => found.None?
            case SizeMismatch => found.Some? && (item.size == 0 || found.value.bytes != item.size)
            case ChecksumMismatch => found.Some? && Sha256(found.value) != item.sha
            case ParquetFooterUnreadable => found.Some? && item.layer.Lake? && !found.value.Parquet?
            case RecordCountMismatch =>
              found.Some? && item.layer.Lake? && found.value.Parquet? && item.recordCount.Some?
              && |found.value.rows| != item.recordCount.value
            case RawUnreadable => found.Some? && item.layer.Raw? && !found.value.Jsonl?
            case RawEventCountMismatch =>
              found.Some? && item.layer.Raw? && found.value.Jsonl? && item.rawEventCount.Some?
              && |found.value.events| != item.rawEventCount.value
            case SchemaIdMissing => false
  {}

  // ---- the check as a loop ----

  datatype Counts = Counts(checked: nat, raw: nat, lake: nat, missing: nat, checksum: nat, size: nat, record: nat,
                           rawEvent: nat, parquet: nat, rawFailure: nat)

  function OfReason(failures: seq<CheckFailure>, reason: FileFailure): nat {
    if failures == [] then 0
    else
      var last := failures[|failures| - 1];
      OfReason(failures[..|failures| - 1], reason) + if last.FileFailed? && last.reason == reason then 1 else 0
  }

  /** A counter is the number of failures of its kind, a layer count that of the items in the layer. */
  lemma {:induction false} ReasonsAreCounted(failures: seq<CheckFailure>, reason: FileFailure)
    ensures OfReason(failures, reason) == |FailedFor(failures, reason)|
  {
    if failures != [] {
      var n := |failures| - 1;
      ReasonsAreCounted(failures[..n], reason);
      OneMoreFailed(failures[..n], failures[n], reason);
      assert failures == failures[..n] + [failures[n]];
    }
  }

  lemma {:induction false} OneMoreFailed(failures: seq<CheckFailure>, last: CheckFailure, reason: FileFailure)
    ensures FailedFor(failures + [last], reason)
            == FailedFor(failures, reason)
               + if last.FileFailed? && last.reason == reason then {|failures|} else {}
    ensures |failures| !in FailedFor(failures, reason)
  {}

  function FailedFor(failures: seq<CheckFailure>, reason: FileFailure): set<nat> {
    set i: nat | i < |failures| && failures[i].FileFailed? && failures[i].reason == reason
  }

  lemma {:induction false} LayersAreCounted(items: seq<BackupItem>, layer: ContentType)
    ensures OfLayer(items, layer) == |InLayer(items, layer)|
  {
    if items != [] {
      var n := |items| - 1;
      LayersAreCounted(items[..n], layer);
      assert InLayer(items, layer) == InLayer(items[..n], layer) + if items[n].layer == layer then {n} else {};
    }
  }

  function InLayer(items: seq<BackupItem>, layer: ContentType): set<nat> {
    set i: nat | i < |items| && items[i].layer == layer
  }

  lemma {:induction false} OneMoreReason(failures: seq<CheckFailure>, failure: CheckFailure)
    ensures forall r {:trigger OfReason(failures + [failure], r)} :: OfReason(failures + [failure], r)
              == OfReason(failures, r) + if failure.FileFailed? && failure.reason == r then 1 else 0
  {
    assert (failures + [failure])[..|failures|] == failures;
  }

  /** Every counter of a failure kind tells how many such failures are listed. */
  ghost predicate CountsAgree(failures: seq<CheckFailure>, n: Counts) {
    && n.missing == OfReason(failures, MissingFile) && n.size == OfReason(failures, SizeMismatch)
    && n.checksum == OfReason(failures, ChecksumMismatch) && n.record == OfReason(failures, RecordCountMismatch)
    && n.parquet == OfReason(failures, ParquetFooterUnreadable)
    && n.rawEvent == OfReason(failures, RawEventCountMismatch)
    && n.rawFailure == OfReason(failures, RawUnreadable)
  }

  function OfLayer(items: seq<BackupItem>, layer: ContentType): nat {
    if items == [] then 0
    else OfLayer(items[..|items| - 1], layer) + if items[|items| - 1].layer == layer then 1 else 0
  }

  lemma {:induction false} TaggedConcat(file: FileId, a: seq<FileFailure>, b: seq<FileFailure>)
    ensures Tagged(file, a + b) == Tagged(file, a) + Tagged(file, b)
  {}

  lemma {:induction false} TaggedTwo(file: FileId, earlier: seq<CheckFailure>, a: seq<FileFailure>,
                                     b: seq<FileFailure>)
    ensures earlier + Tagged(file, a) + Tagged(file, b) == earlier + Tagged(file, a + b)
  {
    TaggedConcat(file, a, b);
  }

  lemma {:induction false} TaggedThree(file: FileId, earlier: seq<CheckFailure>, a: seq<FileFailure>,
                                       b: seq<FileFailure>, c: seq<FileFailure>)
    ensures earlier + Tagged(file, a) + Tagged(file, b) + Tagged(file, c) == earlier + Tagged(file, a + (b + c))
  {
    TaggedConcat(file, a, b + c);
    TaggedConcat(file, b, c);
  }

  /** The counter of this kind of failure, one up. */
  function CountUp(n: Counts, reason: FileFailure): Counts {
    match reason
    case SizeMismatch => n.(size := n.size + 1)
    case ChecksumMismatch => n.(checksum := n.checksum + 1)
    case RecordCountMismatch => n.(record := n.record + 1)
    case ParquetFooterUnreadable => n.(parquet := n.parquet + 1)
    case RawEventCountMismatch => n.(rawEvent := n.rawEvent + 1)
    case RawUnreadable => n.(rawFailure := n.rawFailure + 1)
    case MissingFile => n.(missing := n.missing + 1)
    case SchemaIdMissing => n
  }

  lemma {:induction false} CountUpAgrees(failures: seq<CheckFailure>, n: Counts, file: FileId, reason: FileFailure)
    requires CountsAgree(failures, n)
    ensures CountsAgree(failures + [FileFailed(file, reason)], CountUp(n, reason))
  {
    OneMoreReason(failures, FileFailed(file, reason));
  }

  /** `_check_file` once the file has been found: its size... */
  method CheckSize(item: BackupItem, content: Content, earlier: seq<CheckFailure>, before: Counts)
    returns (failures: seq<CheckFailure>, n: Counts)
    requires CountsAgree(earlier, before)
    ensures failures == earlier + Tagged(item.file, SizeReasons(item, content))
    ensures CountsAgree(failures, n)
    ensures n.checked == before.checked && n.missing == before.missing && n.raw == before.raw && n.lake == before.lake
  {
    failures, n := AppendIf(item.size == 0 || item.size != content.bytes, item.file, SizeMismatch, earlier, before);
  }

  /** ... its hash... */
  method CheckHash(item: BackupItem, content: Content, earlier: seq<CheckFailure>, before: Counts)
    returns (failures: seq<CheckFailure>, n: Counts)
    requires CountsAgree(earlier, before)
    ensures failures == earlier + Tagged(item.file, HashReasons(item, content))
    ensures CountsAgree(failures, n)
    ensures n.checked == before.checked && n.missing == before.missing && n.raw == before.raw && n.lake == before.lake
  {
    failures, n := AppendIf(item.sha != Sha256(content), item.file, ChecksumMismatch, earlier, before);
  }

  method CheckBasics(item: BackupItem, content: Content, earlier: seq<CheckFailure>, before: Counts)
    returns (failures: seq<CheckFailure>, n: Counts)
    requires CountsAgree(earlier, before)
    ensures failures == earlier + Tagged(item.file, BasicReasons(item, content))
    ensures CountsAgree(failures, n)
    ensures n.checked == before.checked && n.missing == before.missing && n.raw == before.raw && n.lake == before.lake
  {
    failures, n := CheckSize(item, content, earlier, before);
    failures, n := CheckHash(item, content, failures, n);
    TaggedTwo(item.file, earlier, SizeReasons(item, content), HashReasons(item, content));
  }

  /** ... what it takes opening the file to see: for a lake file... */
  method CheckLake(item: BackupItem, content: Content, earlier: seq<CheckFailure>, before: Counts)
    returns (failures: seq<CheckFailure>, n: Counts)
    requires CountsAgree(earlier, before)
    ensures failures == earlier + Tagged(item.file, LakeReasons(item, content))
    ensures CountsAgree(failures, n)
    ensures n.checked == before.checked && n.missing == before.missing && n.raw == before.raw && n.lake == before.lake
  {
    failures, n := earlier, before;
    if item.layer.Lake? {
      var rows := content.Parquet? && item.recordCount.Some? && |content.rows| != item.recordCount.value;
      failures, n := AppendIf(!content.Parquet? || rows, item.file,
                              if content.Parquet? then RecordCountMismatch else ParquetFooterUnreadable, failures, n);
    }
  }

  /** ... and for a raw file. */
  method CheckRaw(item: BackupItem, content: Content, earlier: seq<CheckFailure>, before: Counts)
    returns (failures: seq<CheckFailure>, n: Counts)
    requires CountsAgree(earlier, before)
    ensures failures == earlier + Tagged(item.file, RawReasons(item, content))
    ensures CountsAgree(failures, n)
    ensures n.checked == before.checked && n.missing == before.missing && n.raw == before.raw && n.lake == before.lake
  {
    failures, n := earlier, before;
    if item.layer.Raw? {
      var events := content.Jsonl? && item.rawEventCount.Some? && |content.events| != item.rawEventCount.value;
      failures, n := AppendIf(!content.Jsonl? || events, item.file,
                              if content.Jsonl? then RawEventCountMismatch else RawUnreadable, failures, n);
    }
  }

  /** If there is a failure, it is listed and its counter goes up. */
  method AppendIf(found: bool, file: FileId, reason: FileFailure, failures: seq<CheckFailure>, n: Counts)
    returns (failures': seq<CheckFailure>, n': Counts)
    requires CountsAgree(failures, n) && !reason.MissingFile?
    ensures failures' == failures + Tagged(file, if found then [reason] else [])
    ensures CountsAgree(failures', n')
    ensures n'.checked == n.checked && n'.missing == n.missing && n'.raw == n.raw && n'.lake == n.lake
  {
    if !found {
      return failures, n;
    }
    CountUpAgrees(failures, n, file, reason);
    failures', n' := failures + [FileFailed(file, reason)], CountUp(n, reason);
  }

  method CheckFile(item: BackupItem, found: Option<Content>, earlier: seq<CheckFailure>, before: Counts)
    returns (failures: seq<CheckFailure>, n: Counts)
    requires CountsAgree(earlier, before)
    ensures failures == earlier + Tagged(item.file, ItemReasons(item, found))
    ensures CountsAgree(failures, n)
    ensures n.checked + n.missing == before.checked + before.missing + 1
    ensures n.raw == before.raw + (if item.layer.Raw? then 1 else 0)
            && n.lake == before.lake + (if item.layer.Lake? then 1 else 0)
  {
    n := before;
    if item.layer.Raw? {
      n := n.(raw := n.raw + 1);
    }
    if item.layer.Lake? {
      n := n.(lake := n.lake + 1);
    }
    if found.None? {
      CountUpAgrees(earlier, n, item.file, MissingFile);
      return earlier + [FileFailed(item.file, MissingFile)], CountUp(n, MissingFile);
    }
    n := n.(checked := n.checked + 1);
    failures, n := CheckFound(item, found.value, earlier, n);
  }

  method CheckFound(item: BackupItem, content: Content, earlier: seq<CheckFailure>, before: Counts)
    returns (failures: seq<CheckFailure>, n: Counts)
    requires CountsAgree(earlier, before)
    ensures failures == earlier + Tagged(item.file, ItemReasons(item, Some(content)))
    ensures CountsAgree(failures, n)
    ensures n.checked == before.checked && n.missing == before.missing && n.raw == before.raw && n.lake == before.lake
  {
    failures, n := CheckBasics(item, content, earlier, before);
    failures, n := CheckLake(item, content, failures, n);
    failures, n := CheckRaw(item, content, failures, n);
    TaggedThree(item.file, earlier, BasicReasons(item, content), LakeReasons(item, content),
                RawReasons(item, content));
  }

  lemma {:induction false} OneMoreFile(items: seq<BackupItem>, i: nat, files: map<Path, Content>,
                                       earlier: seq<CheckFailure>)
    requires i < |items|
    ensures earlier + FilesFailures(items[..i + 1], files)
            == earlier + FilesFailures(items[..i], files)
                + Tagged(items[i].file, ItemReasons(items[i], Find(files, items[i].path)))
    ensures OfLayer(items[..i + 1], Raw) == OfLayer(items[..i], Raw) + if items[i].layer.Raw? then 1 else 0
    ensures OfLayer(items[..i + 1], Lake) == OfLayer(items[..i], Lake) + if items[i].layer.Lake? then 1 else 0
  {
    var some := items[..i + 1];
    assert some != [] && some[..|some| - 1] == items[..i] && some[|some| - 1] == items[i];
  }

  lemma {:induction false} OneMoreConfig(entries: seq<ConfigEntry>, i: nat, configs: map<string, ConfigFile>,
                                         earlier: seq<CheckFailure>)
    requires i < |entries|
    ensures earlier + ConfigsFailures(entries[..i + 1], configs)
            == earlier + ConfigsFailures(entries[..i], configs)
                + ConfigFailures(entries[i], Find(configs, entries[i].name))
  {
    var some := entries[..i + 1];
    assert some != [] && some[..|some| - 1] == entries[..i] && some[|some| - 1] == entries[i];
  }

  method CheckFiles(items: seq<BackupItem>, files: map<Path, Content>, earlier: seq<CheckFailure>)
    returns (failures: seq<CheckFailure>, n: Counts)
    requires CountsAgree(earlier, Counts(0, 0, 0, 0, 0, 0, 0, 0, 0, 0))
    ensures failures == earlier + FilesFailures(items, files)
    ensures CountsAgree(failures, n) && n.checked + n.missing == |items|
    ensures n.raw == OfLayer(items, Raw) && n.lake == OfLayer(items, Lake)
  {
    failures, n := earlier, Counts(0, 0, 0, 0, 0, 0, 0, 0, 0, 0);
    for i := 0 to |items|
      invariant failures == earlier + FilesFailures(items[..i], files)
      invariant CountsAgree(failures, n) && n.checked + n.missing == i
      invariant n.raw == OfLayer(items[..i], Raw) && n.lake == OfLayer(items[..i], Lake)
    {
      OneMoreFile(items, i, files, earlier);
      failures, n := CheckFile(items[i], Find(files, items[i].path), failures, n);
    }
    assert items[..|items|] == items;
  }

  lemma {:induction false} NoFileReasons(failures: seq<CheckFailure>)
    requires forall i | 0 <= i < |failures| :: !failures[i].FileFailed?
    ensures CountsAgree(failures, Counts(0, 0, 0, 0, 0, 0, 0, 0, 0, 0))
  {
    if failures != [] {
      NoFileReasons(failures[..|failures| - 1]);
    }
  }

  lemma {:induction false} ConfigsAreNotFiles(entries: seq<ConfigEntry>, configs: map<string, ConfigFile>)
    ensures forall i | 0 <= i < |ConfigsFailures(entries, configs)| :: !ConfigsFailures(entries, configs)[i].FileFailed?
  {
    if entries != [] {
      ConfigsAreNotFiles(entries[..|entries| - 1], configs);
    }
  }

  method CheckConfigs(entries: seq<ConfigEntry>, configs: map<string, ConfigFile>, earlier: seq<CheckFailure>)
    returns (failures: seq<CheckFailure>)
    ensures failures == earlier + ConfigsFailures(entries, configs)
  {
    failures := earlier;
    for i := 0 to |entries|
      invariant failures == earlier + ConfigsFailures(entries[..i], configs)
    {
      OneMoreConfig(entries, i, configs, earlier);
      failures := failures + ConfigFailures(entries[i], Find(configs, entries[i].name));
    }
    assert entries[..|entries|] == entries;
  }

  /** The whole check. With a valid manifest every file is counted, as checked or as missing. */
  method Check(root: Root) returns (failures: seq<CheckFailure>, n: Counts)
    ensures failures == CheckFailures(root)
    ensures failures == [] <==> Sound(root)
    ensures ManifestFailures(root.manifest) == [] ==>
              var items := root.manifest.value.files;
              && CountsAgree(failures, n) && n.checked + n.missing == |items|
              && n.raw == OfLayer(items, Raw) && n.lake == OfLayer(items, Lake)
  {
    CheckIsExact(root);
    failures, n := ManifestFailures(root.manifest), Counts(0, 0, 0, 0, 0, 0, 0, 0, 0, 0);
    if failures != [] {
      return;
    }
    var m := root.manifest.value;
    failures := CatalogFailures(m.catalog, root.catalog);
    failures := CheckConfigs(m.configs, root.configs, failures);
    ConfigsAreNotFiles(m.configs, root.configs);
    NoFileReasons(failures);
    failures, n := CheckFiles(m.files, root.files, failures);
  }

  function Total(n: Counts): nat {
    n.missing + n.checksum + n.size + n.record + n.rawEvent + n.parquet + n.rawFailure
  }

  ghost predicate Countable(failure: CheckFailure) {
    failure.FileFailed? && !failure.reason.SchemaIdMissing?
  }

  lemma {:induction false} TaggedAreCountable(item: BackupItem, found: Option<Content>)
    ensures forall i | 0 <= i < |ItemReasons(item, found)| :: Countable(Tagged(item.file, ItemReasons(item, found))[i])
  {}

  lemma {:induction false} FileFailuresAreCountable(items: seq<BackupItem>, files: map<Path, Content>)
    ensures forall i | 0 <= i < |FilesFailures(items, files)| :: Countable(FilesFailures(items, files)[i])
  {
    if items != [] {
      var n := |items| - 1;
      FileFailuresAreCountable(items[..n], files);
      TaggedAreCountable(items[n], Find(files, items[n].path));
    }
  }

  lemma {:induction false} CountedOnce(failures: seq<CheckFailure>, n: Counts)
    requires CountsAgree(failures, n) && forall i | 0 <= i < |failures| :: Countable(failures[i])
    ensures Total(n) == |failures|
  {
    if failures != [] {
      var rest, last := failures[..|failures| - 1], failures[|failures| - 1];
      CountedOnce(rest, Counts(n.checked, n.raw, n.lake, OfReason(rest, MissingFile),
                               OfReason(rest, ChecksumMismatch), OfReason(rest, SizeMismatch),
                               OfReason(rest, RecordCountMismatch), OfReason(rest, RawEventCountMismatch),
                               OfReason(rest, ParquetFooterUnreadable), OfReason(rest, RawUnreadable)));
    }
  }

  /** The seven counters add up to the number of file failures, so some counter is positive
      exactly when a file has failed. */
  lemma {:induction false} CountersAddUp(items: seq<BackupItem>, files: map<Path, Content>, n: Counts)
    requires CountsAgree(FilesFailures(items, files), n)
    ensures Total(n) == |FilesFailures(items, files)|
    ensures Total(n) == 0 <==> FilesOk(items, files)
  {
    FileFailuresAreCountable(items, files);
    CountedOnce(FilesFailures(items, files), n);
    FilesAreExact(items, files);
  }
}
