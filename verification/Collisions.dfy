/** Lake paths must not collide: exactly then do all lakes stay intact whose fetches meet no unsafe
    fault. */
module Collisions {
  import opened Wrappers
  import opened Catalog
  import Snapshots
  import opened Store
  import opened Safety
  import opened Runs
  import opened Durability
  import opened Outcomes
  import opened Backfill
  import opened Convergence
  import opened Window
  import Schema
  import Client

  /** Every lake file of the slot goes to this partition, whatever the day. */
  ghost predicate Fixed(slot: Slot, partition: string) {
    forall today :: slot.partitionOn(today) == partition
  }

  lemma {:induction false} OneSlotIsDistinct(key: JobKey, slot: Slot)
    ensures SlotsDistinct(map[key := slot])
  {}

  /** After a first fetch that returns data: its lake file is live at the only path there is for it. */
  lemma {:induction false} FirstIsLive(text: Schema.Text, req: Request, slot: Slot, partition: string, sc: Script)
    returns (f: FileId)
    requires Fixed(slot, partition)
    requires var e := Fetch(text, EMPTY_LAKE, req, slot, sc); e.end.Finished? && e.end.result.snapshot.Some?
    ensures var e := Fetch(text, EMPTY_LAKE, req, slot, sc);
            && Snapshots.ChainOk(e.w.cat) && Live(e.w.cat, f) && Intact(e.w, f)
            && e.w.cat.files[f].path == LakePath(req.key.apiName, partition, slot.tail)
  {
    var slots := map[req.key := slot];
    var e := Fetch(text, EMPTY_LAKE, req, slot, sc);
    OneSlotIsDistinct(req.key, slot);
    EmptyInv(slots);
    InvIsOrderly(EMPTY_LAKE, slots);
    FetchKeepsInv(text, EMPTY_LAKE, req, slots, sc);
    ReturnedIsDone(text, EMPTY_LAKE, req, slots, sc);
    assert HasLakeFile(e.w.cat, req.key);
    f :| Live(e.w.cat, f) && e.w.cat.files[f].key == req.key && e.w.cat.files[f].contentType.Lake?;
    assert RowOk(e.w.cat.files[f], slots) && Intact(e.w, f);
  }

  /** The second job is not done after the first fetch. */
  lemma {:induction false} SecondIsUndone(text: Schema.Text, req: Request, slot: Slot, sc: Script, other: JobKey)
    requires other != req.key
    ensures !IsDone(Fetch(text, EMPTY_LAKE, req, slot, sc).w.cat, other)
  {
    var slots := map[req.key := slot];
    EmptyInv(slots);
    InvIsOrderly(EMPTY_LAKE, slots);
    FetchKeepsStanding(text, EMPTY_LAKE, req, slots, sc, other);
    assert StandingOf(EMPTY_LAKE.cat, other).Absent?;
  }

  /** A fetch that returns data keeps the live rows. */
  lemma {:induction false} LiveRowStays(text: Schema.Text, w: World, req: Request, slot: Slot, sc: Script, f: FileId)
    requires Snapshots.ChainOk(w.cat) && Live(w.cat, f) && !IsDone(w.cat, req.key)
    requires var e := Fetch(text, w, req, slot, sc); e.end.Finished? && e.end.result.snapshot.Some?
    ensures var e := Fetch(text, w, req, slot, sc); Live(e.w.cat, f) && e.w.cat.files[f] == w.cat.files[f]
  {
    var slots, e := map[req.key := slot], Fetch(text, w, req, slot, sc);
    UndoneFetchEnded(text, w, req, slots, sc);
    var x: World, p: Publication :| p.key == req.key && Past(w, x, e.w, slots, p);
    PastKeepsLive(w, x, e.w, slots, p, f);
  }

  /** The lake file that a fetch which returns data has put at the path of its slot. */
  lemma {:induction false} LakeFileAt(text: Schema.Text, w: World, req: Request, slot: Slot, partition: string,
                                      sc: Script)
    returns (content: Content)
    requires Fixed(slot, partition) && !ExistingActiveData(w.cat, req.key)
    requires var e := Fetch(text, w, req, slot, sc); e.end.Finished? && e.end.result.snapshot.Some?
    ensures var e := Fetch(text, w, req, slot, sc);
            && Find(e.w.disk.final, LakePath(req.key.apiName, partition, slot.tail)) == Some(content)
            && content.Parquet? && |content.rows| == e.end.result.recordCount
            && forall i | 0 <= i < |content.rows| :: content.rows[i].key == req.key
  {
    var result := FetchedFiles(text, w, req, slot, sc);
    var runId, prepared := RunOf(w.cat, req), PreparedFor(text, w.cat, req.key.apiName, result);
    content := LakeContent(runId, req.key, prepared.decision.schema, result.fields, prepared.items, sc.lakeBytes);
  }

  lemma {:induction false} OtherKeyOtherContent(a: Content, b: Content, k: JobKey, l: JobKey)
    requires a.Parquet? && b.Parquet? && a.rows != [] && k != l
    requires (forall i | 0 <= i < |a.rows| :: a.rows[i].key == k) && forall i | 0 <= i < |b.rows| :: b.rows[i].key == l
    ensures a != b
  {
    if b.rows != [] {
      assert a.rows[0].key == k && b.rows[0].key == l;
    }
  }

  /** Two different jobs of one API that end in the same characters and go to the same partition: if
      the first returns at least one row and the second returns data, then the second has put its
      rows where the first one's were, and a live file is not what its row says. */
  lemma {:induction false} CollisionLosesData(text: Schema.Text, first: Request, second: Request, slot: Slot,
                                              partition: string, sc: Script, other: Script) returns (f: FileId)
    requires first.key.apiName == second.key.apiName && first.key != second.key && Fixed(slot, partition)
    requires var e := Fetch(text, EMPTY_LAKE, first, slot, sc);
             e.end.Finished? && e.end.result.snapshot.Some? && e.end.result.recordCount > 0
    requires var e := Fetch(text, Fetch(text, EMPTY_LAKE, first, slot, sc).w, second, slot, other);
             e.end.Finished? && e.end.result.snapshot.Some?
    ensures var w := Fetch(text, Fetch(text, EMPTY_LAKE, first, slot, sc).w, second, slot, other).w;
            Live(w.cat, f) && !Intact(w, f)
  {
    var v := Fetch(text, EMPTY_LAKE, first, slot, sc).w;
    var w := Fetch(text, v, second, slot, other).w;
    f := FirstIsLive(text, first, slot, partition, sc);
    SecondIsUndone(text, first, slot, sc, second.key);
    var before := LakeFileAt(text, EMPTY_LAKE, first, slot, partition, sc);
    var after := LakeFileAt(text, v, second, slot, partition, other);
    LiveRowStays(text, v, second, slot, other, f);
    OtherKeyOtherContent(before, after, first.key, second.key);
    IntactHasHash(v, f, before);
    ChecksumTells(w.cat.files[f], before, after);
  }

  lemma {:induction false} IntactHasHash(w: World, f: FileId, content: Content)
    requires f < |w.cat.files| && Intact(w, f) && Find(w.disk.final, w.cat.files[f].path) == Some(content)
    ensures w.cat.files[f].sha == Sha256(content)
  {
    var row := w.cat.files[f];
    assert row.sha != Sha256(content) ==> ChecksumMismatch in FileFailures(row, Some(content));
  }

  // ---- only the partition of the day matters ----

  function FixedSlot(tail: string, partition: string): Slot {
    Slot(tail, (today: string) => partition)
  }

  lemma {:induction false} SlotOfTheDay(text: Schema.Text, w: World, req: Request, slot: Slot, sc: Script)
    ensures Fetch(text, w, req, slot, sc)
            == Fetch(text, w, req, FixedSlot(slot.tail, slot.partitionOn(sc.today)), sc)
  {
    assert PlanFetch(req.key, sc.today, slot)
        == PlanFetch(req.key, sc.today, FixedSlot(slot.tail, slot.partitionOn(sc.today)));
  }

  // ---- two fetches that do return data ----

  /** One page, without columns and with one row. */
  const ONE_ROW: Client.QueryResult :=
    Client.QueryResult([Client.Event(Client.Response(Some(0), [], [[]], false), 0, Client.Request(None, None))], [],
                       [[]])

  function OneRowScript(today: string): Script {
    Script([Answer(ONE_ROW)], 1, today, 1, 1, NoRot, NoRot, NoFault, NoFault, NoFault, NoFault, NoFault)
  }

  lemma {:induction false} OneRowIsAccepted(text: Schema.Text, w: World, key: JobKey, today: string)
    ensures Accepted(text, w, key, OneRowScript(today))
    ensures QueryWithRetry(OneRowScript(today).replies, 1, 1) == Answer(ONE_ROW)
  {
    var latest := Schema.LatestSchema(w.cat.schemas, key.apiName);
    if latest.Some? {
      var d := PreparedFor(text, w.cat, key.apiName, ONE_ROW).decision.schema;
      assert Schema.IncompatibleChanges(latest.value.fields, latest.value.types, d.fields, d.types) == {};
    }
  }

  function OneRowCommand(key: JobKey, today: string): Command {
    Command(Request(key, None, false, "fetch"), OneRowScript(today))
  }

  lemma {:induction false} OneRowReturns(text: Schema.Text, w: World, key: JobKey, slot: Slot, today: string)
    requires !IsDone(w.cat, key)
    ensures var e := Fetch(text, w, OneRowCommand(key, today).req, slot, OneRowScript(today));
            e.end.Finished? && e.end.result.snapshot.Some? && e.end.result.recordCount == 1
  {
    var req, sc := OneRowCommand(key, today).req, OneRowScript(today);
    OneRowIsAccepted(text, w, key, today);
    CleanFetchCommits(text, w, req, slot, sc);
    var result := FetchedFiles(text, w, req, slot, sc);
  }

  /** The two jobs of a collision, fetched on the days on which their partitions are the same. */
  function Colliding(k: JobKey, l: JobKey, today: string, later: string): seq<Command> {
    [OneRowCommand(k, today), OneRowCommand(l, later)]
  }

  lemma {:induction false} CollidingIsLegal(slots: Slots, k: JobKey, l: JobKey, today: string, later: string)
    requires k in slots && l in slots
    ensures Legal(Colliding(k, l, today, later), slots)
  {}

  lemma {:induction false} RunOne(text: Schema.Text, w: World, slots: Slots, c: Command)
    requires Known([c], slots)
    ensures c.req.key in slots && RunAll(text, w, slots, [c]) == Fetch(text, w, c.req, slots[c.req.key], c.sc).w
  {
    assert [c][0] in [c] && [c][1..] == [];
  }

  lemma {:induction false} RunTwo(text: Schema.Text, w: World, slots: Slots, a: Command, b: Command)
    requires a.req.key in slots && b.req.key in slots
    ensures Known([a, b], slots)
    ensures RunAll(text, w, slots, [a, b])
            == Fetch(text, Fetch(text, w, a.req, slots[a.req.key], a.sc).w, b.req, slots[b.req.key], b.sc).w
  {
    assert Known([b], slots) && [a, b][1..] == [b];
    RunOne(text, Fetch(text, w, a.req, slots[a.req.key], a.sc).w, slots, b);
  }

  lemma {:induction false} CollidingIsNotIntact(text: Schema.Text, slots: Slots, k: JobKey, l: JobKey, today: string,
                                                later: string)
    requires k in slots && l in slots && k != l && k.apiName == l.apiName && slots[k].tail == slots[l].tail
    requires slots[k].partitionOn(today) == slots[l].partitionOn(later)
    ensures Known(Colliding(k, l, today, later), slots)
    ensures !AllIntact(RunAll(text, EMPTY_LAKE, slots, Colliding(k, l, today, later)))
  {
    var commands := Colliding(k, l, today, later);
    var first, second := commands[0], commands[1];
    var partition := slots[k].partitionOn(today);
    var slot := FixedSlot(slots[k].tail, partition);
    CollidingIsLegal(slots, k, l, today, later);
    RunTwo(text, EMPTY_LAKE, slots, first, second);
    SlotOfTheDay(text, EMPTY_LAKE, first.req, slots[k], first.sc);
    var v := Fetch(text, EMPTY_LAKE, first.req, slot, first.sc).w;
    SlotOfTheDay(text, v, second.req, slots[l], second.sc);
    OneRowReturns(text, EMPTY_LAKE, k, slot, today);
    SecondIsUndone(text, first.req, slot, first.sc, l);
    OneRowReturns(text, v, l, slot, later);
    var f := CollisionLosesData(text, first.req, second.req, slot, partition, first.sc, second.sc);
  }

  // ---- the exact condition ----

  /** Every lake that fetches with safe faults reach has its live files on disk as recorded. */
  ghost predicate AlwaysIntact(text: Schema.Text, slots: Slots) {
    forall commands: seq<Command> | Legal(commands, slots) :: AllIntact(RunAll(text, EMPTY_LAKE, slots, commands))
  }

  /** All lakes stay intact exactly if no two keys of one API ever share tail and partition. */
  lemma {:induction false} IntactIffDistinct(text: Schema.Text, slots: Slots)
    ensures AlwaysIntact(text, slots) <==> SlotsDistinct(slots)
  {
    if SlotsDistinct(slots) {
      forall commands: seq<Command> | Legal(commands, slots)
        ensures AllIntact(RunAll(text, EMPTY_LAKE, slots, commands))
      {
        EmptyInv(slots);
        RunsAreSafe(text, EMPTY_LAKE, slots, commands);
      }
    } else {
      var k, l, partition :| k in slots && l in slots && k.apiName == l.apiName && slots[k].tail == slots[l].tail
        && GoesTo(slots[k], partition) && GoesTo(slots[l], partition) && k != l;
      var today :| slots[k].partitionOn(today) == partition;
      var later :| slots[l].partitionOn(later) == partition;
      CollidingIsLegal(slots, k, l, today, later);
      CollidingIsNotIntact(text, slots, k, l, today, later);
    }
  }
}
