/** The recorded type of a column over runs: as long as every batch of its API carries the column,
    the type only goes from int to float, whatever else the batches contain. */
module SchemaHistory {
  import opened Wrappers
  import opened Schema

  // ---- one step ----

  /** A recorded type is kept, or goes from int to float. */
  predicate KeptOrWidened(t: Logical, u: Logical) {
    t == u || (t.IntType? && u.FloatType?)
  }

  /** The schema has the column, with a type. */
  predicate HasColumn(s: SchemaDef, f: string) {
    f in s.types && !s.types[f].NullType?
  }

  /** The later schema has the column of the earlier one and keeps or widens its type. */
  predicate KeepsColumn(s: SchemaDef, later: SchemaDef, f: string)
    requires HasColumn(s, f)
  {
    HasColumn(later, f) && KeptOrWidened(s.types[f], later.types[f])
  }

  /** An accepted batch that carries a column keeps or widens the recorded type of the column. */
  lemma {:induction false} AcceptedColumn(text: Text, recorded: Option<SchemaDef>, apiName: string,
                                          fields: seq<string>, rows: seq<Row>, f: string)
    requires f in fields && Prepare(text, recorded, apiName, fields, rows).decision.Compatible()
    requires recorded.Some? && f in recorded.value.types ==> HasColumn(recorded.value, f)
    ensures var d := Prepare(text, recorded, apiName, fields, rows).decision.schema;
            HasColumn(d, f) && (recorded.Some? && HasColumn(recorded.value, f) ==> KeepsColumn(recorded.value, d, f))
  {
    if recorded.Some? && f in recorded.value.types {
      var o, d := recorded.value, Prepare(text, recorded, apiName, fields, rows).decision.schema;
      assert f !in IncompatibleChanges(o.fields, o.types, d.fields, d.types);
    }
  }

  lemma {:induction false} LatestAfterInsert(schemas: Registry, d: SchemaDef, apiName: string)
    ensures LatestSchema(InsertSchema(schemas, d), apiName)
            == if d in schemas || d.apiName != apiName then LatestSchema(schemas, apiName) else Some(d)
  {
    assert (schemas + [d])[..|schemas|] == schemas;
  }

  /** An accepted batch keeps or widens a recorded column exactly when it carries the column, or
      when its schema is one recorded before: that one is not made the latest again. */
  lemma {:induction false} ColumnNeedsItsBatch(text: Text, schemas: Registry, b: Batch, f: string)
    requires LatestSchema(schemas, b.apiName).Some? && HasColumn(LatestSchema(schemas, b.apiName).value, f)
    requires Decide(text, schemas, b).Compatible()
    ensures var latest, d := LatestSchema(schemas, b.apiName).value, Decide(text, schemas, b).schema;
            var after := LatestSchema(Offer(text, schemas, b), b.apiName);
            && (KeepsColumn(latest, d, f) <==> f in b.fields)
            && after.Some? && (KeepsColumn(latest, after.value, f) <==> f in b.fields || d in schemas)
  {
    var latest := LatestSchema(schemas, b.apiName);
    if f in b.fields {
      AcceptedColumn(text, latest, b.apiName, b.fields, b.rows, f);
    }
    LatestAfterInsert(schemas, Decide(text, schemas, b).schema, b.apiName);
  }

  // ---- whole runs ----

  /** Every recorded schema of the API has the column, and the latest one keeps or widens its type,
      although the latest is not always the last one accepted. */
  ghost predicate ColumnHistory(schemas: Registry, apiName: string, f: string) {
    forall s | s in schemas && s.apiName == apiName ::
      HasColumn(s, f) && LatestSchema(schemas, apiName).Some? && KeepsColumn(s, LatestSchema(schemas, apiName).value, f)
  }

  /** A batch of the API carries the column; everything else about it is open. */
  predicate Carries(b: Batch, apiName: string, f: string) {
    b.apiName == apiName ==> f in b.fields
  }

  /** What one step or a whole run may do to the recorded type of the column. */
  ghost predicate ColumnWidens(before: Registry, after: Registry, apiName: string, f: string) {
    LatestSchema(before, apiName).Some? ==>
      && LatestSchema(after, apiName).Some? && HasColumn(LatestSchema(before, apiName).value, f)
      && KeepsColumn(LatestSchema(before, apiName).value, LatestSchema(after, apiName).value, f)
  }

  lemma {:induction false} InsertKeepsHistory(schemas: Registry, d: SchemaDef, apiName: string, f: string)
    requires ColumnHistory(schemas, apiName, f)
    requires d.apiName == apiName ==>
               HasColumn(d, f)
               && (LatestSchema(schemas, apiName).Some? ==>
                     HasColumn(LatestSchema(schemas, apiName).value, f)
                         && KeepsColumn(LatestSchema(schemas, apiName).value, d, f))
    ensures var after := InsertSchema(schemas, d);
            && ColumnHistory(after, apiName, f) && ColumnWidens(schemas, after, apiName, f)
            && (d.apiName == apiName ==>
                  && LatestSchema(after, apiName).Some? && HasColumn(LatestSchema(after, apiName).value, f)
                  && LatestSchema(after, apiName).value.types[f] == d.types[f])
  {
    LatestIsRecorded(schemas, apiName);
    LatestAfterInsert(schemas, d, apiName);
  }

  lemma {:induction false} OfferKeepsHistory(text: Text, schemas: Registry, b: Batch, apiName: string, f: string)
    requires ColumnHistory(schemas, apiName, f) && Carries(b, apiName, f)
    ensures ColumnHistory(Offer(text, schemas, b), apiName, f)
    ensures ColumnWidens(schemas, Offer(text, schemas, b), apiName, f)
    // the type now recorded for the column is the one just accepted
    ensures b.apiName == apiName && Decide(text, schemas, b).Compatible() ==>
              var after := LatestSchema(Offer(text, schemas, b), apiName);
              && after.Some? && HasColumn(after.value, f)
              && after.value.types[f] == Decide(text, schemas, b).schema.types[f]
  {
    LatestIsRecorded(schemas, apiName);
    var d := Decide(text, schemas, b);
    if d.Compatible() {
      if b.apiName == apiName {
        AcceptedColumn(text, LatestSchema(schemas, apiName), apiName, b.fields, b.rows, f);
      }
      InsertKeepsHistory(schemas, d.schema, apiName, f);
    }
  }

  lemma {:induction false} WidensFurther(a: Registry, b: Registry, c: Registry, apiName: string, f: string)
    requires ColumnWidens(a, b, apiName, f) && ColumnWidens(b, c, apiName, f)
    ensures ColumnWidens(a, c, apiName, f)
  {}

  /** Over any run of batches the recorded type of a column only ever goes from int to float. */
  lemma {:induction false} TypesOnlyWiden(text: Text, schemas: Registry, batches: seq<Batch>, apiName: string,
                                          f: string)
    requires ColumnHistory(schemas, apiName, f) && forall b | b in batches :: Carries(b, apiName, f)
    ensures var after := OfferAll(text, schemas, batches);
            ColumnHistory(after, apiName, f) && ColumnWidens(schemas, after, apiName, f)
    decreases |batches|
  {
    if batches == [] {
      LatestIsRecorded(schemas, apiName);
    } else {
      var next := Offer(text, schemas, batches[0]);
      OfferKeepsHistory(text, schemas, batches[0], apiName, f);
      TypesOnlyWiden(text, next, batches[1..], apiName, f);
      WidensFurther(schemas, next, OfferAll(text, schemas, batches), apiName, f);
    }
  }

  /** A column that has widened once keeps its type for good. */
  lemma {:induction false} AtMostOneWidening(text: Text, schemas: Registry, first: seq<Batch>, second: seq<Batch>,
                                             apiName: string, f: string)
    requires ColumnHistory(schemas, apiName, f) && LatestSchema(schemas, apiName).Some?
    requires forall b | b in first || b in second :: Carries(b, apiName, f)
    ensures var between := OfferAll(text, schemas, first);
            var after := OfferAll(text, between, second);
            && LatestSchema(between, apiName).Some? && LatestSchema(after, apiName).Some?
            && var t0 := LatestSchema(schemas, apiName).value.types;
               var t1 := LatestSchema(between, apiName).value.types;
               var t2 := LatestSchema(after, apiName).value.types;
               && f in t0 && f in t1 && f in t2
               && (t0[f] != t1[f] ==> t0[f] == IntType && t1[f] == t2[f] == FloatType)
  {
    TypesOnlyWiden(text, schemas, first, apiName, f);
    TypesOnlyWiden(text, OfferAll(text, schemas, first), second, apiName, f);
  }

  // ---- why every batch must carry the column ----

  function TwoColumns(api: string, a: string, b: string, t: Logical): SchemaDef
    requires a != b
  {
    SchemaDef(api, [a, b], map[a := t, b := IntType], map[a := false, b := false])
  }

  function OneColumn(api: string, b: string): SchemaDef {
    SchemaDef(api, [b], map[b := IntType], map[b := false])
  }

  lemma {:induction false} TwoCellVisits(a: string, b: string, v: Value, w: Value)
    ensures Visits([a, b], [[v, w]]) == [(a, v), (b, w)]
  {
    var rows := [[v, w]];
    assert rows[..0] == [] && Visits([a, b], rows[..0]) == [];
    assert RowVisits([], [a, b], [v, w], 0) == [];
    assert RowVisits([], [a, b], [v, w], 1) == [(a, v)];
    assert RowVisits([], [a, b], [v, w], 2) == [(a, v), (b, w)];
  }

  lemma {:induction false} TwoCellTypes(a: string, b: string, v: Value, w: Value)
    requires a != b
    ensures TypeAfter([(a, v), (b, w)], a) == InferValueType(v)
    ensures TypeAfter([(a, v), (b, w)], b) == InferValueType(w)
  {
    var first, cells: seq<Cell> := [(a, v)], [(a, v), (b, w)];
    assert first[..0] == [] && cells[..1] == first;
    assert TypeAfter(first[..0], a) == TypeAfter(first[..0], b) == NullType;
    assert TypeAfter(first, a) == InferValueType(v);
    assert TypeAfter(first, b) == NullType;
  }

  lemma {:induction false} TwoCellNullable(a: string, b: string, v: Value, i: int)
    requires !v.Null?
    ensures (a, Null) !in [(a, v), (b, Int(i))] && (b, Null) !in [(a, v), (b, Int(i))]
  {}

  /** The schema of a row of two cells without nulls: the types are those of the row. */
  lemma {:induction false} TwoCellSchema(api: string, a: string, b: string, v: Value, i: int, hints: Types)
    requires a != b && !v.Null?
    ensures InferSchema(api, [a, b], [[v, Int(i)]], hints) == TwoColumns(api, a, b, InferValueType(v))
  {
    TwoCellVisits(a, b, v, Int(i));
    TwoCellTypes(a, b, v, Int(i));
    TwoCellNullable(a, b, v, i);
    var s := InferSchema(api, [a, b], [[v, Int(i)]], hints);
    assert s.types == map[a := InferValueType(v), b := IntType];
    assert s.nullable == map[a := false, b := false];
  }

  lemma {:induction false} OneCellSchema(api: string, b: string, i: int, hints: Types)
    ensures InferSchema(api, [b], [[Int(i)]], hints) == OneColumn(api, b)
  {
    var rows, cells := [[Int(i)]], [(b, Int(i))];
    assert rows[..0] == [] && Visits([b], rows[..0]) == [];
    assert RowVisits([], [b], [Int(i)], 0) == [];
    assert Visits([b], rows) == cells && cells[..0] == [];
    assert TypeAfter(cells, b) == IntType;
    var s := InferSchema(api, [b], rows, hints);
    assert s.types == OneColumn(api, b).types && s.nullable == OneColumn(api, b).nullable;
  }

  lemma {:induction false} ColumnIsNew(text: Text, api: string, a: string, b: string)
    requires a != b
    ensures Offer(text, [], Batch(api, [a, b], [[Int(1), Int(1)]])) == [TwoColumns(api, a, b, IntType)]
  {
    TwoCellSchema(api, a, b, Int(1), 1, map[]);
  }

  /** Cells whose type the target keeps stay as they are. */
  lemma {:induction false} RowStays(text: Text, fields: seq<string>, row: Row, target: Types)
    requires |row| == |fields| && forall k | 0 <= k < |fields| ::
      NormalizeCell(text, row[k], fields[k], target) == row[k]
    ensures NormalizeItems(text, fields, [row], target) == [row]
  {
    assert NormalizeRow(text, fields, row, target) == row;
  }

  lemma {:induction false} ColumnIsDropped(text: Text, api: string, a: string, b: string)
    requires a != b
    ensures var ints := TwoColumns(api, a, b, IntType);
            Offer(text, [ints], Batch(api, [b], [[Int(2)]])) == [ints, OneColumn(api, b)]
  {
    var ints := TwoColumns(api, a, b, IntType);
    RowStays(text, [b], [Int(2)], ints.types);
    OneCellSchema(api, b, 2, ints.types);
    assert IncompatibleChanges([a, b], ints.types, [b], OneColumn(api, b).types) == {};
    assert LatestSchema([ints], api) == Some(ints);
  }

  lemma {:induction false} AddingIsCompatible(api: string, a: string, b: string)
    requires a != b
    ensures Decision(TwoColumns(api, a, b, StringType),
                     CompareSchemas(OneColumn(api, b), TwoColumns(api, a, b, StringType))).Compatible()
  {
    var dropped, texts := OneColumn(api, b), TwoColumns(api, a, b, StringType);
    assert IncompatibleChanges([b], dropped.types, [a, b], texts.types) == {};
  }

  lemma {:induction false} NewColumnIsAccepted(text: Text, api: string, a: string, b: string, v: Value)
    requires a != b && v.Str?
    ensures var d := Prepare(text, Some(OneColumn(api, b)), api, [a, b], [[v, Int(3)]]).decision;
            d.Compatible() && d.schema == TwoColumns(api, a, b, StringType)
  {
    RowStays(text, [a, b], [v, Int(3)], OneColumn(api, b).types);
    TwoCellSchema(api, a, b, v, 3, OneColumn(api, b).types);
    AddingIsCompatible(api, a, b);
  }

  lemma {:induction false} ColumnComesBack(text: Text, api: string, a: string, b: string, v: Value)
    requires a != b && v.Str?
    ensures var ints, dropped := TwoColumns(api, a, b, IntType), OneColumn(api, b);
            Offer(text, [ints, dropped], Batch(api, [a, b], [[v, Int(3)]]))
            == [ints, dropped, TwoColumns(api, a, b, StringType)]
  {
    var ints, dropped := TwoColumns(api, a, b, IntType), OneColumn(api, b);
    NewColumnIsAccepted(text, api, a, b, v);
    assert LatestSchema([ints, dropped], api) == Some(dropped);
    assert TwoColumns(api, a, b, StringType).types[a] != ints.types[a];
  }

  /** A column that is dropped and comes back may have any type: int becomes text unnoticed. */
  lemma {:induction false} DroppedColumnForgetsItsType(text: Text, api: string, a: string, b: string, v: Value)
    requires a != b && v.Str?
    ensures var first := Offer(text, [], Batch(api, [a, b], [[Int(1), Int(1)]]));
            var last := Offer(text, Offer(text, first, Batch(api, [b], [[Int(2)]])), Batch(api, [a, b], [[v, Int(3)]]));
            && LatestSchema(first, api) == Some(TwoColumns(api, a, b, IntType))
            && LatestSchema(last, api) == Some(TwoColumns(api, a, b, StringType))
  {
    ColumnIsNew(text, api, a, b);
    ColumnIsDropped(text, api, a, b);
    ColumnComesBack(text, api, a, b, v);
  }
}
