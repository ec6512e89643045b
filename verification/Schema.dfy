/** Schema inference and evolution: the type of a column is inferred from a batch, the batch is
    first coerced to the recorded schema, and the result is accepted or rejected against it. */
module Schema {
  import opened Wrappers

  datatype Value = Null | Bool(b: bool) | Int(i: int) | Float(f: real) | Str(s: string)

  datatype Logical = NullType | BoolType | IntType | FloatType | StringType

  type Row = seq<Value>

  /** Text conversions of the source language, which this model takes as given. */
  datatype Text = Text(
    show: Value -> string,
    strip: string -> string,
    lower: string -> string,
    parseInt: string -> Option<int>,
    parseFloat: string -> Option<real>)

  // ---- values ----

  function InferValueType(v: Value): Logical {
    match v
    case Null => NullType
    case Bool(_) => BoolType
    case Int(_) => IntType
    case Float(_) => FloatType
    case Str(_) => StringType
  }

  function WidenType(current: Logical, valueType: Logical): Logical {
    if current == valueType then current
    else if current.NullType? then valueType
    else if valueType.NullType? then current
    else if current in {IntType, FloatType} && valueType in {IntType, FloatType} then FloatType
    else if current.StringType? || valueType.StringType? then StringType
    else valueType
  }

  predicate IsInteger(r: real) {
    r.Floor as real == r
  }

  function ShowValue(text: Text, v: Value): string {
    if v.Str? then v.s else text.show(v)
  }

  /** `coerce_value_to_logical_type` */
  function Coerce(text: Text, v: Value, expected: Logical): Value {
    if v.Null? then Null else
    match expected
    case StringType => Str(ShowValue(text, v))
    case FloatType => (
      match v
      case Int(i) => Float(i as real)
      case Str(s) =>
        var stripped := text.strip(s);
        if stripped == "" then Null
        else if text.parseFloat(stripped).Some? then Float(text.parseFloat(stripped).value)
        else v
      case _ => v)
    case IntType => (
      match v
      case Bool(b) => Int(if b then 1 else 0)
      case Float(f) => if IsInteger(f) then Int(f.Floor) else v
      case Str(s) =>
        var stripped := text.strip(s);
        if stripped == "" then Null
        else if text.parseInt(stripped).Some? then Int(text.parseInt(stripped).value)
        else if text.parseFloat(stripped).None? then v
        else
          var parsed := text.parseFloat(stripped).value;
          if IsInteger(parsed) then Int(parsed.Floor) else v
      case _ => v)
    case BoolType => (
      match v
      case Int(i) => if i == 0 || i == 1 then Bool(i == 1) else v
      case Str(s) =>
        var lowered := text.lower(text.strip(s));
        if lowered in {"true", "t", "yes", "y", "1"} then Bool(true)
        else if lowered in {"false", "f", "no", "n", "0"} then Bool(false)
        else v
      case _ => v)
    case NullType => v
  }

  lemma CoerceIsIdempotent(text: Text, v: Value, expected: Logical)
    ensures Coerce(text, Coerce(text, v, expected), expected) == Coerce(text, v, expected)
  {}

  // ---- what coercion means ----

  ghost predicate IsOf(v: Value, t: Logical) {
    match t
    case NullType => v.Null?
    case BoolType => v.Bool?
    case IntType => v.Int?
    case FloatType => v.Float?
    case StringType => v.Str?
  }

  lemma {:induction false} InferredTypeIsItsOwn(v: Value, t: Logical)
    ensures InferValueType(v) == t <==> IsOf(v, t)
  {}

  /** The number that a value stands for; true counts as 1 and false as 0. */
  function NumberOf(v: Value): Option<real> {
    match v
    case Bool(b) => Some(if b then 1.0 else 0.0)
    case Int(i) => Some(i as real)
    case Float(f) => Some(f)
    case _ => None
  }

  ghost predicate Equals(i: int, x: real) {
    i as real == x
  }

  ghost predicate Whole(x: real) {
    exists i :: Equals(i, x)
  }

  /** A number or boolean that a column of the type can hold as its own: a float column any number,
      an int column what is whole, and a boolean column booleans and the integers 0 and 1. */
  ghost predicate Holds(t: Logical, v: Value) {
    match t
    case FloatType => v.Int? || v.Float?
    case IntType => NumberOf(v).Some? && Whole(NumberOf(v).value)
    case BoolType => v.Bool? || v == Int(0) || v == Int(1)
    case _ => false
  }

  /** A text, stripped, reads as this number in a numeric column; in an int column an integer is
      tried first. */
  ghost predicate ReadsAs(text: Text, stripped: string, t: Logical, x: real) {
    match t
    case FloatType => text.parseFloat(stripped) == Some(x)
    case IntType =>
      if text.parseInt(stripped).Some? then x == text.parseInt(stripped).value as real
      else text.parseFloat(stripped) == Some(x) && Whole(x)
    case _ => false
  }

  /** What a text becomes: nothing if it is blank, the number or truth value that it reads as, or
      what it was. */
  ghost predicate TextBecomes(text: Text, s: string, t: Logical, out: Value) {
    var stripped := text.strip(s);
    match t
    case BoolType =>
      if text.lower(stripped) in {"true", "t", "yes", "y", "1"} then out == Bool(true)
      else if text.lower(stripped) in {"false", "f", "no", "n", "0"} then out == Bool(false)
      else out == Str(s)
    case StringType => out == Str(s)
    case NullType => out == Str(s)
    case _ =>
      if stripped == "" then out == Null
      else if x :| ReadsAs(text, stripped, t, x) then IsOf(out, t) && NumberOf(out) == Some(x)
      else out == Str(s)
  }

  /** What a value becomes in a column of the type. A null stays; a number or boolean keeps its value
      in the type of the column if the column can hold it; in a text column it becomes its text; and
      everything else stays what it is. */
  ghost predicate Becomes(text: Text, v: Value, t: Logical, out: Value) {
    match v
    case Null => out == Null
    case Str(s) => TextBecomes(text, s, t, out)
    case _ =>
      if t.StringType? then out == Str(text.show(v))
      else if Holds(t, v) then IsOf(out, t) && NumberOf(out) == NumberOf(v)
      else out == v
  }

  lemma {:induction false} WholeIsInteger(x: real)
    ensures Whole(x) <==> IsInteger(x)
  {
    if i :| Equals(i, x) {
      assert x.Floor == i;
    }
    if IsInteger(x) {
      assert Equals(x.Floor, x);
    }
  }

  lemma {:induction false} NumberCoerced(text: Text, v: Value, t: Logical, out: Value)
    requires !v.Str? && !v.Null?
    ensures Becomes(text, v, t, out) <==> out == Coerce(text, v, t)
  {
    WholeIsInteger(NumberOf(v).value);
  }

  /** `coerce_value_to_logical_type` does exactly this. */
  lemma {:induction false} CoercedValue(text: Text, v: Value, t: Logical, out: Value)
    ensures Becomes(text, v, t, out) <==> out == Coerce(text, v, t)
  {
    if v.Str? {
      TextCoerced(text, v.s, t, out);
    } else if !v.Null? {
      NumberCoerced(text, v, t, out);
    }
  }

  lemma {:induction false} TextCoerced(text: Text, s: string, t: Logical, out: Value)
    ensures TextBecomes(text, s, t, out) <==> out == Coerce(text, Str(s), t)
  {
    var stripped := text.strip(s);
    if t.FloatType? && text.parseFloat(stripped).Some? {
      assert ReadsAs(text, stripped, t, text.parseFloat(stripped).value);
    }
    if t.IntType? && text.parseInt(stripped).Some? {
      assert ReadsAs(text, stripped, t, text.parseInt(stripped).value as real);
    } else if t.IntType? && text.parseFloat(stripped).Some? {
      var x := text.parseFloat(stripped).value;
      WholeIsInteger(x);
      assert Whole(x) ==> ReadsAs(text, stripped, t, x);
    }
  }

  // ---- inference ----

  type Types = map<string, Logical>
  type Nullability = map<string, bool>

  function CellAt(row: Row, idx: nat): Value {
    if idx < |row| then row[idx] else Null
  }

  /** A cell as the inference loops meet it: the field it belongs to and its value. */
  type Cell = (string, Value)

  /** The cells met once the first n columns of a row are done, after those in `before`. */
  function RowVisits(before: seq<Cell>, fields: seq<string>, row: Row, n: nat): seq<Cell>
    requires n <= |fields|
  {
    if n == 0 then before
    else RowVisits(before, fields, row, n - 1) + [(fields[n - 1], CellAt(row, n - 1))]
  }

  /** All cells of a batch, row by row. */
  function Visits(fields: seq<string>, rows: seq<Row>): seq<Cell>
    decreases |rows|
  {
    if rows == [] then []
    else RowVisits(Visits(fields, rows[..|rows| - 1]), fields, rows[|rows| - 1], |fields|)
  }

  /** The type that widening arrives at for a field. */
  function TypeAfter(cells: seq<Cell>, f: string): Logical
    decreases |cells|
  {
    if cells == [] then NullType
    else
      var sofar := TypeAfter(cells[..|cells| - 1], f);
      var (g, v) := cells[|cells| - 1];
      if g == f then WidenType(sofar, InferValueType(v)) else sofar
  }

  function ColumnType(cells: seq<Cell>, f: string, hints: Types): Logical {
    var t := TypeAfter(cells, f);
    if t.NullType? then (if f in hints then hints[f] else StringType) else t
  }

  datatype SchemaParts = SchemaDef(apiName: string, fields: seq<string>, types: Types, nullable: Nullability)

  /** Both dictionaries have an entry for every field and no other. */
  ghost predicate WellFormed(s: SchemaParts) {
    s.types.Keys == s.nullable.Keys == set f | f in s.fields
  }

  type SchemaDef = s: SchemaParts | WellFormed(s) witness SchemaDef("", [], map[], map[])

  /** `infer_schema`; the schema id, a hash of all four parts, is taken to be the four parts. */
  function InferSchema(apiName: string, fields: seq<string>, rows: seq<Row>, hints: Types): SchemaDef {
    var cells := Visits(fields, rows);
    SchemaDef(apiName, fields,
              map f | f in fields :: ColumnType(cells, f, hints),
              map f | f in fields :: (f, Null) in cells)
  }

  // ---- the loops of infer_schema ----

  ghost predicate Tallied(fields: seq<string>, logical: Types, nullable: Nullability, cells: seq<Cell>) {
    && logical.Keys == nullable.Keys == (set f | f in fields)
    && forall f | f in fields :: logical[f] == TypeAfter(cells, f) && nullable[f] == ((f, Null) in cells)
  }

  lemma {:induction false} TallyCell(fields: seq<string>, logical: Types, nullable: Nullability, cells: seq<Cell>,
                                     f: string, v: Value)
    requires f in fields && Tallied(fields, logical, nullable, cells)
    ensures f in logical && f in nullable
    ensures Tallied(fields, logical[f := WidenType(logical[f], InferValueType(v))],
                    if v.Null? then nullable[f := true] else nullable, cells + [(f, v)])
  {
    var cells' := cells + [(f, v)];
    assert cells'[..|cells'| - 1] == cells;
  }

  /** The last step: a column of nulls takes its hint, or counts as text. */
  function FillIn(logical: Types, hints: Types): Types {
    map f | f in logical :: if logical[f].NullType? then (if f in hints then hints[f] else StringType) else logical[f]
  }

  lemma {:induction false} TallyDone(apiName: string, fields: seq<string>, rows: seq<Row>, hints: Types,
                                     logical: Types, nullable: Nullability)
    requires Tallied(fields, logical, nullable, Visits(fields, rows))
    ensures SchemaDef(apiName, fields, FillIn(logical, hints), nullable) == InferSchema(apiName, fields, rows, hints)
  {
    var s := InferSchema(apiName, fields, rows, hints);
    assert FillIn(logical, hints).Keys == s.types.Keys;
    assert FillIn(logical, hints) == s.types;
    assert nullable == s.nullable;
  }

  method InferSchemaLoop(apiName: string, fields: seq<string>, rows: seq<Row>, hints: Types) returns (schema: SchemaDef)
    ensures schema == InferSchema(apiName, fields, rows, hints)
  {
    var logical: Types := map f | f in fields :: NullType;
    var nullable: Nullability := map f | f in fields :: false;
    for r := 0 to |rows|
      invariant Tallied(fields, logical, nullable, Visits(fields, rows[..r]))
    {
      var row := rows[r];
      ghost var before := Visits(fields, rows[..r]);
      for idx := 0 to |fields|
        invariant Tallied(fields, logical, nullable, RowVisits(before, fields, row, idx))
      {
        var field, value := fields[idx], CellAt(row, idx);
        TallyCell(fields, logical, nullable, RowVisits(before, fields, row, idx), field, value);
        if value.Null? {
          nullable := nullable[field := true];
        }
        logical := logical[field := WidenType(logical[field], InferValueType(value))];
      }
      assert rows[..r + 1][..r] == rows[..r];
    }
    assert rows[..|rows|] == rows;
    TallyDone(apiName, fields, rows, hints, logical, nullable);
    schema := SchemaDef(apiName, fields, FillIn(logical, hints), nullable);
  }

  // ---- normalisation to the recorded schema ----

  function NormalizeCell(text: Text, v: Value, f: string, target: Types): Value {
    if f in target then Coerce(text, v, target[f]) else v
  }

  function NormalizeRow(text: Text, fields: seq<string>, row: Row, target: Types): Row {
    seq(|fields|, idx requires 0 <= idx < |fields| => NormalizeCell(text, CellAt(row, idx), fields[idx], target))
  }

  /** A cell as it is stored: a null if the item is too short for it, and otherwise what its value
      becomes in a recorded column, or the value itself in a new one. */
  ghost predicate CellStoredAs(text: Text, f: string, item: Row, idx: nat, types: Types, out: Value) {
    if idx >= |item| then out == Null
    else if f in types then Becomes(text, item[idx], types[f], out)
    else out == item[idx]
  }

  ghost predicate StoredAs(text: Text, fields: seq<string>, item: Row, types: Types, out: Row) {
    |out| == |fields| && forall idx | 0 <= idx < |fields| :: CellStoredAs(text, fields[idx], item, idx, types, out[idx])
  }

  lemma {:induction false} NormalizedRow(text: Text, fields: seq<string>, item: Row, types: Types)
    ensures StoredAs(text, fields, item, types, NormalizeRow(text, fields, item, types))
  {
    var out := NormalizeRow(text, fields, item, types);
    forall idx | 0 <= idx < |fields|
      ensures CellStoredAs(text, fields[idx], item, idx, types, out[idx])
    {
      if fields[idx] in types {
        CoercedValue(text, CellAt(item, idx), types[fields[idx]], out[idx]);
      }
    }
  }

  /** `normalize_items_for_schema` */
  function NormalizeItems(text: Text, fields: seq<string>, rows: seq<Row>, target: Types): (items: seq<Row>)
    ensures |items| == |rows|
  {
    seq(|rows|, r requires 0 <= r < |rows| => NormalizeRow(text, fields, rows[r], target))
  }

  method NormalizeItemsLoop(text: Text, fields: seq<string>, rows: seq<Row>, target: Types)
    returns (normalized: seq<Row>)
    ensures normalized == NormalizeItems(text, fields, rows, target)
    ensures |normalized| == |rows| && forall r | 0 <= r < |rows| ::
              StoredAs(text, fields, rows[r], target, normalized[r])
  {
    normalized := [];
    for r := 0 to |rows|
      invariant normalized == NormalizeItems(text, fields, rows, target)[..r]
    {
      var row: Row := [];
      for idx := 0 to |fields|
        invariant row == NormalizeRow(text, fields, rows[r], target)[..idx]
      {
        var value := CellAt(rows[r], idx);
        if fields[idx] in target {
          value := Coerce(text, value, target[fields[idx]]);
        }
        row := row + [value];
      }
      assert row == NormalizeRow(text, fields, rows[r], target);
      normalized := normalized + [row];
    }
    NormalizedRows(text, fields, rows, target);
  }

  lemma {:induction false} NormalizedRows(text: Text, fields: seq<string>, rows: seq<Row>, target: Types)
    ensures forall r | 0 <= r < |rows| ::
              StoredAs(text, fields, rows[r], target, NormalizeItems(text, fields, rows, target)[r])
  {
    forall r | 0 <= r < |rows|
      ensures StoredAs(text, fields, rows[r], target, NormalizeItems(text, fields, rows, target)[r])
    {
      NormalizedRow(text, fields, rows[r], target);
    }
  }

  // ---- the compatibility decision ----

  datatype ChangeType =
    NewSchema | IncompatibleTypeChange | MissingColumnWarning | TypeWidening | AddColumn | Reorder | Same

  function Restrict(fields: seq<string>, to: seq<string>): seq<string> {
    if fields == [] then []
    else (if fields[0] in to then [fields[0]] else []) + Restrict(fields[1..], to)
  }

  predicate AllowedChange(recorded: Logical, inferred: Logical) {
    recorded == inferred || (recorded.IntType? && inferred.FloatType?) || recorded.NullType?
  }

  predicate HasTypes(fields: seq<string>, types: Types) {
    forall f | f in fields :: f in types
  }

  function TypeChanges(oldFields: seq<string>, oldTypes: Types, newFields: seq<string>, newTypes: Types): set<string>
    requires HasTypes(oldFields, oldTypes) && HasTypes(newFields, newTypes)
  {
    set f | f in oldFields && f in newFields && oldTypes[f] != newTypes[f]
  }

  function IncompatibleChanges(oldFields: seq<string>, oldTypes: Types, newFields: seq<string>,
                               newTypes: Types): set<string>
    requires HasTypes(oldFields, oldTypes) && HasTypes(newFields, newTypes)
  {
    set f | f in oldFields && f in newFields && !AllowedChange(oldTypes[f], newTypes[f])
  }

  /** `compare_schemas`, given the two dictionaries it fills: the first reason that applies. */
  function Verdict(oldFields: seq<string>, newFields: seq<string>, changes: set<string>,
                   incompatible: set<string>): ChangeType {
    if incompatible != {} then IncompatibleTypeChange
    else if exists f :: f in oldFields && f !in newFields then MissingColumnWarning
    else if changes != {} then TypeWidening
    else if exists f :: f in newFields && f !in oldFields then AddColumn
    else if Restrict(newFields, oldFields) != Restrict(oldFields, newFields) then Reorder
    else Same
  }

  function CompareSchemas(recorded: SchemaDef, inferred: SchemaDef): ChangeType {
    Verdict(recorded.fields, inferred.fields,
            TypeChanges(recorded.fields, recorded.types, inferred.fields, inferred.types),
            IncompatibleChanges(recorded.fields, recorded.types, inferred.fields, inferred.types))
  }

  method CompareSchemasLoop(recorded: SchemaDef, inferred: SchemaDef) returns (verdict: ChangeType)
    ensures verdict == CompareSchemas(recorded, inferred)
  {
    var changes: set<string>, incompatible: set<string> := {}, {};
    for i := 0 to |recorded.fields|
      invariant changes == TypeChanges(recorded.fields[..i], recorded.types, inferred.fields, inferred.types)
      invariant incompatible == IncompatibleChanges(recorded.fields[..i], recorded.types, inferred.fields,
                                                    inferred.types)
    {
      var f := recorded.fields[i];
      if f in inferred.fields && recorded.types[f] != inferred.types[f] {
        changes := changes + {f};
        if !AllowedChange(recorded.types[f], inferred.types[f]) {
          incompatible := incompatible + {f};
        }
      }
    }
    assert recorded.fields[..|recorded.fields|] == recorded.fields;
    verdict := Verdict(recorded.fields, inferred.fields, changes, incompatible);
  }

  // ---- what the verdict means ----

  /** A column of both schemas whose type has changed... */
  ghost predicate Changed(recorded: SchemaDef, inferred: SchemaDef, f: string) {
    f in recorded.fields && f in inferred.fields && recorded.types[f] != inferred.types[f]
  }

  /** ... in a way that is not allowed: from a type other than null, and not from int to float. */
  ghost predicate Clashes(recorded: SchemaDef, inferred: SchemaDef, f: string) {
    Changed(recorded, inferred, f) && !recorded.types[f].NullType?
    && !(recorded.types[f].IntType? && inferred.types[f].FloatType?)
  }

  ghost predicate SomeClash(recorded: SchemaDef, inferred: SchemaDef) {
    exists f :: Clashes(recorded, inferred, f)
  }

  ghost predicate SomeChange(recorded: SchemaDef, inferred: SchemaDef) {
    exists f :: Changed(recorded, inferred, f)
  }

  ghost predicate Lacks(s: SchemaDef, other: SchemaDef) {
    exists f :: f in s.fields && f !in other.fields
  }

  /** The first that applies: a type has changed in a way that is not allowed; a column is missing; a
      type has widened; a column is new; the columns are in another order; nothing has changed. */
  lemma {:induction false} VerdictIs(recorded: SchemaDef, inferred: SchemaDef)
    ensures CompareSchemas(recorded, inferred)
            == if SomeClash(recorded, inferred) then IncompatibleTypeChange
               else if Lacks(recorded, inferred) then MissingColumnWarning
               else if SomeChange(recorded, inferred) then TypeWidening
               else if Lacks(inferred, recorded) then AddColumn
               else if recorded.fields != inferred.fields then Reorder
               else Same
  {
    ChangesAreChanges(recorded, inferred);
    if !Lacks(recorded, inferred) && !Lacks(inferred, recorded) {
      RestrictToSelf(recorded.fields, inferred.fields);
      RestrictToSelf(inferred.fields, recorded.fields);
    }
  }

  /** No change means that nothing has changed. */
  lemma {:induction false} SameIsSame(recorded: SchemaDef, inferred: SchemaDef)
    ensures CompareSchemas(recorded, inferred) == Same
            <==> recorded.fields == inferred.fields && recorded.types == inferred.types
  {
    VerdictIs(recorded, inferred);
    if recorded.fields == inferred.fields {
      assert recorded.types.Keys == inferred.types.Keys;
      assert recorded.types == inferred.types <==> forall f | f in recorded.fields :: !Changed(recorded, inferred, f);
    }
  }

  lemma {:induction false} ChangesAreChanges(recorded: SchemaDef, inferred: SchemaDef)
    ensures TypeChanges(recorded.fields, recorded.types, inferred.fields, inferred.types) != {}
            <==> SomeChange(recorded, inferred)
    ensures IncompatibleChanges(recorded.fields, recorded.types, inferred.fields, inferred.types) != {}
            <==> SomeClash(recorded, inferred)
    ensures SomeClash(recorded, inferred) ==> SomeChange(recorded, inferred)
  {
    var changes := TypeChanges(recorded.fields, recorded.types, inferred.fields, inferred.types);
    var clashes := IncompatibleChanges(recorded.fields, recorded.types, inferred.fields, inferred.types);
    assert forall f :: f in changes <==> Changed(recorded, inferred, f);
    assert forall f :: f in clashes <==> Clashes(recorded, inferred, f);
  }

  datatype Decision = Decision(schema: SchemaDef, changeType: ChangeType)
  {
    predicate Compatible() { !changeType.IncompatibleTypeChange? }
  }

  datatype Preparation = Preparation(decision: Decision, items: seq<Row>)

  /** `SchemaRegistry.prepare`: coerce to the latest schema, infer, compare. */
  function Prepare(text: Text, recorded: Option<SchemaDef>, apiName: string, fields: seq<string>,
                   rows: seq<Row>): (p: Preparation)
    ensures |p.items| == |rows| && p.decision.schema.apiName == apiName
  {
    match recorded
    case None =>
      Preparation(Decision(InferSchema(apiName, fields, rows, map[]), NewSchema), rows)
    case Some(o) =>
      var items := NormalizeItems(text, fields, rows, o.types);
      var schema := InferSchema(apiName, fields, items, o.types);
      Preparation(Decision(schema, CompareSchemas(o, schema)), items)
  }

  /** What is decided on a batch. The first one of an API is taken as it is, and its schema is new. Any
      other is stored in the columns recorded before, and the schema of that, a recorded type counting
      for a column of nulls, is compared with the recorded one. */
  lemma {:induction false} PreparationIs(text: Text, recorded: Option<SchemaDef>, apiName: string,
                                         fields: seq<string>, rows: seq<Row>)
    ensures var p := Prepare(text, recorded, apiName, fields, rows);
            match recorded
            case None => p.items == rows && p.decision == Decision(InferSchema(apiName, fields, rows, map[]), NewSchema)
            case Some(o) =>
              && |p.items| == |rows|
              && (forall r | 0 <= r < |rows| :: StoredAs(text, fields, rows[r], o.types, p.items[r]))
              && p.decision.schema == InferSchema(apiName, fields, p.items, o.types)
              && p.decision.changeType == CompareSchemas(o, p.decision.schema)
  {
    if recorded.Some? {
      NormalizedRows(text, fields, rows, recorded.value.types);
    }
  }

  // ---- what inference computes: a join ----

  function Rank(t: Logical): nat {
    match t
    case NullType => 0
    case BoolType => 4
    case IntType => 1
    case FloatType => 2
    case StringType => 3
  }

  predicate BoolFree(rows: seq<Row>) {
    forall r, c | 0 <= r < |rows| && 0 <= c < |rows[r]| :: !rows[r][c].Bool?
  }

  ghost predicate NoBoolCells(cells: seq<Cell>) {
    forall c | c in cells :: !c.1.Bool?
  }

  ghost predicate NoBoolIn(cells: seq<Cell>, f: string) {
    forall c | c in cells && c.0 == f :: !c.1.Bool?
  }

  /** t is the least type, in the order null < int < float < string, of the values of a field. */
  ghost predicate IsJoin(cells: seq<Cell>, f: string, t: Logical) {
    && (forall c | c in cells && c.0 == f :: Rank(InferValueType(c.1)) <= Rank(t))
    && (t.NullType? || exists c :: c in cells && c.0 == f && InferValueType(c.1) == t)
  }

  lemma {:induction false} TypeAfterIsJoin(cells: seq<Cell>, f: string)
    requires NoBoolIn(cells, f)
    ensures IsJoin(cells, f, TypeAfter(cells, f)) && !TypeAfter(cells, f).BoolType?
    decreases |cells|
  {
    if cells != [] {
      var init, last := cells[..|cells| - 1], cells[|cells| - 1];
      assert cells == init + [last];
      assert forall c :: c in cells <==> c in init || c == last;
      TypeAfterIsJoin(init, f);
      var t := TypeAfter(init, f);
      if !t.NullType? {
        var c :| c in init && c.0 == f && InferValueType(c.1) == t;
        assert c in cells;
      }
      assert last in cells;
    }
  }

  lemma {:induction false} RowVisitsMembers(before: seq<Cell>, fields: seq<string>, row: Row, n: nat, c: Cell)
    requires n <= |fields|
    ensures c in RowVisits(before, fields, row, n)
            <==> c in before || exists idx :: 0 <= idx < n && c == (fields[idx], CellAt(row, idx))
  {
    if n > 0 {
      RowVisitsMembers(before, fields, row, n - 1, c);
    }
  }

  /** A cell is met iff some row has it. */
  lemma {:induction false} VisitsMembers(fields: seq<string>, rows: seq<Row>, c: Cell)
    ensures c in Visits(fields, rows) <==> exists row :: row in rows && HasCell(fields, row, c)
    decreases |rows|
  {
    if rows != [] {
      var init, last := rows[..|rows| - 1], rows[|rows| - 1];
      assert rows == init + [last];
      assert forall row :: row in rows <==> row in init || row == last;
      VisitsMembers(fields, init, c);
      RowVisitsMembers(Visits(fields, init), fields, last, |fields|, c);
      assert HasCell(fields, last, c) <==> exists idx :: 0 <= idx < |fields| && c == (fields[idx], CellAt(last, idx));
    }
  }

  ghost predicate HasCell(fields: seq<string>, row: Row, c: Cell) {
    exists idx :: 0 <= idx < |fields| && c == (fields[idx], CellAt(row, idx))
  }

  /** Some row has this value in the column, a null if it is too short for the column. */
  ghost predicate HasAt(fields: seq<string>, rows: seq<Row>, f: string, v: Value) {
    exists r, idx :: 0 <= r < |rows| && 0 <= idx < |fields| && fields[idx] == f
                     && v == if idx < |rows[r]| then rows[r][idx] else Null
  }

  lemma {:induction false} VisitedIff(fields: seq<string>, rows: seq<Row>, f: string, v: Value)
    ensures (f, v) in Visits(fields, rows) <==> HasAt(fields, rows, f, v)
  {
    VisitsMembers(fields, rows, (f, v));
    if (f, v) in Visits(fields, rows) {
      var row :| row in rows && HasCell(fields, row, (f, v));
      var r :| 0 <= r < |rows| && rows[r] == row;
      var idx :| 0 <= idx < |fields| && (f, v) == (fields[idx], CellAt(row, idx));
      assert v == if idx < |rows[r]| then rows[r][idx] else Null;
    }
    if HasAt(fields, rows, f, v) {
      var r, idx :| 0 <= r < |rows| && 0 <= idx < |fields| && fields[idx] == f
                    && v == if idx < |rows[r]| then rows[r][idx] else Null;
      assert (f, v) == (fields[idx], CellAt(rows[r], idx));
      assert HasCell(fields, rows[r], (f, v));
    }
  }

  ghost predicate HasType(fields: seq<string>, rows: seq<Row>, f: string, t: Logical) {
    exists v :: HasAt(fields, rows, f, v) && IsOf(v, t)
  }

  /** What is inferred of a column: it can be null if and only if some row has no value in it. Unless
      it has a boolean it is a text column if some row has a text in it, else a float column if some row
      has a float, else an int column if some row has an integer, and else what the hint says, or text. */
  lemma {:induction false} InferredColumn(apiName: string, fields: seq<string>, rows: seq<Row>, hints: Types, f: string)
    requires f in fields
    ensures InferSchema(apiName, fields, rows, hints).nullable[f] <==> HasAt(fields, rows, f, Null)
    ensures var s := InferSchema(apiName, fields, rows, hints);
            HasType(fields, rows, f, BoolType)
            || s.types[f] == if HasType(fields, rows, f, StringType) then StringType
                             else if HasType(fields, rows, f, FloatType) then FloatType
                             else if HasType(fields, rows, f, IntType) then IntType
                             else if f in hints then hints[f] else StringType
  {
    var cells := Visits(fields, rows);
    VisitedIff(fields, rows, f, Null);
    forall t
      ensures HasType(fields, rows, f, t) <==> exists c :: c in cells && c.0 == f && InferValueType(c.1) == t
    {
      TypedCells(fields, rows, f, t);
    }
    if !HasType(fields, rows, f, BoolType) {
      TypeAfterIsJoin(cells, f);
    }
  }

  lemma {:induction false} TypedCells(fields: seq<string>, rows: seq<Row>, f: string, t: Logical)
    ensures HasType(fields, rows, f, t)
            <==> exists c :: c in Visits(fields, rows) && c.0 == f && InferValueType(c.1) == t
  {
    if v :| HasAt(fields, rows, f, v) && IsOf(v, t) {
      VisitedIff(fields, rows, f, v);
      InferredTypeIsItsOwn(v, t);
      assert (f, v).0 == f;
    }
    if c :| c in Visits(fields, rows) && c.0 == f && InferValueType(c.1) == t {
      VisitedIff(fields, rows, f, c.1);
      InferredTypeIsItsOwn(c.1, t);
      assert c == (f, c.1);
    }
  }

  lemma {:induction false} BoolFreeCells(fields: seq<string>, rows: seq<Row>)
    requires BoolFree(rows)
    ensures NoBoolCells(Visits(fields, rows))
  {
    forall c | c in Visits(fields, rows)
      ensures !c.1.Bool?
    {
      VisitsMembers(fields, rows, c);
      var row :| row in rows && HasCell(fields, row, c);
      var idx :| 0 <= idx < |fields| && c == (fields[idx], CellAt(row, idx));
    }
  }

  // ---- preparing a batch again under its own decision ----

  /** Every text that reads as an integer reads as a number. */
  ghost predicate IntegersAreNumbers(text: Text) {
    forall s :: text.parseInt(s).Some? ==> text.parseFloat(s).Some?
  }

  /** The types a recorded column can have when no boolean was ever recorded. */
  predicate Recordable(t: Logical) {
    t.IntType? || t.FloatType? || t.StringType?
  }

  ghost predicate RecordableSchema(s: SchemaDef) {
    forall f | f in s.types :: Recordable(s.types[f])
  }

  /** One cell: coerced to the decided type it has that type, or is null, and it is null exactly
      when it was null under the previous recorded type. */
  lemma {:induction false} CoerceToDecision(text: Text, v: Value, previous: Option<Logical>, decided: Logical)
    requires IntegersAreNumbers(text) && !v.Bool? && Recordable(decided)
    requires previous.Some? ==> Recordable(previous.value) && AllowedChange(previous.value, decided)
    requires var before := if previous.Some? then Coerce(text, v, previous.value) else v;
             Rank(InferValueType(before)) <= Rank(decided)
    ensures var before := if previous.Some? then Coerce(text, v, previous.value) else v;
            var after := Coerce(text, v, decided);
            (after.Null? <==> before.Null?) && (after.Null? || InferValueType(after) == decided)
  {}

  /** The cells of the normalised batch are the cells of the batch, one by one, coerced. */
  lemma {:induction false} RowVisitsNormalized(text: Text, fields: seq<string>, row: Row, target: Types, n: nat,
                                               before: seq<Cell>, before': seq<Cell>)
    requires n <= |fields| && |before| == |before'|
    requires forall k | 0 <= k < |before| :: NormalizedCell(text, target, before[k], before'[k])
    ensures var a, b := RowVisits(before, fields, row, n),
            RowVisits(before', fields, NormalizeRow(text, fields, row, target), n);
            |a| == |b| && forall k | 0 <= k < |a| :: NormalizedCell(text, target, a[k], b[k])
  {
    if n > 0 {
      RowVisitsNormalized(text, fields, row, target, n - 1, before, before');
    }
  }

  ghost predicate NormalizedCell(text: Text, target: Types, raw: Cell, normalized: Cell) {
    normalized == (raw.0, NormalizeCell(text, raw.1, raw.0, target))
  }

  lemma {:induction false} VisitsNormalized(text: Text, fields: seq<string>, rows: seq<Row>, target: Types)
    ensures NormalizedCells(text, target, Visits(fields, rows),
                            Visits(fields, NormalizeItems(text, fields, rows, target)))
    decreases |rows|
  {
    if rows != [] {
      var n := |rows| - 1;
      VisitsNormalized(text, fields, rows[..n], target);
      assert NormalizeItems(text, fields, rows, target)[..n] == NormalizeItems(text, fields, rows[..n], target);
      RowVisitsNormalized(text, fields, rows[n], target, |fields|, Visits(fields, rows[..n]),
                          Visits(fields, NormalizeItems(text, fields, rows[..n], target)));
    }
  }

  ghost predicate RecordedOrNone(recorded: Option<SchemaDef>) {
    recorded.Some? ==> RecordableSchema(recorded.value)
  }

  ghost function RecordedTypes(recorded: Option<SchemaDef>): Types {
    if recorded.Some? then recorded.value.types else map[]
  }

  ghost predicate NormalizedCells(text: Text, target: Types, raw: seq<Cell>, normalized: seq<Cell>) {
    |raw| == |normalized| && forall k | 0 <= k < |raw| :: NormalizedCell(text, target, raw[k], normalized[k])
  }

  lemma {:induction false} NormalizedHaveNoBool(text: Text, target: Types, raw: seq<Cell>, normalized: seq<Cell>)
    requires NoBoolCells(raw) && NormalizedCells(text, target, raw, normalized)
    requires forall f | f in target :: Recordable(target[f])
    ensures NoBoolCells(normalized)
  {
    forall c | c in normalized
      ensures !c.1.Bool?
    {
      var k :| 0 <= k < |normalized| && normalized[k] == c;
      assert raw[k] in raw && NormalizedCell(text, target, raw[k], normalized[k]);
    }
  }

  /** The cells that Prepare infers from are the cells of the batch coerced to the recorded types. */
  lemma {:induction false} PreparedCells(text: Text, recorded: Option<SchemaDef>, apiName: string,
                                         fields: seq<string>, rows: seq<Row>)
    requires RecordedOrNone(recorded) && BoolFree(rows)
    ensures var raw, seen := Visits(fields, rows), Visits(fields, Prepare(text, recorded, apiName, fields, rows).items);
            NoBoolCells(raw) && NoBoolCells(seen) && NormalizedCells(text, RecordedTypes(recorded), raw, seen)
  {
    BoolFreeCells(fields, rows);
    if recorded.Some? {
      VisitsNormalized(text, fields, rows, recorded.value.types);
      NormalizedHaveNoBool(text, recorded.value.types, Visits(fields, rows),
                           Visits(fields, NormalizeItems(text, fields, rows, recorded.value.types)));
    }
  }

  /** An accepted schema has recordable types only, each allowed after the recorded one. */
  lemma {:induction false} AcceptedTypes(text: Text, recorded: Option<SchemaDef>, apiName: string,
                                         fields: seq<string>, rows: seq<Row>)
    requires RecordedOrNone(recorded) && BoolFree(rows)
    requires Prepare(text, recorded, apiName, fields, rows).decision.Compatible()
    ensures var d := Prepare(text, recorded, apiName, fields, rows).decision.schema;
            && RecordableSchema(d)
            && forall f | f in fields && f in RecordedTypes(recorded) ::
              AllowedChange(RecordedTypes(recorded)[f], d.types[f])
  {
    PreparedCells(text, recorded, apiName, fields, rows);
    var p := Prepare(text, recorded, apiName, fields, rows);
    var seen := Visits(fields, p.items);
    forall f | f in fields
      ensures Recordable(p.decision.schema.types[f])
    {
      TypeAfterIsJoin(seen, f);
    }
    if recorded.Some? {
      var o, d := recorded.value, p.decision.schema;
      assert IncompatibleChanges(o.fields, o.types, d.fields, d.types) == {};
      forall f | f in fields && f in o.types
        ensures AllowedChange(o.types[f], d.types[f])
      {
        assert f !in IncompatibleChanges(o.fields, o.types, d.fields, d.types);
      }
    }
  }

  /** Cell by cell: the column coerced to the decided type again. */
  lemma {:induction false} CellAgain(text: Text, types: Types, decided: Types, raw: seq<Cell>, seen: seq<Cell>,
                                     again: seq<Cell>, f: string, k: nat)
    requires IntegersAreNumbers(text) && f in decided && Recordable(decided[f])
    requires f in types ==> Recordable(types[f]) && AllowedChange(types[f], decided[f])
    requires NormalizedCells(text, types, raw, seen) && NormalizedCells(text, decided, raw, again)
    requires k < |raw| && !raw[k].1.Bool? && raw[k].0 == f
    requires Rank(InferValueType(seen[k].1)) <= Rank(decided[f])
    ensures seen[k].0 == again[k].0 == f && (again[k].1.Null? <==> seen[k].1.Null?)
    ensures again[k].1.Null? || InferValueType(again[k].1) == decided[f]
  {
    assert NormalizedCell(text, types, raw[k], seen[k]) && NormalizedCell(text, decided, raw[k], again[k]);
    CoerceToDecision(text, raw[k].1, if f in types then Some(types[f]) else None, decided[f]);
  }

  /** A column coerced to the type decided for it is inferred to have that type and the nulls it had. */
  lemma {:induction false} ColumnAgain(text: Text, types: Types, decided: Types, raw: seq<Cell>, seen: seq<Cell>,
                                       again: seq<Cell>, f: string)
    requires IntegersAreNumbers(text) && f in decided && Recordable(decided[f])
    requires f in types ==> Recordable(types[f]) && AllowedChange(types[f], decided[f])
    requires NormalizedCells(text, types, raw, seen) && NormalizedCells(text, decided, raw, again)
    requires NoBoolCells(raw) && NoBoolCells(again)
    requires forall c | c in seen && c.0 == f :: Rank(InferValueType(c.1)) <= Rank(decided[f])
    ensures ColumnType(again, f, decided) == decided[f]
    ensures (f, Null) in again <==> (f, Null) in seen
  {
    forall k | 0 <= k < |raw|
      ensures seen[k].0 == raw[k].0 == again[k].0
      ensures raw[k].0 == f ==> (again[k].1.Null? <==> seen[k].1.Null?)
      ensures raw[k].0 == f ==> again[k].1.Null? || InferValueType(again[k].1) == decided[f]
    {
      assert NormalizedCell(text, types, raw[k], seen[k]) && NormalizedCell(text, decided, raw[k], again[k]);
      if raw[k].0 == f {
        assert seen[k] in seen && raw[k] in raw;
        CellAgain(text, types, decided, raw, seen, again, f, k);
      }
    }
    TypeAfterIsJoin(again, f);
    if (f, Null) in again {
      var k :| 0 <= k < |again| && again[k] == (f, Null);
      assert seen[k] == (f, Null);
    }
    if (f, Null) in seen {
      var k :| 0 <= k < |seen| && seen[k] == (f, Null);
      assert again[k] == (f, Null);
    }
  }

  lemma {:induction false} RestrictToSelf(fields: seq<string>, to: seq<string>)
    requires forall f | f in fields :: f in to
    ensures Restrict(fields, to) == fields
  {
    if fields != [] {
      RestrictToSelf(fields[1..], to);
    }
  }

  /** Fixed point: preparing an accepted batch again, with its own decision now the latest
      schema, gives the same schema and is classified as no change. */
  lemma {:induction false} PrepareAgainIsSame(text: Text, recorded: Option<SchemaDef>, apiName: string,
                                              fields: seq<string>, rows: seq<Row>)
    requires IntegersAreNumbers(text) && RecordedOrNone(recorded) && BoolFree(rows)
    requires Prepare(text, recorded, apiName, fields, rows).decision.Compatible()
    ensures var d := Prepare(text, recorded, apiName, fields, rows).decision.schema;
            Prepare(text, Some(d), apiName, fields, rows).decision == Decision(d, Same)
  {
    var p := Prepare(text, recorded, apiName, fields, rows);
    var d := p.decision.schema;
    AcceptedTypes(text, recorded, apiName, fields, rows);
    PreparedCells(text, recorded, apiName, fields, rows);
    PreparedCells(text, Some(d), apiName, fields, rows);
    var raw, seen := Visits(fields, rows), Visits(fields, p.items);
    var again := Visits(fields, Prepare(text, Some(d), apiName, fields, rows).items);
    forall f | f in fields
      ensures ColumnType(again, f, d.types) == d.types[f] && ((f, Null) in again <==> d.nullable[f])
    {
      TypeAfterIsJoin(seen, f);
      ColumnAgain(text, RecordedTypes(recorded), d.types, raw, seen, again, f);
    }
    SameDecision(d, Prepare(text, Some(d), apiName, fields, rows).decision.schema);
  }

  lemma {:induction false} SameDecision(d: SchemaDef, again: SchemaDef)
    requires again.apiName == d.apiName && again.fields == d.fields
    requires forall f | f in d.fields :: again.types[f] == d.types[f] && again.nullable[f] == d.nullable[f]
    ensures again == d && CompareSchemas(d, again) == Same
  {
    assert again.types == d.types && again.nullable == d.nullable;
    RestrictToSelf(d.fields, d.fields);
    assert TypeChanges(d.fields, d.types, d.fields, d.types) == {};
    assert IncompatibleChanges(d.fields, d.types, d.fields, d.types) == {};
  }

  // ---- the registry over whole runs ----

  /** Recorded schemas, oldest first. A schema inserted again keeps its old place. */
  type Registry = seq<SchemaDef>

  /** `latest_schema_for_api` */
  function LatestSchema(schemas: Registry, apiName: string): Option<SchemaDef>
    decreases |schemas|
  {
    if schemas == [] then None
    else
      var last := schemas[|schemas| - 1];
      if last.apiName == apiName then Some(last) else LatestSchema(schemas[..|schemas| - 1], apiName)
  }

  /** `insert_schema`: insert or ignore. */
  function InsertSchema(schemas: Registry, schema: SchemaDef): Registry {
    if schema in schemas then schemas else schemas + [schema]
  }

  datatype Batch = Batch(apiName: string, fields: seq<string>, rows: seq<Row>)

  /** The latest schema of an API is the one recorded last among its own. */
  lemma {:induction false} LatestIsLast(schemas: Registry, apiName: string)
    ensures var latest := LatestSchema(schemas, apiName);
            if latest.Some? then
              exists k :: 0 <= k < |schemas| && LastOf(schemas, apiName, k) && schemas[k] == latest.value
            else forall s | s in schemas :: s.apiName != apiName
    decreases |schemas|
  {
    if schemas != [] {
      var n := |schemas| - 1;
      assert schemas == schemas[..n] + [schemas[n]];
      LatestIsLast(schemas[..n], apiName);
      if schemas[n].apiName == apiName {
        assert LastOf(schemas, apiName, n);
      } else if LatestSchema(schemas[..n], apiName).Some? {
        var k :| 0 <= k < n && LastOf(schemas[..n], apiName, k)
                 && schemas[..n][k] == LatestSchema(schemas, apiName).value;
        assert LastOf(schemas, apiName, k);
      }
    }
  }

  ghost predicate LastOf(schemas: Registry, apiName: string, k: int)
    requires 0 <= k < |schemas|
  {
    schemas[k].apiName == apiName && forall l | k < l < |schemas| :: schemas[l].apiName != apiName
  }

  lemma {:induction false} LatestIsRecorded(schemas: Registry, apiName: string)
    ensures LatestSchema(schemas, apiName).Some? ==>
              LatestSchema(schemas, apiName).value in schemas && LatestSchema(schemas, apiName).value.apiName == apiName
    ensures LatestSchema(schemas, apiName).None? ==> forall s | s in schemas :: s.apiName != apiName
    decreases |schemas|
  {
    if schemas != [] {
      var n := |schemas| - 1;
      assert schemas == schemas[..n] + [schemas[n]];
      LatestIsRecorded(schemas[..n], apiName);
    }
  }

  /** The schema decision on a batch. */
  ghost function Decide(text: Text, schemas: Registry, b: Batch): (d: Decision)
    ensures d.schema.apiName == b.apiName
  {
    Prepare(text, LatestSchema(schemas, b.apiName), b.apiName, b.fields, b.rows).decision
  }

  /** The schema part of one fetch: decide, and record the schema if it is compatible. */
  ghost function Offer(text: Text, schemas: Registry, b: Batch): Registry {
    var d := Decide(text, schemas, b);
    if d.Compatible() then InsertSchema(schemas, d.schema) else schemas
  }

  ghost function OfferAll(text: Text, schemas: Registry, batches: seq<Batch>): Registry
    decreases |batches|
  {
    if batches == [] then schemas else OfferAll(text, Offer(text, schemas, batches[0]), batches[1..])
  }
}
