/** When the order of the rows matters to schema inference: a text absorbs everything; without one
    the last cell that is not null decides between boolean and number. */
module RowOrder {
  import opened Schema

  // ---- one column ----

  predicate HasText(cells: seq<Cell>, f: string) {
    exists c :: c in cells && c.0 == f && c.1.Str?
  }

  predicate HasBool(cells: seq<Cell>, f: string) {
    exists c :: c in cells && c.0 == f && c.1.Bool?
  }

  predicate IsNumber(v: Value) {
    v.Int? || v.Float?
  }

  predicate HasNumber(cells: seq<Cell>, f: string) {
    exists c :: c in cells && c.0 == f && IsNumber(c.1)
  }

  /** Booleans meet numbers and no text. */
  predicate Mixed(cells: seq<Cell>, f: string) {
    HasBool(cells, f) && HasNumber(cells, f) && !HasText(cells, f)
  }

  lemma {:induction false} TextAbsorbs(cells: seq<Cell>, f: string)
    ensures TypeAfter(cells, f).StringType? <==> HasText(cells, f)
    decreases |cells|
  {
    if cells != [] {
      var init, last := cells[..|cells| - 1], cells[|cells| - 1];
      assert cells == init + [last];
      assert forall c :: c in cells <==> c in init || c == last;
      TextAbsorbs(init, f);
    }
  }

  /** Booleans only: the type is boolean if there is one, else null. */
  lemma {:induction false} BoolsOnly(cells: seq<Cell>, f: string)
    requires !HasNumber(cells, f) && !HasText(cells, f)
    ensures TypeAfter(cells, f) == if HasBool(cells, f) then BoolType else NullType
    decreases |cells|
  {
    if cells != [] {
      var init, last := cells[..|cells| - 1], cells[|cells| - 1];
      assert cells == init + [last];
      assert forall c :: c in cells <==> c in init || c == last;
      BoolsOnly(init, f);
    }
  }

  lemma JoinIsUnique(a: seq<Cell>, b: seq<Cell>, f: string, t: Logical, u: Logical)
    requires NoBoolIn(a, f) && NoBoolIn(b, f) && forall c :: c in a <==> c in b
    requires IsJoin(a, f, t) && IsJoin(b, f, u) && !t.BoolType? && !u.BoolType?
    ensures t == u
  {}

  /** A column that is not mixed has the same type in any order. */
  lemma {:induction false} TypeIgnoresOrder(a: seq<Cell>, b: seq<Cell>, f: string)
    requires !Mixed(a, f) && forall c :: c in a <==> c in b
    ensures TypeAfter(a, f) == TypeAfter(b, f)
  {
    TextAbsorbs(a, f);
    TextAbsorbs(b, f);
    if !HasText(a, f) {
      if !HasBool(a, f) {
        TypeAfterIsJoin(a, f);
        TypeAfterIsJoin(b, f);
        JoinIsUnique(a, b, f, TypeAfter(a, f), TypeAfter(b, f));
      } else {
        BoolsOnly(a, f);
        BoolsOnly(b, f);
      }
    }
  }

  // ---- the last row decides ----

  /** Fields other than f leave its type. */
  lemma {:induction false} OtherFieldsLeave(before: seq<Cell>, fields: seq<string>, row: Row, n: nat, m: nat, f: string)
    requires m <= n <= |fields| && forall k | m <= k < n :: fields[k] != f
    ensures TypeAfter(RowVisits(before, fields, row, n), f) == TypeAfter(RowVisits(before, fields, row, m), f)
  {
    if m < n {
      OtherFieldsLeave(before, fields, row, n - 1, m, f);
      var cells := RowVisits(before, fields, row, n);
      assert cells[..|cells| - 1] == RowVisits(before, fields, row, n - 1);
    }
  }

  lemma {:induction false} LastRowWidens(fields: seq<string>, before: seq<Cell>, row: Row, idx: nat)
    requires idx < |fields| && forall k | 0 <= k < |fields| && k != idx :: fields[k] != fields[idx]
    ensures TypeAfter(RowVisits(before, fields, row, |fields|), fields[idx])
            == WidenType(TypeAfter(before, fields[idx]), InferValueType(CellAt(row, idx)))
  {
    var f := fields[idx];
    OtherFieldsLeave(before, fields, row, |fields|, idx + 1, f);
    OtherFieldsLeave(before, fields, row, idx, 0, f);
    var cells := RowVisits(before, fields, row, idx + 1);
    assert cells[..|cells| - 1] == RowVisits(before, fields, row, idx);
  }

  /** The rows with one of them moved to the end. */
  function MovedLast(rows: seq<Row>, i: nat): seq<Row>
    requires i < |rows|
  {
    rows[..i] + rows[i + 1..] + [rows[i]]
  }

  lemma {:induction false} MovedLastIsShuffle(rows: seq<Row>, i: nat)
    requires i < |rows|
    ensures multiset(MovedLast(rows, i)) == multiset(rows)
  {
    assert rows == rows[..i] + [rows[i]] + rows[i + 1..];
  }

  lemma {:induction false} SameCells(fields: seq<string>, rows: seq<Row>, shuffled: seq<Row>)
    requires multiset(rows) == multiset(shuffled)
    ensures forall c :: c in Visits(fields, rows) <==> c in Visits(fields, shuffled)
  {
    forall row
      ensures row in rows <==> row in shuffled
    {
      assert row in rows <==> row in multiset(rows);
      assert row in shuffled <==> row in multiset(shuffled);
    }
    forall c
      ensures c in Visits(fields, rows) <==> c in Visits(fields, shuffled)
    {
      VisitsMembers(fields, rows, c);
      VisitsMembers(fields, shuffled, c);
    }
  }

  ghost predicate FieldsDistinct(fields: seq<string>) {
    forall i, j | 0 <= i < j < |fields| :: fields[i] != fields[j]
  }

  /** Moving a row to the end makes its boolean or number the kind of a column without text. */
  lemma {:induction false} LastCellDecides(fields: seq<string>, rows: seq<Row>, i: nat, idx: nat)
    requires FieldsDistinct(fields) && i < |rows| && idx < |fields|
    requires var v := CellAt(rows[i], idx); v.Bool? || IsNumber(v)
    requires !HasText(Visits(fields, rows), fields[idx])
    ensures var t := TypeAfter(Visits(fields, MovedLast(rows, i)), fields[idx]);
            !t.NullType? && (t.BoolType? <==> CellAt(rows[i], idx).Bool?)
  {
    var moved, f := MovedLast(rows, i), fields[idx];
    var init := rows[..i] + rows[i + 1..];
    assert moved[..|moved| - 1] == init && moved[|moved| - 1] == rows[i];
    MovedLastIsShuffle(rows, i);
    SameCells(fields, rows, moved);
    TextAbsorbs(Visits(fields, moved), f);
    LastRowWidens(fields, Visits(fields, init), rows[i], idx);
  }

  lemma {:induction false} CellHasRow(fields: seq<string>, rows: seq<Row>, c: Cell) returns (i: nat, idx: nat)
    requires c in Visits(fields, rows)
    ensures i < |rows| && idx < |fields| && c == (fields[idx], CellAt(rows[i], idx))
  {
    VisitsMembers(fields, rows, c);
    var row :| row in rows && HasCell(fields, row, c);
    i :| 0 <= i < |rows| && rows[i] == row;
    idx :| 0 <= idx < |fields| && c == (fields[idx], CellAt(row, idx));
  }

  // ---- the batch ----

  ghost predicate OrderMatters(apiName: string, fields: seq<string>, rows: seq<Row>, hints: Types) {
    exists shuffled: seq<Row> :: multiset(shuffled) == multiset(rows)
      && InferSchema(apiName, fields, shuffled, hints) != InferSchema(apiName, fields, rows, hints)
  }

  /** Shuffling the rows changes nothing in the inferred schema if no column is mixed. */
  lemma {:induction false} InferenceIgnoresRowOrder(apiName: string, fields: seq<string>, rows: seq<Row>,
                                                    shuffled: seq<Row>, hints: Types)
    requires multiset(rows) == multiset(shuffled)
    requires forall f | f in fields :: !Mixed(Visits(fields, rows), f)
    ensures InferSchema(apiName, fields, rows, hints) == InferSchema(apiName, fields, shuffled, hints)
  {
    var a, b := Visits(fields, rows), Visits(fields, shuffled);
    SameCells(fields, rows, shuffled);
    forall f | f in fields
      ensures TypeAfter(a, f) == TypeAfter(b, f)
    {
      TypeIgnoresOrder(a, b, f);
    }
    var s, t := InferSchema(apiName, fields, rows, hints), InferSchema(apiName, fields, shuffled, hints);
    assert s.types == t.types && s.nullable == t.nullable;
  }

  /** A mixed column gets two different types, depending on the row that comes last. */
  lemma {:induction false} MixedColumnDepends(apiName: string, fields: seq<string>, rows: seq<Row>, hints: Types,
                                              f: string)
    requires FieldsDistinct(fields) && f in fields && Mixed(Visits(fields, rows), f)
    ensures OrderMatters(apiName, fields, rows, hints)
  {
    var cells := Visits(fields, rows);
    var b :| b in cells && b.0 == f && b.1.Bool?;
    var x :| x in cells && x.0 == f && IsNumber(x.1);
    var i, k := CellHasRow(fields, rows, b);
    var j, l := CellHasRow(fields, rows, x);
    LastCellDecides(fields, rows, i, k);
    LastCellDecides(fields, rows, j, l);
    MovedLastIsShuffle(rows, i);
    MovedLastIsShuffle(rows, j);
    var s, t := InferSchema(apiName, fields, MovedLast(rows, i), hints),
        InferSchema(apiName, fields, MovedLast(rows, j), hints);
    assert s.types[f] == BoolType && t.types[f] != BoolType;
  }

  /** The order of the rows matters exactly when some column mixes booleans and numbers without
      a text. */
  lemma {:induction false} OrderMattersIffMixed(apiName: string, fields: seq<string>, rows: seq<Row>, hints: Types)
    requires FieldsDistinct(fields)
    ensures OrderMatters(apiName, fields, rows, hints) <==> exists f :: f in fields && Mixed(Visits(fields, rows), f)
  {
    if f :| f in fields && Mixed(Visits(fields, rows), f) {
      MixedColumnDepends(apiName, fields, rows, hints, f);
    } else if OrderMatters(apiName, fields, rows, hints) {
      var shuffled: seq<Row> :| multiset(shuffled) == multiset(rows)
        && InferSchema(apiName, fields, shuffled, hints) != InferSchema(apiName, fields, rows, hints);
      InferenceIgnoresRowOrder(apiName, fields, rows, shuffled, hints);
    }
  }
}
