/**
 * Relations (src/relation.rs): persistent tables of value objects with a
 * schema, an optional key field and unique fields. `add_row` never changes
 * the relation it is called on; it returns a new one with the row appended.
 *
 * A row is a hash map, so the order in which `validate_row` meets its
 * fields is the map's iteration order; the model receives that order as
 * the parameter `keyOrder`, which lists the row's fields.
 */
module Relations {
  import opened Wrappers
  import opened Errors
  import opened Values

  datatype Field = Field(name: string, typeName: string)
  datatype Schema = Schema(fields: seq<Field>)

  type Row = map<string, ValueObject>

  datatype Relation = Relation(schema: Schema, rows: seq<Row>, keyField: Option<string>, uniqueFields: seq<string>)

  function RelationError<T>(r: Reason): Result<T>
  {
    Err(ValidationError(r, "Relation"))
  }

  /** `Relation::new`: no rows, no key and no unique fields. */
  function New(schema: Schema): (r: Relation)
    ensures r.schema == schema && r.rows == [] && r.keyField == None && r.uniqueFields == []
  {
    Relation(schema, [], None, [])
  }

  /** `with_key` and `with_unique` replace one setting each and nothing
      else. */
  function WithKey(rel: Relation, key: string): (r: Relation)
    ensures r.keyField == Some(key)
    ensures r.schema == rel.schema && r.rows == rel.rows && r.uniqueFields == rel.uniqueFields
  {
    rel.(keyField := Some(key))
  }

  function WithUnique(rel: Relation, fields: seq<string>): (r: Relation)
    ensures r.uniqueFields == fields
    ensures r.schema == rel.schema && r.rows == rel.rows && r.keyField == rel.keyField
  {
    rel.(uniqueFields := fields)
  }

  predicate InSchema(schema: Schema, name: string)
  {
    exists i :: 0 <= i < |schema.fields| && schema.fields[i].name == name
  }

  /** The first schema field, in schema order, that the row lacks. */
  function FirstMissing(fields: seq<Field>, row: Row): (r: Option<string>)
    ensures r.None? <==> forall i :: 0 <= i < |fields| ==> fields[i].name in row
    ensures r.Some? ==>
      exists i :: 0 <= i < |fields| && fields[i].name == r.value && r.value !in row &&
                  forall j :: 0 <= j < i ==> fields[j].name in row
  {
    if fields == [] then None
    else if fields[0].name !in row then Some(fields[0].name)
    else
      var rest := FirstMissing(fields[1..], row);
      assert forall i :: 1 <= i < |fields| ==> fields[i] == fields[1..][i - 1];
      if rest.Some? then
        var k :| 0 <= k < |fields[1..]| && fields[1..][k].name == rest.value && rest.value !in row &&
          forall j :: 0 <= j < k ==> fields[1..][j].name in row;
        assert fields[k + 1].name == rest.value;
        rest
      else rest
  }

  /** The first field, in the row's iteration order, outside the schema. */
  function FirstUnknown(keyOrder: seq<string>, schema: Schema): (r: Option<string>)
    ensures r.None? <==> forall i :: 0 <= i < |keyOrder| ==> InSchema(schema, keyOrder[i])
    ensures r.Some? ==>
      exists i :: 0 <= i < |keyOrder| && keyOrder[i] == r.value && !InSchema(schema, r.value) &&
                  forall j :: 0 <= j < i ==> InSchema(schema, keyOrder[j])
  {
    if keyOrder == [] then None
    else if !InSchema(schema, keyOrder[0]) then Some(keyOrder[0])
    else
      var rest := FirstUnknown(keyOrder[1..], schema);
      assert forall i :: 1 <= i < |keyOrder| ==> keyOrder[i] == keyOrder[1..][i - 1];
      if rest.Some? then
        var k :| 0 <= k < |keyOrder[1..]| && keyOrder[1..][k] == rest.value && !InSchema(schema, rest.value) &&
          forall j :: 0 <= j < k ==> InSchema(schema, keyOrder[1..][j]);
        assert keyOrder[k + 1] == rest.value;
        rest
      else rest
  }

  /** `keyOrder` enumerates exactly the row's fields. */
  predicate Enumerates(keyOrder: seq<string>, row: Row)
  {
    (forall k :: k in row ==> k in keyOrder) && (forall k :: k in keyOrder ==> k in row)
  }

  /** `validate_row`: every schema field present (the first missing one in
      schema order is reported), then no field outside the schema (the
      first one met is reported). */
  function ValidateRow(schema: Schema, row: Row, keyOrder: seq<string>): (r: Result<()>)
    requires Enumerates(keyOrder, row)
    ensures r.Ok? <==>
      (forall i :: 0 <= i < |schema.fields| ==> schema.fields[i].name in row) &&
      (forall k :: k in row ==> InSchema(schema, k))
    ensures FirstMissing(schema.fields, row).Some? ==>
      r == RelationError(MissingRequiredField(FirstMissing(schema.fields, row).value))
    ensures r.Err? && FirstMissing(schema.fields, row).None? ==>
      r == RelationError(UnknownField(FirstUnknown(keyOrder, schema).value))
  {
    var missing := FirstMissing(schema.fields, row);
    if missing.Some? then RelationError(MissingRequiredField(missing.value))
    else
      var unknown := FirstUnknown(keyOrder, schema);
      if unknown.Some? then
        assert !(forall k :: k in row ==> InSchema(schema, k)) by {
          var i :| 0 <= i < |keyOrder| && keyOrder[i] == unknown.value && !InSchema(schema, unknown.value);
          assert keyOrder[i] in row;
        }
        RelationError(UnknownField(unknown.value))
      else
        assert forall k :: k in row ==> InSchema(schema, k) by {
          forall k | k in row ensures InSchema(schema, k) {
            var i :| 0 <= i < |keyOrder| && keyOrder[i] == k;
          }
        }
        Ok(())
  }

  /** The row's value in `field` equals that of an existing row. */
  predicate Clashes(rows: seq<Row>, field: string, row: Row)
  {
    field in row && exists i :: 0 <= i < |rows| && field in rows[i] && rows[i][field] == row[field]
  }

  /** The first unique field, in declaration order, in which the row
      clashes with an existing row. */
  function FirstClash(fields: seq<string>, rows: seq<Row>, row: Row): (r: Option<string>)
    ensures r.None? <==> forall i :: 0 <= i < |fields| ==> !Clashes(rows, fields[i], row)
    ensures r.Some? ==> r.value in fields && Clashes(rows, r.value, row)
  {
    if fields == [] then None
    else if Clashes(rows, fields[0], row) then Some(fields[0])
    else
      assert forall i :: 1 <= i < |fields| ==> fields[i] == fields[1..][i - 1];
      FirstClash(fields[1..], rows, row)
  }

  /** `add_row`: the schema check, then the key check, then the unique
      checks, the first failure reported; on success a relation with the
      same settings and the row appended. */
  function AddRow(rel: Relation, row: Row, keyOrder: seq<string>): (r: Result<Relation>)
    requires Enumerates(keyOrder, row)
    ensures r.Ok? <==>
      (ValidateRow(rel.schema, row, keyOrder).Ok? &&
       !(rel.keyField.Some? && Clashes(rel.rows, rel.keyField.value, row)) &&
       forall i :: 0 <= i < |rel.uniqueFields| ==> !Clashes(rel.rows, rel.uniqueFields[i], row))
    ensures r.Ok? ==> r.value == rel.(rows := rel.rows + [row])
    ensures ValidateRow(rel.schema, row, keyOrder).Err? ==> r == Err(ValidateRow(rel.schema, row, keyOrder).error)
    ensures ValidateRow(rel.schema, row, keyOrder).Ok? && rel.keyField.Some? && Clashes(rel.rows, rel.keyField.value, row) ==>
      r == RelationError(DuplicateKey(rel.keyField.value))
    ensures (r.Err? && ValidateRow(rel.schema, row, keyOrder).Ok? &&
             !(rel.keyField.Some? && Clashes(rel.rows, rel.keyField.value, row))) ==>
      r == RelationError(DuplicateUnique(FirstClash(rel.uniqueFields, rel.rows, row).value))
  {
    var _ :- ValidateRow(rel.schema, row, keyOrder);
    if rel.keyField.Some? && Clashes(rel.rows, rel.keyField.value, row) then
      RelationError(DuplicateKey(rel.keyField.value))
    else
      var clash := FirstClash(rel.uniqueFields, rel.rows, row);
      if clash.Some? then RelationError(DuplicateUnique(clash.value))
      else Ok(rel.(rows := rel.rows + [row]))
  }

  /** `equals` between two relations: equal schemas and equally many rows;
      the rows themselves are not compared. A relation is never equal to a
      value of another kind. */
  function Equals(a: Relation, b: Relation): (r: bool)
    ensures a == b ==> r
    ensures r ==> a.schema == b.schema && |a.rows| == |b.rows|
  {
    a.schema == b.schema && |a.rows| == |b.rows|
  }

  // ---------------------------------------------------------------------
  // Properties
  // ---------------------------------------------------------------------

  /** No two rows share a value in `field`. */
  predicate DistinctOn(rows: seq<Row>, field: string)
  {
    forall i, j :: 0 <= i < j < |rows| && field in rows[i] && field in rows[j] ==> rows[i][field] != rows[j][field]
  }

  /** The key field and every unique field hold pairwise distinct values. */
  predicate Consistent(rel: Relation)
  {
    (rel.keyField.Some? ==> DistinctOn(rel.rows, rel.keyField.value)) &&
    forall u :: u in rel.uniqueFields ==> DistinctOn(rel.rows, u)
  }

  lemma AppendKeepsDistinct(rows: seq<Row>, field: string, row: Row)
    requires DistinctOn(rows, field) && !Clashes(rows, field, row)
    ensures DistinctOn(rows + [row], field)
  {
    var all := rows + [row];
    forall i, j | 0 <= i < j < |all| && field in all[i] && field in all[j]
      ensures all[i][field] != all[j][field]
    {
      if j == |rows| {
        assert all[j] == row && all[i] == rows[i];
      } else {
        assert all[i] == rows[i] && all[j] == rows[j];
      }
    }
  }

  /** A successful `add_row` keeps key and unique values distinct. */
  lemma AddRowKeepsConsistent(rel: Relation, row: Row, keyOrder: seq<string>)
    requires Enumerates(keyOrder, row) && Consistent(rel) && AddRow(rel, row, keyOrder).Ok?
    ensures Consistent(AddRow(rel, row, keyOrder).value)
  {
    if rel.keyField.Some? {
      AppendKeepsDistinct(rel.rows, rel.keyField.value, row);
    }
    forall u | u in rel.uniqueFields
      ensures DistinctOn(rel.rows + [row], u)
    {
      var i :| 0 <= i < |rel.uniqueFields| && rel.uniqueFields[i] == u;
      AppendKeepsDistinct(rel.rows, u, row);
    }
  }

  /** One row to insert, with its fields in iteration order. */
  datatype Insertion = Insertion(row: Row, keyOrder: seq<string>)

  predicate WellFormed(ins: seq<Insertion>)
  {
    forall i :: 0 <= i < |ins| ==> Enumerates(ins[i].keyOrder, ins[i].row)
  }

  function InsertedRows(ins: seq<Insertion>): (rows: seq<Row>)
    ensures |rows| == |ins| && forall i :: 0 <= i < |ins| ==> rows[i] == ins[i].row
  {
    if ins == [] then [] else [ins[0].row] + InsertedRows(ins[1..])
  }

  lemma WellFormedTail(ins: seq<Insertion>)
    requires WellFormed(ins) && ins != []
    ensures WellFormed(ins[1..]) && Enumerates(ins[0].keyOrder, ins[0].row)
  {
    assert forall i :: 0 <= i < |ins| - 1 ==> ins[1..][i] == ins[i + 1];
  }

  /** A chain of `add_row` calls; the first failure stops it. */
  function AddRows(rel: Relation, ins: seq<Insertion>): Result<Relation>
    requires WellFormed(ins)
    decreases |ins|
  {
    if ins == [] then Ok(rel)
    else
      var next :- AddRow(rel, ins[0].row, ins[0].keyOrder);
      AddRows(next, ins[1..])
  }

  lemma AppendAssociates(a: seq<Row>, b: seq<Row>, c: seq<Row>)
    ensures (a + b) + c == a + (b + c)
  {
  }

  /** A chain of successful insertions appends exactly the inserted rows
      and keeps the schema, key and unique settings. */
  lemma {:induction false} AddRowsAppends(rel: Relation, ins: seq<Insertion>)
    requires WellFormed(ins) && AddRows(rel, ins).Ok?
    ensures var r := AddRows(rel, ins).value;
      r.rows == rel.rows + InsertedRows(ins) &&
      r.schema == rel.schema && r.keyField == rel.keyField && r.uniqueFields == rel.uniqueFields
    decreases |ins|
  {
    if ins == [] {
      assert rel.rows + InsertedRows(ins) == rel.rows;
    } else {
      WellFormedTail(ins);
      var next := AddRow(rel, ins[0].row, ins[0].keyOrder).value;
      assert next.rows == rel.rows + [ins[0].row];
      assert AddRows(rel, ins) == AddRows(next, ins[1..]);
      AddRowsAppends(next, ins[1..]);
      var tail := InsertedRows(ins[1..]);
      assert InsertedRows(ins) == [ins[0].row] + tail;
      AppendAssociates(rel.rows, [ins[0].row], tail);
    }
  }

  /** From any consistent relation (a new one in particular), a chain of
      successful insertions keeps key and unique values pairwise distinct. */
  lemma {:induction false} AddRowsKeepsConsistent(rel: Relation, ins: seq<Insertion>)
    requires WellFormed(ins) && Consistent(rel) && AddRows(rel, ins).Ok?
    ensures Consistent(AddRows(rel, ins).value)
    decreases |ins|
  {
    if ins != [] {
      WellFormedTail(ins);
      AddRowKeepsConsistent(rel, ins[0].row, ins[0].keyOrder);
      var next := AddRow(rel, ins[0].row, ins[0].keyOrder).value;
      AddRowsKeepsConsistent(next, ins[1..]);
    }
  }

  lemma NewIsConsistent(schema: Schema, key: Option<string>, unique: seq<string>)
    ensures Consistent(Relation(schema, [], key, unique))
  {
  }

  /** Relations with the same schema and equally many rows are equal
      whatever their rows hold. */
  lemma EqualsIgnoresRows(schema: Schema, a: Row, b: Row)
    requires a != b
    ensures Equals(Relation(schema, [a], None, []), Relation(schema, [b], None, []))
    ensures Relation(schema, [a], None, []) != Relation(schema, [b], None, [])
  {
  }
}
