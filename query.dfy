/**
 * Relational queries (src/query.rs): projection, filtering, limiting and
 * counting over a `Relation`. Filtering and limiting do not copy rows yet,
 * and projection reaches a value-cloning routine that panics.
 */
module Queries {
  import opened Wrappers
  import opened Errors
  import opened Values
  import opened Relations

  /** The panic raised by the unfinished value-cloning helper. */
  const CloningPanic := "Value cloning not yet implemented"

  /** An empty relation over `schema`, keyed on its first field when it has
      one: the starting point of `where_clause` and `limit`. */
  function KeyedOnFirst(schema: Schema): (r: Relation)
    ensures r.schema == schema && r.rows == [] && r.uniqueFields == []
    ensures r.keyField.Some? <==> schema.fields != []
    ensures schema.fields != [] ==> r.keyField == Some(schema.fields[0].name)
  {
    var empty := New(schema);
    if schema.fields != [] then WithKey(empty, schema.fields[0].name) else empty
  }

  /** `where_clause`: the rows the predicate accepts are not copied, so
      the result never holds a row. */
  function Where(rel: Relation, accept: Row -> bool): (r: Result<Relation>)
    ensures r.Ok? && r.value.rows == []
    ensures r.value.schema == rel.schema && r.value.uniqueFields == []
    ensures r.value.keyField == (if rel.schema.fields != [] then Some(rel.schema.fields[0].name) else None)
  {
    Ok(KeyedOnFirst(rel.schema))
  }

  /** `limit`: like `where_clause`, it stops before copying any row. */
  function Limit(rel: Relation, n: nat): (r: Result<Relation>)
    ensures r.Ok? && r.value.rows == []
    ensures r.value.schema == rel.schema && r.value.uniqueFields == []
    ensures r.value.keyField == (if rel.schema.fields != [] then Some(rel.schema.fields[0].name) else None)
  {
    Ok(KeyedOnFirst(rel.schema))
  }

  /** `count`: the number of rows. */
  function Count(rel: Relation): (n: nat)
    ensures n == |rel.rows|
  {
    |rel.rows|
  }

  /** The first schema field called `name`. */
  function Lookup(fields: seq<Field>, name: string): (r: Option<Field>)
    ensures r.None? <==> forall i :: 0 <= i < |fields| ==> fields[i].name != name
    ensures r.Some? ==> exists i :: 0 <= i < |fields| && fields[i] == r.value && r.value.name == name &&
                                    forall j :: 0 <= j < i ==> fields[j].name != name
  {
    if fields == [] then None
    else if fields[0].name == name then Some(fields[0])
    else
      var rest := Lookup(fields[1..], name);
      assert forall i :: 1 <= i < |fields| ==> fields[i] == fields[1..][i - 1];
      rest
  }

  /** The position of the first requested field the schema lacks, or the
      number of requested fields when it has them all. */
  function FirstAbsent(schema: seq<Field>, fields: seq<string>): (i: nat)
    ensures i <= |fields|
    ensures forall j :: 0 <= j < i ==> Lookup(schema, fields[j]).Some?
    ensures i < |fields| ==> Lookup(schema, fields[i]).None?
  {
    if fields == [] || Lookup(schema, fields[0]).None? then 0
    else
      var rest := FirstAbsent(schema, fields[1..]);
      assert forall j :: 1 <= j < |fields| ==> fields[j] == fields[1..][j - 1];
      1 + rest
  }

  /** The projected schema: each requested field with the type of its first
      match, or the first requested field the schema lacks. */
  function ProjectSchema(schema: seq<Field>, fields: seq<string>): (r: Result<seq<Field>>)
    ensures r.Ok? <==> forall i :: 0 <= i < |fields| ==> Lookup(schema, fields[i]).Some?
    ensures r.Ok? ==> |r.value| == |fields| &&
                      forall i :: 0 <= i < |fields| ==> r.value[i] == Field(fields[i], Lookup(schema, fields[i]).value.typeName)
    ensures r.Err? ==> r == RelationError(FieldNotFound(fields[FirstAbsent(schema, fields)]))
  {
    if fields == [] then Ok([])
    else
      var first := Lookup(schema, fields[0]);
      if first.None? then RelationError(FieldNotFound(fields[0]))
      else
        var rest := ProjectSchema(schema, fields[1..]);
        assert forall i :: 1 <= i < |fields| ==> fields[i] == fields[1..][i - 1];
        if rest.Err? then Err(rest.error)
        else Ok([Field(fields[0], first.value.typeName)] + rest.value)
  }

  /** Whether the row holds one of the requested fields (whose value would
      then be cloned). */
  predicate Touches(row: Row, fields: seq<string>)
  {
    exists m :: 0 <= m < |fields| && fields[m] in row
  }

  /** Adds one projected row per source row: a row holding a requested field
      panics in the cloning helper, any other row is added as the empty map. */
  function ProjectRows(acc: Relation, rows: seq<Row>, fields: seq<string>): Result<Relation>
    decreases |rows|
  {
    if rows == [] then Ok(acc)
    else if Touches(rows[0], fields) then Err(Panic(CloningPanic))
    else
      var added := AddRow(acc, map[], []);
      if added.Err? then Err(added.error) else ProjectRows(added.value, rows[1..], fields)
  }

  /** What `select` computes. */
  function SelectSpec(rel: Relation, fields: seq<string>): Result<Relation>
  {
    var schema := ProjectSchema(rel.schema.fields, fields);
    if schema.Err? then Err(schema.error) else ProjectRows(New(Schema(schema.value)), rel.rows, fields)
  }

  /** The first loop of `select`: looks each requested field up in the
      schema, stopping at the first one it lacks. */
  method ProjectedFields(schema: seq<Field>, fields: seq<string>) returns (r: Result<seq<Field>>)
    ensures r == ProjectSchema(schema, fields)
  {
    var newFields: seq<Field> := [];
    var i := 0;
    while i < |fields|
      invariant 0 <= i <= |fields| && |newFields| == i
      invariant forall m :: 0 <= m < i ==> Lookup(schema, fields[m]).Some?
      invariant forall m :: 0 <= m < i ==>
                  newFields[m] == Field(fields[m], Lookup(schema, fields[m]).value.typeName)
    {
      var found := Lookup(schema, fields[i]);
      if found.None? {
        SchemaReportsFirstMissing(schema, fields, i);
        return RelationError(FieldNotFound(fields[i]));
      }
      newFields := newFields + [Field(fields[i], found.value.typeName)];
      i := i + 1;
    }
    assert ProjectSchema(schema, fields).Ok?;
    assert newFields == ProjectSchema(schema, fields).value;
    r := Ok(newFields);
  }

  /** The inner loop of `select`: whether any requested field is in the row,
      the point where the cloning helper would be reached. */
  method HoldsRequested(row: Row, fields: seq<string>) returns (b: bool)
    ensures b == Touches(row, fields)
  {
    var k := 0;
    while k < |fields|
      invariant 0 <= k <= |fields|
      invariant forall m :: 0 <= m < k ==> fields[m] !in row
    {
      if fields[k] in row {
        return true;
      }
      k := k + 1;
    }
    return false;
  }

  /** `select`: builds the projected schema, then projects the rows one by
      one into a relation without constraints. */
  method Select(rel: Relation, fields: seq<string>) returns (r: Result<Relation>)
    ensures r == SelectSpec(rel, fields)
  {
    var newFields := ProjectedFields(rel.schema.fields, fields);
    if newFields.Err? {
      return Err(newFields.error);
    }
    var projected := New(Schema(newFields.value));
    var j := 0;
    assert rel.rows[j..] == rel.rows;
    while j < |rel.rows|
      invariant 0 <= j <= |rel.rows|
      invariant ProjectRows(projected, rel.rows[j..], fields) == SelectSpec(rel, fields)
    {
      var row := rel.rows[j];
      assert rel.rows[j..][0] == row && rel.rows[j..][1..] == rel.rows[j + 1..];
      var cloning := HoldsRequested(row, fields);
      if cloning {
        return Err(Panic(CloningPanic));
      }
      var newRow: Row := map[];
      var added := AddRow(projected, newRow, []);
      if added.Err? {
        return Err(added.error);
      }
      projected := added.value;
      j := j + 1;
    }
    r := Ok(projected);
  }

  /** The field reported missing is the first requested field the schema
      lacks. */
  lemma SchemaReportsFirstMissing(schema: seq<Field>, fields: seq<string>, i: nat)
    requires i < |fields| && Lookup(schema, fields[i]).None?
    requires forall j :: 0 <= j < i ==> Lookup(schema, fields[j]).Some?
    ensures ProjectSchema(schema, fields) == RelationError(FieldNotFound(fields[i]))
  {
    assert FirstAbsent(schema, fields) == i;
  }

  /** `select` reports the first requested field the schema lacks. */
  lemma SelectReportsMissingField(rel: Relation, fields: seq<string>, i: nat)
    requires i < |fields| && Lookup(rel.schema.fields, fields[i]).None?
    requires forall j :: 0 <= j < i ==> Lookup(rel.schema.fields, fields[j]).Some?
    ensures SelectSpec(rel, fields) == RelationError(FieldNotFound(fields[i]))
  {
    SchemaReportsFirstMissing(rel.schema.fields, fields, i);
  }

  /** On a relation without rows `select` succeeds with the projected
      schema, no rows and no constraints. */
  lemma SelectOnEmptyRelation(rel: Relation, fields: seq<string>)
    requires rel.rows == [] && ProjectSchema(rel.schema.fields, fields).Ok?
    ensures SelectSpec(rel, fields).Ok?
    ensures var r := SelectSpec(rel, fields).value;
            |r.schema.fields| == |fields| && r.rows == [] && r.keyField == None && r.uniqueFields == [] &&
            forall i :: 0 <= i < |fields| ==> r.schema.fields[i].name == fields[i]
  {
  }

  /** Once at least one field is requested, the first row makes `select`
      fail: a row holding a requested field panics in the cloning helper,
      and the empty row built from any other row misses the projected
      schema's first field. */
  lemma SelectFailsOnRows(rel: Relation, fields: seq<string>)
    requires fields != [] && rel.rows != [] && ProjectSchema(rel.schema.fields, fields).Ok?
    ensures SelectSpec(rel, fields) ==
            if Touches(rel.rows[0], fields) then Err(Panic(CloningPanic))
            else RelationError(MissingRequiredField(fields[0]))
  {
    var nf := ProjectSchema(rel.schema.fields, fields).value;
    var acc := New(Schema(nf));
    if !Touches(rel.rows[0], fields) {
      var empty: Row := map[];
      assert Enumerates([], empty);
      assert nf[0].name == fields[0] && fields[0] !in empty;
      assert FirstMissing(nf, empty).Some?;
      assert FirstMissing(nf, empty) == Some(fields[0]);
      assert ValidateRow(acc.schema, empty, []) == RelationError(MissingRequiredField(fields[0]));
    }
  }

  /** `n` empty rows. */
  function EmptyRows(n: nat): (rows: seq<Row>)
    ensures |rows| == n && forall i :: 0 <= i < n ==> rows[i] == map[]
  {
    if n == 0 then [] else [map[]] + EmptyRows(n - 1)
  }

  /** Projecting onto no fields yields one empty row per source row. */
  lemma {:induction false} ProjectRowsOntoNothing(acc: Relation, rows: seq<Row>)
    requires acc.schema == Schema([]) && acc.keyField == None && acc.uniqueFields == []
    ensures ProjectRows(acc, rows, []) == Ok(acc.(rows := acc.rows + EmptyRows(|rows|)))
    decreases |rows|
  {
    if rows != [] {
      var empty: Row := map[];
      assert Enumerates([], empty);
      assert !Touches(rows[0], []);
      var next := acc.(rows := acc.rows + [empty]);
      assert AddRow(acc, empty, []) == Ok(next);
      ProjectRowsOntoNothing(next, rows[1..]);
      assert EmptyRows(|rows|) == [empty] + EmptyRows(|rows[1..]|);
      AppendAssociates(acc.rows, [empty], EmptyRows(|rows[1..]|));
    } else {
      assert acc.rows + EmptyRows(0) == acc.rows;
    }
  }

  /** `select` with no fields: as many rows as the source, each empty. */
  lemma SelectNoFields(rel: Relation)
    ensures SelectSpec(rel, []) == Ok(Relation(Schema([]), EmptyRows(|rel.rows|), None, []))
  {
    assert ProjectSchema(rel.schema.fields, []) == Ok([]);
    ProjectRowsOntoNothing(New(Schema([])), rel.rows);
    assert [] + EmptyRows(|rel.rows|) == EmptyRows(|rel.rows|);
  }

  /** `where_clause` drops every row, even the ones its predicate accepts. */
  lemma WhereDropsAcceptedRows(rel: Relation)
    requires rel.rows != []
    ensures Count(Where(rel, (row: Row) => true).value) == 0 < Count(rel)
  {
  }

  /** `limit(n)` is empty for every `n`, so it is not `min(n, count)`. */
  lemma LimitIsAlwaysEmpty(rel: Relation, n: nat)
    requires n > 0 && rel.rows != []
    ensures Count(Limit(rel, n).value) == 0 != if n < Count(rel) then n else Count(rel)
  {
  }

  /** The relations `where_clause` and `limit` return keep the distinctness
      invariant of `add_row` trivially. */
  lemma WhereAndLimitAreConsistent(rel: Relation, accept: Row -> bool, n: nat)
    ensures Consistent(Where(rel, accept).value) && Consistent(Limit(rel, n).value)
  {
    NewIsConsistent(rel.schema, KeyedOnFirst(rel.schema).keyField, []);
  }

  /** A successful `add_row` raises the count by one. */
  lemma CountAfterAddRow(rel: Relation, row: Row, keyOrder: seq<string>)
    requires Enumerates(keyOrder, row) && AddRow(rel, row, keyOrder).Ok?
    ensures Count(AddRow(rel, row, keyOrder).value) == Count(rel) + 1
  {
  }
}
