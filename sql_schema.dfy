/** The part of a SQLite database that the schema migrations touch: tables
    with their column definitions and their rows, and the four statements
    the migrations issue (`createTable`, `dropTable`, `alterTable ...
    addColumn`, `alterTable ... dropColumn`). A statement that SQLite
    refuses leaves the schema as it was and reports an error. */
module SqlSchema {
  import opened Common

  datatype SqlType = Integer | Varchar(length: nat) | Text

  datatype Value = Null | IntValue(i: int) | TextValue(s: string)

  /** `references('table.column')`. */
  datatype ForeignKey = ForeignKey(table: string, column: string)

  datatype Column = Column(
    name: string,
    sqlType: SqlType,
    primaryKey: bool,
    notNull: bool,
    default: Option<Value>,
    references: Option<ForeignKey>)

  /** A column with no constraint: `addColumn(name, type)` with no builder. */
  function Plain(name: string, sqlType: SqlType): Column
  {
    Column(name, sqlType, false, false, None, None)
  }

  type Row = map<string, Value>

  datatype Table = Table(columns: seq<Column>, rows: seq<Row>)

  /** Tables by name. */
  type Schema = map<string, Table>

  datatype Statement =
    | CreateTable(table: string, columns: seq<Column>)
    | DropTable(table: string)
    | AddColumn(table: string, column: Column)
    | DropColumn(table: string, columnName: string)

  datatype SchemaError =
    | TableExists(table: string)
    | NoSuchTable(table: string)
    | DuplicateColumn(table: string, column: string)
    | NoSuchColumn(table: string, column: string)
    | CannotAddPrimaryKey(table: string, column: string)
    | NotNullWithoutDefault(table: string, column: string)
    | CannotDropPrimaryKey(table: string, column: string)
    | CannotDropOnlyColumn(table: string, column: string)

  function Names(columns: seq<Column>): (r: seq<string>)
    ensures |r| == |columns|
    ensures forall k :: 0 <= k < |columns| ==> r[k] == columns[k].name
  {
    seq(|columns|, k requires 0 <= k < |columns| => columns[k].name)
  }

  predicate HasColumn(t: Table, name: string)
  {
    exists k :: 0 <= k < |t.columns| && t.columns[k].name == name
  }

  /** Appending columns adds exactly their names. */
  lemma HasColumnAppend(t: Table, cs: seq<Column>, rows: seq<Row>, name: string)
    ensures HasColumn(Table(t.columns + cs, rows), name) <==>
      HasColumn(t, name) || exists k :: 0 <= k < |cs| && cs[k].name == name
  {
    var all := t.columns + cs;
    if HasColumn(Table(all, rows), name) {
      var k :| 0 <= k < |all| && all[k].name == name;
      if k >= |t.columns| {
        assert cs[k - |t.columns|].name == name;
      }
    }
    if exists k :: 0 <= k < |cs| && cs[k].name == name {
      var k :| 0 <= k < |cs| && cs[k].name == name;
      assert all[|t.columns| + k].name == name;
    }
    if HasColumn(t, name) {
      var k :| 0 <= k < |t.columns| && t.columns[k].name == name;
      assert all[k].name == name;
    }
  }

  /** A table has at least one column, column names are distinct, and every
      row has exactly one value per column. */
  predicate WellFormed(t: Table)
  {
    && |t.columns| > 0
    && (forall i, j :: 0 <= i < j < |t.columns| ==> t.columns[i].name != t.columns[j].name)
    && (forall r :: r in t.rows ==> r.Keys == set k | 0 <= k < |t.columns| :: t.columns[k].name)
  }

  /** Every foreign key names a table that exists and a column it has. */
  predicate ReferencesResolve(s: Schema)
  {
    forall name, k :: name in s && 0 <= k < |s[name].columns| && s[name].columns[k].references.Some? ==>
      var fk := s[name].columns[k].references.value;
      fk.table in s && HasColumn(s[fk.table], fk.column)
  }

  /** The column list without the column called `name`. */
  function RemoveColumn(columns: seq<Column>, name: string): (r: seq<Column>)
    ensures |r| <= |columns|
  {
    if |columns| == 0 then []
    else (if columns[0].name == name then [] else [columns[0]]) + RemoveColumn(columns[1..], name)
  }

  /** Exactly the columns with another name remain, in their order. */
  lemma {:induction false} RemoveColumnKeeps(columns: seq<Column>, name: string)
    ensures forall c :: c in RemoveColumn(columns, name) <==> c in columns && c.name != name
    ensures (forall c :: c in columns ==> c.name != name) ==> RemoveColumn(columns, name) == columns
  {
    if |columns| > 0 {
      RemoveColumnKeeps(columns[1..], name);
      assert columns == [columns[0]] + columns[1..];
    }
  }

  lemma {:induction false} RemoveColumnAppend(a: seq<Column>, b: seq<Column>, name: string)
    ensures RemoveColumn(a + b, name) == RemoveColumn(a, name) + RemoveColumn(b, name)
  {
    if |a| > 0 {
      assert (a + b)[1..] == a[1..] + b;
      RemoveColumnAppend(a[1..], b, name);
    } else {
      assert a + b == b;
    }
  }

  /** Each existing row gets the new column's default, or NULL. */
  function AddToRows(rows: seq<Row>, name: string, value: Value): (r: seq<Row>)
    ensures |r| == |rows|
  {
    seq(|rows|, k requires 0 <= k < |rows| => rows[k][name := value])
  }

  function DropFromRows(rows: seq<Row>, name: string): (r: seq<Row>)
    ensures |r| == |rows|
  {
    seq(|rows|, k requires 0 <= k < |rows| => rows[k] - {name})
  }

  /** One statement, as SQLite executes it: the refusals are those of
      `CREATE TABLE` without `IF NOT EXISTS`, `DROP TABLE` without
      `IF EXISTS`, and the documented restrictions of `ALTER TABLE ADD
      COLUMN` and `ALTER TABLE DROP COLUMN`. */
  function Apply(s: Schema, st: Statement): (r: Result<Schema, SchemaError>)
    ensures r.Ok? ==>
      forall name :: name != st.table ==> (name in r.value <==> name in s) && (name in s ==> r.value[name] == s[name])
    ensures st.CreateTable? ==> (r.Ok? <==> st.table !in s)
    ensures st.DropTable? ==> (r.Ok? <==> st.table in s)
    ensures r.Ok? && !st.DropTable? ==> st.table in r.value
  {
    match st
    case CreateTable(name, columns) =>
      if name in s then Err(TableExists(name))
      else Ok(s[name := Table(columns, [])])
    case DropTable(name) =>
      if name !in s then Err(NoSuchTable(name))
      else Ok(s - {name})
    case AddColumn(name, c) =>
      if name !in s then Err(NoSuchTable(name))
      else if HasColumn(s[name], c.name) then Err(DuplicateColumn(name, c.name))
      else if c.primaryKey then Err(CannotAddPrimaryKey(name, c.name))
      else if c.notNull && (c.default.None? || c.default == Some(Null)) then Err(NotNullWithoutDefault(name, c.name))
      else
        var t := s[name];
        Ok(s[name := Table(t.columns + [c], AddToRows(t.rows, c.name, c.default.GetOr(Null)))])
    case DropColumn(name, columnName) =>
      if name !in s then Err(NoSuchTable(name))
      else
        var t := s[name];
        if !HasColumn(t, columnName) then Err(NoSuchColumn(name, columnName))
        else if exists k :: 0 <= k < |t.columns| && t.columns[k].name == columnName && t.columns[k].primaryKey then
          Err(CannotDropPrimaryKey(name, columnName))
        else if |t.columns| == 1 then Err(CannotDropOnlyColumn(name, columnName))
        else Ok(s[name := Table(RemoveColumn(t.columns, columnName), DropFromRows(t.rows, columnName))])
  }

  /** `DROP COLUMN` of an existing column that is not a primary key and not
      the only column removes it from the column list and from every row. */
  lemma ApplyDropColumn(s: Schema, name: string, columnName: string)
    requires name in s && HasColumn(s[name], columnName) && |s[name].columns| != 1
    requires !exists k :: 0 <= k < |s[name].columns| && s[name].columns[k].name == columnName && s[name].columns[k].primaryKey
    ensures Apply(s, DropColumn(name, columnName)) ==
      Ok(s[name := Table(RemoveColumn(s[name].columns, columnName), DropFromRows(s[name].rows, columnName))])
  {
  }

  /** The outcome of a sequence of awaited statements: the schema after the
      statements that ran, and the error of the one that threw, if any (the
      statements after it never run). */
  datatype Run = Run(schema: Schema, error: Option<SchemaError>)

  function RunAll(s: Schema, sts: seq<Statement>): Run
    decreases |sts|
  {
    if |sts| == 0 then Run(s, None)
    else
      match Apply(s, sts[0])
      case Err(e) => Run(s, Some(e))
      case Ok(s') => RunAll(s', sts[1..])
  }

  /** A database connection whose schema the migrations change. */
  class SchemaDb {
    var schema: Schema

    constructor(schema: Schema)
      ensures this.schema == schema
    {
      this.schema := schema;
    }

    /** `await db.schema....execute()`: the statement takes effect, or it
        throws and nothing changes. */
    method Execute(st: Statement) returns (error: Option<SchemaError>)
      modifies this
      ensures Apply(old(schema), st).Ok? ==> error.None? && schema == Apply(old(schema), st).value
      ensures Apply(old(schema), st).Err? ==> error == Some(Apply(old(schema), st).error) && schema == old(schema)
    {
      var r := Apply(schema, st);
      if r.Err? {
        return Some(r.error);
      }
      schema := r.value;
      return None;
    }
  }

  /** Running two statements in turn through `Execute`, stopping at the
      first that throws, is `RunAll` on the pair. */
  lemma RunTwo(s: Schema, a: Statement, b: Statement)
    ensures Apply(s, a).Err? ==> RunAll(s, [a, b]) == Run(s, Some(Apply(s, a).error))
    ensures Apply(s, a).Ok? && Apply(Apply(s, a).value, b).Err? ==>
      RunAll(s, [a, b]) == Run(Apply(s, a).value, Some(Apply(Apply(s, a).value, b).error))
    ensures Apply(s, a).Ok? && Apply(Apply(s, a).value, b).Ok? ==>
      RunAll(s, [a, b]) == Run(Apply(Apply(s, a).value, b).value, None)
  {
    assert [a, b][1..] == [b];
    assert [b][1..] == [];
    if Apply(s, a).Ok? && Apply(Apply(s, a).value, b).Ok? {
      var s2 := Apply(Apply(s, a).value, b).value;
      assert RunAll(s2, []) == Run(s2, None);
    }
  }
}
