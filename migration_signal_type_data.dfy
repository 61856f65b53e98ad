/** The second migration (server/migrations/20250331-add-signal-type-data.ts):
    `up` adds the `type` column and then the `data` column to `signals`,
    both `NOT NULL` with a default, so rows already in the table take the
    defaults; `down` drops `data` and then `type`. */
module MigrationSignalTypeData {
  import opened Common
  import opened SqlSchema

  const TypeColumn: Column := Column("type", Varchar(64), false, true, Some(TextValue("cron")), None)
  const DataColumn: Column := Column("data", Text, false, true, Some(TextValue("")), None)

  const UpStatements: seq<Statement> := [
    AddColumn("signals", TypeColumn),
    AddColumn("signals", DataColumn)]

  const DownStatements: seq<Statement> := [
    DropColumn("signals", "data"),
    DropColumn("signals", "type")]

  /** A row of `signals` after `up`: the two defaults added. */
  function ExtendedRow(r: Row): Row
  {
    r["type" := TextValue("cron")]["data" := TextValue("")]
  }

  /** `signals` after `up`. */
  function Extended(t: Table): Table
  {
    Table(t.columns + [TypeColumn, DataColumn],
          seq(|t.rows|, k requires 0 <= k < |t.rows| => ExtendedRow(t.rows[k])))
  }

  method Up(db: SchemaDb) returns (error: Option<SchemaError>)
    modifies db
    ensures Run(db.schema, error) == RunAll(old(db.schema), UpStatements)
  {
    RunTwo(db.schema, UpStatements[0], UpStatements[1]);
    error := db.Execute(AddColumn("signals", TypeColumn));
    if error.Some? {
      return;
    }
    error := db.Execute(AddColumn("signals", DataColumn));
  }

  method Down(db: SchemaDb) returns (error: Option<SchemaError>)
    modifies db
    ensures Run(db.schema, error) == RunAll(old(db.schema), DownStatements)
  {
    RunTwo(db.schema, DownStatements[0], DownStatements[1]);
    error := db.Execute(DropColumn("signals", "data"));
    if error.Some? {
      return;
    }
    error := db.Execute(DropColumn("signals", "type"));
  }

  /** `up` succeeds exactly when `signals` exists and has neither column
      yet; then `signals` gains `type` and `data`, in that order, every
      existing row takes `'cron'` and `''`, and no other table changes. */
  lemma UpSucceedsIffColumnsAbsent(s: Schema)
    ensures RunAll(s, UpStatements).error.None? <==>
      "signals" in s && !HasColumn(s["signals"], "type") && !HasColumn(s["signals"], "data")
    ensures RunAll(s, UpStatements).error.None? ==>
      RunAll(s, UpStatements).schema == s["signals" := Extended(s["signals"])]
  {
    RunTwo(s, UpStatements[0], UpStatements[1]);
    if "signals" in s && !HasColumn(s["signals"], "type") {
      var t1 := Apply(s, UpStatements[0]).value["signals"];
      assert t1.columns == s["signals"].columns + [TypeColumn];
      HasColumnAppend(s["signals"], [TypeColumn], t1.rows, "data");
      assert HasColumn(t1, "data") <==> HasColumn(s["signals"], "data");
      if !HasColumn(s["signals"], "data") {
        var t2 := Apply(Apply(s, UpStatements[0]).value, UpStatements[1]).value["signals"];
        assert t2.columns == s["signals"].columns + [TypeColumn] + [DataColumn];
        assert t2.columns == s["signals"].columns + [TypeColumn, DataColumn];
        assert t2.rows == Extended(s["signals"]).rows;
      }
    }
  }

  /** A row that existed before `up` keeps every value it had and reads
      `type == 'cron'` and `data == ''` afterwards. */
  lemma ExistingRowsTakeDefaults(t: Table, k: nat)
    requires k < |t.rows|
    ensures var r := Extended(t).rows[k];
      r["type"] == TextValue("cron") && r["data"] == TextValue("") &&
      forall c :: c in t.rows[k] && c != "type" && c != "data" ==> c in r && r[c] == t.rows[k][c]
  {
  }

  /** `up` keeps `signals` well formed: the new names are fresh, and every
      row gains a value for exactly the two new columns. */
  lemma UpKeepsWellFormed(t: Table)
    requires WellFormed(t) && !HasColumn(t, "type") && !HasColumn(t, "data")
    ensures WellFormed(Extended(t))
  {
    var e := Extended(t);
    var oldNames := set k | 0 <= k < |t.columns| :: t.columns[k].name;
    var newNames := set k | 0 <= k < |e.columns| :: e.columns[k].name;
    assert e.columns[|t.columns|].name == "type" && e.columns[|t.columns| + 1].name == "data";
    assert newNames == oldNames + {"type", "data"} by {
      forall n | n in newNames ensures n in oldNames + {"type", "data"} {
        var k :| 0 <= k < |e.columns| && e.columns[k].name == n;
        if k < |t.columns| {
          assert t.columns[k].name == n;
        }
      }
      forall n | n in oldNames ensures n in newNames {
        var k :| 0 <= k < |t.columns| && t.columns[k].name == n;
        assert e.columns[k].name == n;
      }
    }
    forall r | r in e.rows ensures r.Keys == newNames {
      var k :| 0 <= k < |e.rows| && e.rows[k] == r;
      assert t.rows[k] in t.rows;
    }
  }

  /** The column list of `signals` comes back: `data`, then `type`, are
      the columns `up` appended. */
  lemma DropsRestoreColumns(t: Table)
    requires !HasColumn(t, "type") && !HasColumn(t, "data")
    ensures RemoveColumn(Extended(t).columns, "data") == t.columns + [TypeColumn]
    ensures RemoveColumn(t.columns + [TypeColumn], "type") == t.columns
  {
    assert forall c :: c in t.columns ==> c.name != "data" && c.name != "type";
    RemoveColumnKeeps(t.columns, "data");
    RemoveColumnKeeps(t.columns, "type");
    RemoveColumnAppend(t.columns, [TypeColumn, DataColumn], "data");
    assert RemoveColumn([TypeColumn, DataColumn], "data") == [TypeColumn];
    RemoveColumnAppend(t.columns, [TypeColumn], "type");
    assert RemoveColumn([TypeColumn], "type") == [];
  }

  /** The rows come back: dropping the two columns removes exactly the
      values `up` added, which no row had before. */
  lemma DropsRestoreRows(t: Table)
    requires WellFormed(t) && !HasColumn(t, "type") && !HasColumn(t, "data")
    ensures DropFromRows(DropFromRows(Extended(t).rows, "data"), "type") == t.rows
  {
    var back := DropFromRows(DropFromRows(Extended(t).rows, "data"), "type");
    forall k | 0 <= k < |t.rows|
      ensures back[k] == t.rows[k]
    {
      var r := t.rows[k];
      assert r in t.rows;
      assert "type" !in r && "data" !in r;
      assert ExtendedRow(r) - {"data"} - {"type"} == r;
    }
  }

  /** Neither drop of `down` is refused after `up`: both columns exist,
      neither is a primary key, and neither is the only column. */
  lemma DropsAllowed(t: Table)
    requires !HasColumn(t, "type") && !HasColumn(t, "data")
    ensures HasColumn(Extended(t), "data")
    ensures !exists k :: 0 <= k < |Extended(t).columns| && Extended(t).columns[k].name == "data" && Extended(t).columns[k].primaryKey
    ensures HasColumn(Table(t.columns + [TypeColumn], []), "type")
    ensures !exists k :: 0 <= k < |t.columns + [TypeColumn]| && (t.columns + [TypeColumn])[k].name == "type" && (t.columns + [TypeColumn])[k].primaryKey
  {
    var e := Extended(t).columns;
    assert e[|t.columns| + 1] == DataColumn;
    assert (t.columns + [TypeColumn])[|t.columns|] == TypeColumn;
  }

  /** The first statement of `down` after `up`: `data` goes. */
  lemma DropDataAfterUp(s: Schema)
    requires "signals" in s
    requires !HasColumn(s["signals"], "type") && !HasColumn(s["signals"], "data")
    ensures var t := s["signals"];
      Apply(s["signals" := Extended(t)], DownStatements[0]) ==
      Ok(s["signals" := Table(t.columns + [TypeColumn], DropFromRows(Extended(t).rows, "data"))])
  {
    var t := s["signals"];
    DropsRestoreColumns(t);
    DropsAllowed(t);
    var u := s["signals" := Extended(t)];
    assert u["signals"] == Extended(t);
    ApplyDropColumn(u, "signals", "data");
    assert u["signals" := Table(t.columns + [TypeColumn], DropFromRows(Extended(t).rows, "data"))] ==
      s["signals" := Table(t.columns + [TypeColumn], DropFromRows(Extended(t).rows, "data"))];
  }

  /** The second statement of `down`: `type` goes and `signals` is back,
      given rows that lose their `type` value back to the original rows. */
  lemma DropTypeAfterData(s: Schema, rows: seq<Row>)
    requires "signals" in s && |s["signals"].columns| > 0
    requires !HasColumn(s["signals"], "type") && !HasColumn(s["signals"], "data")
    requires DropFromRows(rows, "type") == s["signals"].rows
    ensures Apply(s["signals" := Table(s["signals"].columns + [TypeColumn], rows)], DownStatements[1]) == Ok(s)
  {
    var t := s["signals"];
    DropsRestoreColumns(t);
    DropsAllowed(t);
    var t1 := Table(t.columns + [TypeColumn], rows);
    var s1 := s["signals" := t1];
    assert s1["signals"] == t1;
    assert HasColumn(t1, "type");
    assert |t1.columns| == |t.columns| + 1;
    ApplyDropColumn(s1, "signals", "type");
    assert Table(RemoveColumn(t1.columns, "type"), DropFromRows(t1.rows, "type")) == t;
    assert s1["signals" := t] == s;
  }

  /** `down` after a successful `up` gives back the schema `up` started
      from: the columns of `signals`, its rows, and every other table. */
  lemma DownUndoesUp(s: Schema)
    requires "signals" in s && WellFormed(s["signals"])
    requires !HasColumn(s["signals"], "type") && !HasColumn(s["signals"], "data")
    ensures RunAll(s["signals" := Extended(s["signals"])], DownStatements) == Run(s, None)
  {
    var t := s["signals"];
    RunTwo(s["signals" := Extended(t)], DownStatements[0], DownStatements[1]);
    DropsRestoreRows(t);
    DropDataAfterUp(s);
    DropTypeAfterData(s, DropFromRows(Extended(t).rows, "data"));
  }
}
