/** The first migration (server/migrations/20250323-create.ts): `up`
    creates `signals` and then `automationLogs`, whose `signalId` references
    `signals.id`; `down` drops them in the opposite order. Each awaited
    statement either takes effect or throws, and a throw ends the
    migration. */
module MigrationCreate {
  import opened Common
  import opened SqlSchema

  const SignalsColumns: seq<Column> := [
    Column("id", Integer, true, false, None, None),
    Plain("createdAt", Varchar(30)),
    Plain("automationHash", Varchar(64))]

  const SignalIdColumn: Column := Column("signalId", Integer, false, false, None, Some(ForeignKey("signals", "id")))

  const AutomationLogsColumns: seq<Column> := [
    Column("id", Integer, true, false, None, None),
    Plain("createdAt", Varchar(30)),
    Plain("type", Varchar(64)),
    Plain("automationHash", Varchar(64)),
    SignalIdColumn,
    Plain("messageLog", Text)]

  const UpStatements: seq<Statement> := [
    CreateTable("signals", SignalsColumns),
    CreateTable("automationLogs", AutomationLogsColumns)]

  const DownStatements: seq<Statement> := [
    DropTable("automationLogs"),
    DropTable("signals")]

  /** The schema a successful `up` leaves: both tables added, empty. */
  function Created(s: Schema): Schema
  {
    s["signals" := Table(SignalsColumns, [])]["automationLogs" := Table(AutomationLogsColumns, [])]
  }

  method Up(db: SchemaDb) returns (error: Option<SchemaError>)
    modifies db
    ensures Run(db.schema, error) == RunAll(old(db.schema), UpStatements)
  {
    RunTwo(db.schema, UpStatements[0], UpStatements[1]);
    error := db.Execute(CreateTable("signals", SignalsColumns));
    if error.Some? {
      return;
    }
    error := db.Execute(CreateTable("automationLogs", AutomationLogsColumns));
  }

  method Down(db: SchemaDb) returns (error: Option<SchemaError>)
    modifies db
    ensures Run(db.schema, error) == RunAll(old(db.schema), DownStatements)
  {
    RunTwo(db.schema, DownStatements[0], DownStatements[1]);
    error := db.Execute(DropTable("automationLogs"));
    if error.Some? {
      return;
    }
    error := db.Execute(DropTable("signals"));
  }

  /** `up` succeeds exactly when neither table exists yet, and then adds the
      two tables, with their columns in declaration order, and nothing
      else. */
  lemma UpSucceedsIffTablesAbsent(s: Schema)
    ensures RunAll(s, UpStatements).error.None? <==> "signals" !in s && "automationLogs" !in s
    ensures RunAll(s, UpStatements).error.None? ==> RunAll(s, UpStatements).schema == Created(s)
    ensures RunAll(s, UpStatements).error.Some? ==> RunAll(s, UpStatements).schema.Keys <= s.Keys + {"signals"}
  {
    RunTwo(s, UpStatements[0], UpStatements[1]);
  }

  /** `signals` is created first, so when `automationLogs` is created the
      table and column its foreign key names already exist. */
  lemma ReferencedTableCreatedFirst(s: Schema)
    requires "signals" !in s
    ensures var s1 := Apply(s, UpStatements[0]);
      s1.Ok? && "signals" in s1.value && HasColumn(s1.value["signals"], SignalIdColumn.references.value.column) &&
      SignalIdColumn.references.value.table == "signals"
  {
    var s1 := Apply(s, UpStatements[0]).value;
    assert s1["signals"].columns[0].name == "id";
  }

  /** A schema whose foreign keys resolve still does after `up`. */
  lemma UpKeepsReferencesResolving(s: Schema)
    requires ReferencesResolve(s) && "signals" !in s && "automationLogs" !in s
    ensures ReferencesResolve(Created(s))
  {
    var c := Created(s);
    assert c["signals"].columns[0].name == "id";
    forall name, k | name in c && 0 <= k < |c[name].columns| && c[name].columns[k].references.Some?
      ensures c[name].columns[k].references.value.table in c
      ensures HasColumn(c[c[name].columns[k].references.value.table], c[name].columns[k].references.value.column)
    {
      if name == "automationLogs" {
        assert c[name].columns == AutomationLogsColumns;
        assert k == 4;
      } else if name == "signals" {
        assert false;
      } else {
        var fk := s[name].columns[k].references.value;
        assert fk.table in s && HasColumn(s[fk.table], fk.column);
        assert fk.table != "signals" && fk.table != "automationLogs";
      }
    }
  }

  /** `down` after a successful `up` restores the table set exactly. */
  lemma DownUndoesUp(s: Schema)
    requires "signals" !in s && "automationLogs" !in s
    ensures RunAll(Created(s), DownStatements) == Run(s, None)
  {
    var c := Created(s);
    RunTwo(c, DownStatements[0], DownStatements[1]);
    assert c - {"automationLogs"} - {"signals"} == s;
  }

  /** Every schema `down` passes through, starting from a successful `up`
      over a schema whose foreign keys resolve, has resolving foreign keys:
      the referencing table goes first. */
  lemma DownNeverDangles(s: Schema)
    requires ReferencesResolve(s) && "signals" !in s && "automationLogs" !in s
    ensures ReferencesResolve(Created(s) - {"automationLogs"})
    ensures ReferencesResolve(Created(s) - {"automationLogs"} - {"signals"})
  {
    var c := Created(s);
    var c1 := c - {"automationLogs"};
    assert c1 == s["signals" := Table(SignalsColumns, [])];
    forall name, k | name in c1 && 0 <= k < |c1[name].columns| && c1[name].columns[k].references.Some?
      ensures c1[name].columns[k].references.value.table in c1
      ensures HasColumn(c1[c1[name].columns[k].references.value.table], c1[name].columns[k].references.value.column)
    {
      if name == "signals" {
        assert false;
      } else {
        var fk := s[name].columns[k].references.value;
        assert fk.table in s && HasColumn(s[fk.table], fk.column);
      }
    }
    assert c1 - {"signals"} == s;
  }

  /** The opposite order would not do: dropping `signals` first leaves
      `automationLogs.signalId` pointing at a table that is gone. */
  lemma DroppingSignalsFirstDangles(s: Schema)
    requires "signals" !in s && "automationLogs" !in s
    ensures !ReferencesResolve(Created(s) - {"signals"})
  {
    var c := Created(s) - {"signals"};
    assert c["automationLogs"].columns[4] == SignalIdColumn;
  }
}
