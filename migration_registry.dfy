/** The migration provider (server/migrations/this-sucks.ts): the migration
    modules, listed in order, are handed over as an object whose keys are
    `migration-0`, `migration-1`, ... by position. The migrator applies
    migrations in the order of their names. */
module MigrationRegistry {
  import opened Text

  /** The four imported migration modules; the last two are not part of
      this model beyond their place in the list. */
  datatype MigrationModule = CreateTables | AddSignalTypeData | AddServiceLog | AddQueryIndexes

  /** The date prefix of the file each module is imported from. */
  function FileDate(m: MigrationModule): string
  {
    match m
    case CreateTables => "20250323"
    case AddSignalTypeData => "20250331"
    case AddServiceLog => "20250405"
    case AddQueryIndexes => "20250408"
  }

  const Migrations: seq<MigrationModule> := [CreateTables, AddSignalTypeData, AddServiceLog, AddQueryIndexes]

  /** `` `migration-${i}` `` */
  function MigrationKey(i: nat): string
  {
    "migration-" + NatToString(i)
  }

  /** `Object.fromEntries(ms.map((m, i) => [`migration-${i}`, m]))`, the
      entries added in list order. */
  function GetMigrations<M>(ms: seq<M>): map<string, M>
    decreases |ms|
  {
    if |ms| == 0 then map[]
    else GetMigrations(ms[..|ms| - 1])[MigrationKey(|ms| - 1) := ms[|ms| - 1]]
  }

  /** Different positions get different keys. */
  lemma KeysDistinct(i: nat, j: nat)
    ensures MigrationKey(i) == MigrationKey(j) ==> i == j
  {
    if MigrationKey(i) == MigrationKey(j) {
      var p := "migration-";
      assert NatToString(i) == MigrationKey(i)[|p|..];
      assert NatToString(j) == MigrationKey(j)[|p|..];
      NatToStringInjective(i, j);
    }
  }

  /** Every key is the key of some position. */
  lemma {:induction false} GetMigrationsKeys<M>(ms: seq<M>)
    ensures forall k :: k in GetMigrations(ms) ==> exists i :: 0 <= i < |ms| && k == MigrationKey(i)
    decreases |ms|
  {
    if |ms| > 0 {
      var n := |ms| - 1;
      GetMigrationsKeys(ms[..n]);
    }
  }

  /** The `i`-th module is under `migration-i`. */
  lemma {:induction false} GetMigrationsLookup<M>(ms: seq<M>)
    ensures forall i :: 0 <= i < |ms| ==> MigrationKey(i) in GetMigrations(ms) && GetMigrations(ms)[MigrationKey(i)] == ms[i]
    decreases |ms|
  {
    if |ms| > 0 {
      var n := |ms| - 1;
      var init := ms[..n];
      GetMigrationsLookup(init);
      forall i | 0 <= i < n
        ensures MigrationKey(i) != MigrationKey(n) && init[i] == ms[i]
      {
        KeysDistinct(i, n);
      }
    }
  }

  /** One entry per module: the `i`-th module under `migration-i`, and no
      other key. */
  lemma {:induction false} GetMigrationsEntries<M>(ms: seq<M>)
    ensures |GetMigrations(ms)| == |ms|
    ensures forall i :: 0 <= i < |ms| ==> MigrationKey(i) in GetMigrations(ms) && GetMigrations(ms)[MigrationKey(i)] == ms[i]
    ensures forall k :: k in GetMigrations(ms) ==> exists i :: 0 <= i < |ms| && k == MigrationKey(i)
    decreases |ms|
  {
    GetMigrationsLookup(ms);
    GetMigrationsKeys(ms);
    if |ms| > 0 {
      var n := |ms| - 1;
      var init := ms[..n];
      GetMigrationsEntries(init);
      if MigrationKey(n) in GetMigrations(init) {
        var i :| 0 <= i < n && MigrationKey(n) == MigrationKey(i);
        KeysDistinct(i, n);
      }
    }
  }

  /** Prepending the same text does not change how two strings compare. */
  lemma {:induction false} LexLessCommonPrefix(p: string, a: string, b: string)
    ensures LexLess(p + a, p + b) <==> LexLess(a, b)
    decreases |p|
  {
    if |p| == 0 {
      assert p + a == a && p + b == b;
    } else {
      assert (p + a)[1..] == p[1..] + a;
      assert (p + b)[1..] == p[1..] + b;
      LexLessCommonPrefix(p[1..], a, b);
    }
  }

  /** Below ten the keys sort in list order, because the index is one
      digit. */
  lemma KeysSortInListOrder(i: nat, j: nat)
    requires i < 10 && j < 10
    ensures LexLess(MigrationKey(i), MigrationKey(j)) <==> i < j
  {
    LexLessCommonPrefix("migration-", NatToString(i), NatToString(j));
    assert NatToString(i) == [DigitChar(i)] && NatToString(j) == [DigitChar(j)];
    assert LexLess([DigitChar(i)], [DigitChar(j)]) <==> DigitChar(i) < DigitChar(j) by {
      assert [DigitChar(i)][1..] == [] && [DigitChar(j)][1..] == [];
    }
  }

  /** From the eleventh migration on the name order would stop matching the
      list: `migration-10` sorts before `migration-2`. */
  lemma KeyTenSortsBeforeKeyTwo()
    ensures LexLess(MigrationKey(10), MigrationKey(2))
  {
    assert NatToString(10) == NatToString(1) + [DigitChar(0)];
    assert NatToString(10) == "10" && NatToString(2) == "2";
    LexLessCommonPrefix("migration-", "10", "2");
  }

  /** The registered list: four entries, each module under the key of its
      position. */
  lemma RegisteredMigrations()
    ensures var r := GetMigrations(Migrations);
      |r| == 4 &&
      MigrationKey(0) in r && r[MigrationKey(0)] == CreateTables &&
      MigrationKey(1) in r && r[MigrationKey(1)] == AddSignalTypeData &&
      MigrationKey(2) in r && r[MigrationKey(2)] == AddServiceLog &&
      MigrationKey(3) in r && r[MigrationKey(3)] == AddQueryIndexes
  {
    GetMigrationsEntries(Migrations);
    assert Migrations[0] == CreateTables && Migrations[1] == AddSignalTypeData;
    assert Migrations[2] == AddServiceLog && Migrations[3] == AddQueryIndexes;
  }

  /** Two strings that agree before position `k` and differ at `k` compare
      as their characters at `k` do. */
  lemma {:induction false} LexLessAt(a: string, b: string, k: nat)
    requires k < |a| && k < |b| && a[..k] == b[..k] && a[k] < b[k]
    ensures LexLess(a, b)
    decreases k
  {
    if k > 0 {
      assert a[1..][..k - 1] == a[..k][1..] && b[1..][..k - 1] == b[..k][1..];
      LexLessAt(a[1..], b[1..], k - 1);
      assert a[0] == a[..k][0] && b[0] == b[..k][0];
    }
  }

  /** The list is in the date order of the files the modules come from. */
  lemma RegisteredInDateOrder()
    ensures forall i, j :: 0 <= i < j < |Migrations| ==> LexLess(FileDate(Migrations[i]), FileDate(Migrations[j]))
  {
    LexLessAt("20250323", "20250331", 6);
    LexLessAt("20250323", "20250405", 5);
    LexLessAt("20250323", "20250408", 5);
    LexLessAt("20250331", "20250405", 5);
    LexLessAt("20250331", "20250408", 5);
    LexLessAt("20250405", "20250408", 7);
  }

  /** The migrator's name order applies the registered migrations in list
      order. */
  lemma RegisteredKeysSortInListOrder()
    ensures forall i, j :: 0 <= i < |Migrations| && 0 <= j < |Migrations| ==>
      (LexLess(MigrationKey(i), MigrationKey(j)) <==> i < j)
  {
    forall i, j | 0 <= i < |Migrations| && 0 <= j < |Migrations|
      ensures LexLess(MigrationKey(i), MigrationKey(j)) <==> i < j
    {
      KeysSortInListOrder(i, j);
    }
  }
}
