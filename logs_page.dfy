/** The filtering, ordering and expansion logic of the automation log page
    (site/pages/logs.tsx). A fetched log is reduced to what that logic looks
    at: its `type`, its `createdAt` as whole Unix seconds, and the text of
    `JSON.stringify(log)`. */
module LogsPage {
  import opened Text

  datatype LogEntry = LogEntry(logType: string, createdAt: int, serialized: string)

  /** The type selection that disables the type filter. */
  const AllTypes: string := "All Types"

  /** The search matches when the lower-cased serialised log contains the
      lower-cased search text; an empty search matches everything. */
  predicate MatchesSearch(e: LogEntry, searchText: string)
  {
    searchText == "" || Includes(ToLower(e.serialized), ToLower(searchText))
  }

  predicate MatchesType(e: LogEntry, selectedType: string)
  {
    selectedType == AllTypes || e.logType == selectedType
  }

  /** The predicate passed to `logs.filter`. */
  predicate Keep(e: LogEntry, searchText: string, selectedType: string)
  {
    MatchesSearch(e, searchText) && MatchesType(e, selectedType)
  }

  /** `logs.filter(...)`: the kept logs, in their order. */
  function Kept(logs: seq<LogEntry>, searchText: string, selectedType: string): (r: seq<LogEntry>)
    ensures |r| <= |logs|
  {
    if |logs| == 0 then []
    else (if Keep(logs[0], searchText, selectedType) then [logs[0]] else []) + Kept(logs[1..], searchText, selectedType)
  }

  /** Newest first: `createdAt` never increases along the list. */
  predicate NewestFirst(s: seq<LogEntry>)
  {
    forall i, j :: 0 <= i < j < |s| ==> s[i].createdAt >= s[j].createdAt
  }

  /** Puts `x` in front of the first entry that is not newer than it. */
  function Insert(x: LogEntry, s: seq<LogEntry>): (r: seq<LogEntry>)
    ensures |r| == |s| + 1
  {
    if |s| == 0 then [x]
    else if s[0].createdAt <= x.createdAt then [x] + s
    else [s[0]] + Insert(x, s[1..])
  }

  /** `.sort((a, b) => b.createdAt - a.createdAt)`: a stable sort, newest
      first. */
  function SortNewestFirst(s: seq<LogEntry>): (r: seq<LogEntry>)
    ensures |r| == |s|
  {
    if |s| == 0 then [] else Insert(s[0], SortNewestFirst(s[1..]))
  }

  /** `filteredLogs`. */
  function FilteredLogs(logs: seq<LogEntry>, searchText: string, selectedType: string): seq<LogEntry>
  {
    SortNewestFirst(Kept(logs, searchText, selectedType))
  }

  /** The logs created in second `t`, in their order. */
  function AtSecond(s: seq<LogEntry>, t: int): seq<LogEntry>
  {
    if |s| == 0 then []
    else (if s[0].createdAt == t then [s[0]] else []) + AtSecond(s[1..], t)
  }

  /** A log is kept exactly when the filter predicate holds for it, and as
      often as it was fetched. */
  lemma {:induction false} KeptCounts(logs: seq<LogEntry>, searchText: string, selectedType: string)
    ensures forall e ::
      multiset(Kept(logs, searchText, selectedType))[e] == (if Keep(e, searchText, selectedType) then multiset(logs)[e] else 0)
  {
    if |logs| > 0 {
      KeptCounts(logs[1..], searchText, selectedType);
      assert logs == [logs[0]] + logs[1..];
    }
  }

  /** Without a search text and with 'All Types', every log is kept, in
      order. */
  lemma {:induction false} NoFilterKeepsAll(logs: seq<LogEntry>)
    ensures Kept(logs, "", AllTypes) == logs
  {
    if |logs| > 0 {
      NoFilterKeepsAll(logs[1..]);
      assert logs == [logs[0]] + logs[1..];
    }
  }

  lemma {:induction false} InsertPermutes(x: LogEntry, s: seq<LogEntry>)
    ensures multiset(Insert(x, s)) == multiset(s) + multiset{x}
  {
    if |s| > 0 && s[0].createdAt > x.createdAt {
      InsertPermutes(x, s[1..]);
      assert s == [s[0]] + s[1..];
    }
  }

  lemma {:induction false} InsertKeepsOrder(x: LogEntry, s: seq<LogEntry>)
    requires NewestFirst(s)
    ensures NewestFirst(Insert(x, s))
  {
    if |s| > 0 && s[0].createdAt > x.createdAt {
      var rest := Insert(x, s[1..]);
      InsertKeepsOrder(x, s[1..]);
      InsertPermutes(x, s[1..]);
      forall k | 0 <= k < |rest|
        ensures s[0].createdAt >= rest[k].createdAt
      {
        assert rest[k] in multiset(s[1..]) + multiset{x};
        if rest[k] != x {
          assert rest[k] in s[1..];
        }
      }
    }
  }

  lemma {:induction false} AtSecondAppend(a: seq<LogEntry>, b: seq<LogEntry>, t: int)
    ensures AtSecond(a + b, t) == AtSecond(a, t) + AtSecond(b, t)
  {
    if |a| == 0 {
      assert a + b == b;
    } else {
      assert (a + b)[1..] == a[1..] + b;
      AtSecondAppend(a[1..], b, t);
    }
  }

  /** Inserting `x` keeps the logs of every second in their order, with `x`
      in front of those of its own second. */
  lemma {:induction false} InsertStable(x: LogEntry, s: seq<LogEntry>, t: int)
    ensures AtSecond(Insert(x, s), t) == AtSecond([x], t) + AtSecond(s, t)
  {
    if |s| == 0 {
      assert Insert(x, s) == [x] + s;
    } else if s[0].createdAt <= x.createdAt {
      AtSecondAppend([x], s, t);
    } else {
      var s' := s[1..];
      InsertStable(x, s', t);
      AtSecondAppend([s[0]], Insert(x, s'), t);
      AtSecondAppend([s[0]], s', t);
      assert s == [s[0]] + s';
      assert [s[0]][1..] == [] && [x][1..] == [];
      assert AtSecond([s[0]], t) == [] || AtSecond([x], t) == [];
    }
  }

  /** The sort is a permutation, newest first. */
  lemma {:induction false} SortSortsAndPermutes(s: seq<LogEntry>)
    ensures NewestFirst(SortNewestFirst(s))
    ensures multiset(SortNewestFirst(s)) == multiset(s)
  {
    if |s| > 0 {
      SortSortsAndPermutes(s[1..]);
      InsertKeepsOrder(s[0], SortNewestFirst(s[1..]));
      InsertPermutes(s[0], SortNewestFirst(s[1..]));
      assert s == [s[0]] + s[1..];
    }
  }

  /** The sort is stable: logs of the same second keep their fetched
      order. */
  lemma {:induction false} SortIsStable(s: seq<LogEntry>, t: int)
    ensures AtSecond(SortNewestFirst(s), t) == AtSecond(s, t)
  {
    if |s| > 0 {
      SortIsStable(s[1..], t);
      InsertStable(s[0], SortNewestFirst(s[1..]), t);
    }
  }

  /** The shown list: newest first, each fetched log as often as it was
      fetched if the filters keep it and never otherwise, and logs of the
      same second in fetched order. */
  lemma FilteredLogsSpec(logs: seq<LogEntry>, searchText: string, selectedType: string)
    ensures NewestFirst(FilteredLogs(logs, searchText, selectedType))
    ensures forall e ::
      multiset(FilteredLogs(logs, searchText, selectedType))[e] == (if Keep(e, searchText, selectedType) then multiset(logs)[e] else 0)
    ensures forall e ::
      e in FilteredLogs(logs, searchText, selectedType) <==> e in logs && Keep(e, searchText, selectedType)
    ensures forall t :: AtSecond(FilteredLogs(logs, searchText, selectedType), t) == AtSecond(Kept(logs, searchText, selectedType), t)
  {
    var kept := Kept(logs, searchText, selectedType);
    SortSortsAndPermutes(kept);
    KeptCounts(logs, searchText, selectedType);
    forall t
      ensures AtSecond(SortNewestFirst(kept), t) == AtSecond(kept, t)
    {
      SortIsStable(kept, t);
    }
    forall e
      ensures e in FilteredLogs(logs, searchText, selectedType) <==> e in logs && Keep(e, searchText, selectedType)
    {
      assert e in FilteredLogs(logs, searchText, selectedType) <==> e in multiset(FilteredLogs(logs, searchText, selectedType));
      assert e in logs <==> e in multiset(logs);
    }
  }

  /** With no search text and 'All Types' every fetched log is shown. */
  lemma NoFilterShowsAll(logs: seq<LogEntry>)
    ensures multiset(FilteredLogs(logs, "", AllTypes)) == multiset(logs)
    ensures NewestFirst(FilteredLogs(logs, "", AllTypes))
  {
    NoFilterKeepsAll(logs);
    SortSortsAndPermutes(logs);
  }

  lemma {:induction false} IncludesToLower(hay: string, needle: string)
    requires Includes(hay, needle)
    ensures Includes(ToLower(hay), ToLower(needle))
    decreases |hay|
  {
    if IsPrefix(needle, hay) {
      assert ToLower(hay)[..|needle|] == ToLower(needle);
    } else {
      assert ToLower(hay)[1..] == ToLower(hay[1..]);
      IncludesToLower(hay[1..], needle);
    }
  }

  /** The search does not depend on case: a log whose serialised text
      contains the search text as typed matches, and so it does for the
      search text in any mix of cases with the same lower-case form. */
  lemma SearchIgnoresCase(e: LogEntry, searchText: string, other: string)
    ensures Includes(e.serialized, searchText) ==> MatchesSearch(e, searchText)
    ensures ToLower(other) == ToLower(searchText) ==> (MatchesSearch(e, other) <==> MatchesSearch(e, searchText))
  {
    if Includes(e.serialized, searchText) {
      IncludesToLower(e.serialized, searchText);
    }
  }

  /** `prev` with `id` added when absent and removed when present. */
  function Toggled(prev: set<int>, id: int): (r: set<int>)
    ensures id in r <==> id !in prev
    ensures forall x :: x != id ==> (x in r <==> x in prev)
  {
    if id in prev then prev - {id} else prev + {id}
  }

  /** Toggling the same entry twice restores the set. */
  lemma ToggleTwice(prev: set<int>, id: int)
    ensures Toggled(Toggled(prev, id), id) == prev
  {
  }

  /** The page state the logic reads: the fetched logs, the two filters and
      the indices of the expanded entries. */
  class Page {
    var logs: seq<LogEntry>
    var searchText: string
    var selectedType: string
    var expandedItems: set<int>

    constructor()
      ensures logs == [] && searchText == "" && selectedType == AllTypes && expandedItems == {}
    {
      logs := [];
      searchText := "";
      selectedType := AllTypes;
      expandedItems := {};
    }

    function Shown(): seq<LogEntry>
      reads this
    {
      FilteredLogs(logs, searchText, selectedType)
    }

    /** The entry at `index` of the shown list is open when its index was
        toggled open, or when it is the only one shown. */
    predicate IsExpanded(index: int)
      reads this
    {
      index in expandedItems || |Shown()| == 1
    }

    /** `toggleExpanded(id)`: a copy of the set with `id` flipped. Only the
        entry at `id` changes, and it changes unless it is the only one
        shown. */
    method ToggleExpanded(id: int)
      modifies this`expandedItems
      ensures expandedItems == Toggled(old(expandedItems), id)
      ensures |Shown()| != 1 ==> (IsExpanded(id) <==> !old(IsExpanded(id)))
      ensures |Shown()| == 1 ==> IsExpanded(id)
      ensures forall j :: j != id ==> (IsExpanded(j) <==> old(IsExpanded(j)))
    {
      var newSet := expandedItems;
      if id in newSet {
        newSet := newSet - {id};
      } else {
        newSet := newSet + {id};
      }
      expandedItems := newSet;
    }

    /** The Reset Filters button: every fetched log is shown again, newest
        first; the expanded indices are kept as they were. */
    method ResetFilters()
      modifies this`searchText, this`selectedType
      ensures searchText == "" && selectedType == AllTypes
      ensures multiset(Shown()) == multiset(logs) && NewestFirst(Shown())
    {
      searchText := "";
      selectedType := AllTypes;
      NoFilterShowsAll(logs);
    }
  }
}
