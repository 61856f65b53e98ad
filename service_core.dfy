/** The trigger side of `ServiceCore` (server/workflow/service-core.ts):
    turning the stored signal rows into live cron triggers, and the rule by
    which each completed reconciliation replaces the previous set of live
    triggers.

    The RxJS pipeline is represented by explicit steps. A reconciliation
    that completes bumps a generation counter (the key of the `switchMap`
    at lines 72-74); a signal load that completes is kept only when it
    belongs to the newest generation, and then the previously live
    triggers are torn down and the new ones subscribed. Each live cron
    trigger owns one interval handle of the cron scheduler. */
module Service {
  import opened Common
  import opened Store

  /** A parsed cron expression. Parsing and scheduling belong to a foreign
      library; the model keeps the expression text. */
  datatype CronSchedule = CronSchedule(expression: string)

  /** `parseCronExpression(JSON.parse(data).cron)`: a schedule, or `None`
      when either call throws. */
  type CronParser = string -> Option<CronSchedule>

  /** The `{ signal, automation }` pair that a tick of the trigger emits,
      with the schedule the trigger was built from. */
  datatype Trigger = Trigger(signal: Signal, automation: Automation, schedule: CronSchedule)

  /** The signal load rejects when a row's cron data does not parse. */
  datatype LoadError = MalformedCronData(signalId: int)

  /** `automationList.find((x) => x.hash === hash)`: the first automation
      with that hash. */
  function FindAutomation(list: seq<Automation>, hash: string): (r: Option<Automation>)
    ensures r.Some? ==> r.value in list && r.value.hash == hash
    ensures r.None? <==> forall a :: a in list ==> a.hash != hash
    ensures r.Some? ==> exists i :: 0 <= i < |list| && list[i] == r.value && forall j :: 0 <= j < i ==> list[j].hash != hash
  {
    Find(list, (a: Automation) => a.hash == hash)
  }

  /** A loaded row yields a trigger exactly when its automation is known and
      its type is `'cron'`. */
  predicate Fires(s: Signal, list: seq<Automation>)
  {
    FindAutomation(list, s.automationHash).Some? && s.signalType == "cron"
  }

  /** The rows that yield a trigger, in table order. */
  function Selected(rows: seq<Signal>, list: seq<Automation>): (r: seq<Signal>)
    decreases |rows|
  {
    if |rows| == 0 then []
    else
      var last := rows[|rows| - 1];
      Selected(rows[..|rows| - 1], list) + (if Fires(last, list) then [last] else [])
  }

  /** What `observableForDatabaseSignals` builds from the rows `rows`, read
      in order: orphan rows (no automation with their hash) and rows of any
      type other than `'cron'` are skipped; a cron row whose data does not
      parse makes the whole load reject. */
  function LoadTriggers(rows: seq<Signal>, list: seq<Automation>, parse: CronParser): Result<seq<Trigger>, LoadError>
    decreases |rows|
  {
    if |rows| == 0 then Ok([])
    else
      match LoadTriggers(rows[..|rows| - 1], list, parse)
      case Err(e) => Err(e)
      case Ok(ts) => LoadRow(ts, rows[|rows| - 1], list, parse)
  }

  /** One iteration of the loop: the triggers built so far, after row `s`. */
  function LoadRow(ts: seq<Trigger>, s: Signal, list: seq<Automation>, parse: CronParser): Result<seq<Trigger>, LoadError>
  {
    match FindAutomation(list, s.automationHash)
    case None => Ok(ts)
    case Some(a) =>
      if s.signalType != "cron" then Ok(ts)
      else
        match parse(s.data)
        case None => Err(MalformedCronData(s.id))
        case Some(c) => Ok(ts + [Trigger(s, a, c)])
  }

  /** Once a prefix of the rows rejects, the whole load rejects with the
      same error: the loop stops at the first failure. */
  lemma {:induction false} RejectionIsFinal(rows: seq<Signal>, i: nat, list: seq<Automation>, parse: CronParser)
    requires i <= |rows| && LoadTriggers(rows[..i], list, parse).Err?
    ensures LoadTriggers(rows, list, parse) == LoadTriggers(rows[..i], list, parse)
    decreases |rows| - i
  {
    if i < |rows| {
      var init := rows[..|rows| - 1];
      assert init[..i] == rows[..i];
      RejectionIsFinal(init, i, list, parse);
    } else {
      assert rows[..i] == rows;
    }
  }

  function SignalsOf(ts: seq<Trigger>): seq<Signal>
  {
    seq(|ts|, k requires 0 <= k < |ts| => ts[k].signal)
  }

  /** Every row the selection keeps comes from the table and fires; every
      firing row is kept; nothing is added. */
  lemma {:induction false} SelectedIsFilter(rows: seq<Signal>, list: seq<Automation>)
    ensures |Selected(rows, list)| <= |rows|
    ensures forall s :: s in Selected(rows, list) <==> s in rows && Fires(s, list)
    decreases |rows|
  {
    if |rows| > 0 {
      var init := rows[..|rows| - 1];
      SelectedIsFilter(init, list);
      assert rows == init + [rows[|rows| - 1]];
    }
  }

  /** A successful load yields one trigger per firing row, in table order:
      the signals of the triggers are exactly the selected rows, each paired
      with the first automation carrying its hash and with its parsed data. */
  lemma {:induction false} LoadedTriggersMatchRows(rows: seq<Signal>, list: seq<Automation>, parse: CronParser)
    requires LoadTriggers(rows, list, parse).Ok?
    ensures var ts := LoadTriggers(rows, list, parse).value;
      SignalsOf(ts) == Selected(rows, list) &&
      forall k :: 0 <= k < |ts| ==>
        ts[k].automation.hash == ts[k].signal.automationHash &&
        Some(ts[k].automation) == FindAutomation(list, ts[k].signal.automationHash) &&
        Some(ts[k].schedule) == parse(ts[k].signal.data)
    decreases |rows|
  {
    if |rows| > 0 {
      var init, last := rows[..|rows| - 1], rows[|rows| - 1];
      LoadedTriggersMatchRows(init, list, parse);
      var ts := LoadTriggers(init, list, parse).value;
      if Fires(last, list) {
        var t := LoadTriggers(rows, list, parse).value[|ts|];
        assert SignalsOf(ts + [t]) == SignalsOf(ts) + [t.signal];
      }
    }
  }

  /** The load rejects exactly when some firing row carries cron data that
      does not parse. */
  lemma {:induction false} LoadRejectsOnBadCronData(rows: seq<Signal>, list: seq<Automation>, parse: CronParser)
    ensures LoadTriggers(rows, list, parse).Err? <==>
      exists i :: 0 <= i < |rows| && Fires(rows[i], list) && parse(rows[i].data).None?
    decreases |rows|
  {
    if |rows| > 0 {
      var init := rows[..|rows| - 1];
      LoadRejectsOnBadCronData(init, list, parse);
      assert forall i :: 0 <= i < |init| ==> rows[i] == init[i];
    }
  }

  /** An orphan row or a row of another type than `'cron'` never shows up
      among the triggers. */
  lemma SkippedRowsYieldNothing(rows: seq<Signal>, list: seq<Automation>, parse: CronParser, s: Signal)
    requires LoadTriggers(rows, list, parse).Ok?
    requires FindAutomation(list, s.automationHash).None? || s.signalType != "cron"
    ensures forall t :: t in LoadTriggers(rows, list, parse).value ==> t.signal != s
  {
    var ts := LoadTriggers(rows, list, parse).value;
    LoadedTriggersMatchRows(rows, list, parse);
    SelectedIsFilter(rows, list);
    forall t | t in ts
      ensures t.signal != s
    {
      var k :| 0 <= k < |ts| && ts[k] == t;
      var sel := Selected(rows, list);
      assert sel[k] == SignalsOf(ts)[k] == t.signal;
      assert t.signal in sel;
      assert Fires(t.signal, list);
    }
  }

  /** `deleteFrom('signals').where('automationHash', '=', h)` for every `h`
      in `hashes`: the rows whose hash is not among them, in table order. */
  function Without(rows: seq<Signal>, hashes: set<string>): (r: seq<Signal>)
    ensures |r| <= |rows|
    decreases |rows|
  {
    if |rows| == 0 then []
    else
      var last := rows[|rows| - 1];
      Without(rows[..|rows| - 1], hashes) + (if last.automationHash in hashes then [] else [last])
  }

  /** The hashes of the orphan rows among `rows`: rows whose automation is
      not in `list`. */
  function OrphanHashes(rows: seq<Signal>, list: seq<Automation>): (r: set<string>)
    decreases |rows|
  {
    if |rows| == 0 then {}
    else
      var init, last := rows[..|rows| - 1], rows[|rows| - 1];
      OrphanHashes(init, list) + (if FindAutomation(list, last.automationHash).None? then {last.automationHash} else {})
  }

  /** A row survives the deletes exactly when its hash is not deleted. */
  lemma {:induction false} WithoutKeeps(rows: seq<Signal>, hashes: set<string>)
    ensures forall s :: s in Without(rows, hashes) <==> s in rows && s.automationHash !in hashes
    decreases |rows|
  {
    if |rows| > 0 {
      var init := rows[..|rows| - 1];
      WithoutKeeps(init, hashes);
      assert rows == init + [rows[|rows| - 1]];
    }
  }

  /** The orphan hashes are exactly the hashes of the rows no automation
      claims. */
  lemma {:induction false} OrphanHashesAreOrphans(rows: seq<Signal>, list: seq<Automation>)
    ensures forall h :: h in OrphanHashes(rows, list) ==> FindAutomation(list, h).None?
    ensures forall s :: s in rows && FindAutomation(list, s.automationHash).None? ==> s.automationHash in OrphanHashes(rows, list)
    decreases |rows|
  {
    if |rows| > 0 {
      var init := rows[..|rows| - 1];
      OrphanHashesAreOrphans(init, list);
      assert rows == init + [rows[|rows| - 1]];
    }
  }

  /** One more row read adds its hash when it is an orphan. */
  lemma OrphanHashesStep(rows: seq<Signal>, i: nat, list: seq<Automation>)
    requires i < |rows|
    ensures FindAutomation(list, rows[i].automationHash).None? ==>
      OrphanHashes(rows[..i + 1], list) == OrphanHashes(rows[..i], list) + {rows[i].automationHash}
    ensures FindAutomation(list, rows[i].automationHash).Some? ==>
      OrphanHashes(rows[..i + 1], list) == OrphanHashes(rows[..i], list)
  {
    assert rows[..i + 1][..i] == rows[..i];
  }

  /** The table after the deletes for the orphan rows among the first `i`
      rows read, and after row `i` too: one more delete if that row is an
      orphan, the same table otherwise. */
  lemma DeleteStep(rows: seq<Signal>, i: nat, list: seq<Automation>)
    requires i < |rows|
    ensures var h := rows[i].automationHash;
      var before := Without(rows, OrphanHashes(rows[..i], list));
      var after := Without(rows, OrphanHashes(rows[..i + 1], list));
      (FindAutomation(list, h).None? ==> after == Without(before, {h})) &&
      (FindAutomation(list, h).Some? ==> after == before)
  {
    OrphanHashesStep(rows, i, list);
    WithoutOneMore(rows, OrphanHashes(rows[..i], list), rows[i].automationHash);
  }

  /** The table once every orphan row has been deleted: exactly the rows
      whose automation is known survive. */
  function PruneOrphans(rows: seq<Signal>, list: seq<Automation>): (r: seq<Signal>)
    ensures forall s :: s in r <==> s in rows && FindAutomation(list, s.automationHash).Some?
  {
    WithoutKeeps(rows, OrphanHashes(rows, list));
    OrphanHashesAreOrphans(rows, list);
    Without(rows, OrphanHashes(rows, list))
  }

  /** Deleting one more hash is deleting the union. */
  lemma {:induction false} WithoutOneMore(rows: seq<Signal>, hashes: set<string>, h: string)
    ensures Without(Without(rows, hashes), {h}) == Without(rows, hashes + {h})
    decreases |rows|
  {
    if |rows| > 0 {
      var init, last := rows[..|rows| - 1], rows[|rows| - 1];
      WithoutOneMore(init, hashes, h);
      var w := Without(init, hashes);
      var tail := if last.automationHash in hashes + {h} then [] else [last];
      assert Without(rows, hashes + {h}) == Without(init, hashes + {h}) + tail;
      if last.automationHash in hashes {
        assert Without(rows, hashes) == w + [];
        assert w + [] == w;
      } else {
        var wl := w + [last];
        assert Without(rows, hashes) == wl;
        assert wl[..|wl| - 1] == w && wl[|wl| - 1] == last;
        assert Without(wl, {h}) == Without(w, {h}) + tail;
      }
    }
  }

  /** Deleting hashes no row carries changes nothing. */
  lemma {:induction false} WithoutNothing(rows: seq<Signal>, hashes: set<string>)
    requires forall i :: 0 <= i < |rows| ==> rows[i].automationHash !in hashes
    ensures Without(rows, hashes) == rows
    decreases |rows|
  {
    if |rows| > 0 {
      var init, last := rows[..|rows| - 1], rows[|rows| - 1];
      WithoutNothing(init, hashes);
      assert Without(rows, hashes) == init + [last];
      assert init + [last] == rows;
    }
  }

  /** Deleting rows whose hash no automation carries does not change what
      the load builds: such rows were skipped anyway. */
  lemma {:induction false} LoadIgnoresOrphanDeletes(rows: seq<Signal>, hashes: set<string>, list: seq<Automation>, parse: CronParser)
    requires forall h :: h in hashes ==> FindAutomation(list, h).None?
    ensures LoadTriggers(Without(rows, hashes), list, parse) == LoadTriggers(rows, list, parse)
    decreases |rows|
  {
    if |rows| > 0 {
      var init, last := rows[..|rows| - 1], rows[|rows| - 1];
      LoadIgnoresOrphanDeletes(init, hashes, list, parse);
      var w := Without(init, hashes);
      if last.automationHash in hashes {
        assert Without(rows, hashes) == w + [];
        assert w + [] == w;
        match LoadTriggers(init, list, parse)
        case Err(_) =>
        case Ok(ts) => assert LoadRow(ts, last, list, parse) == Ok(ts);
      } else {
        var wl := w + [last];
        assert Without(rows, hashes) == wl;
        assert wl[..|wl| - 1] == w && wl[|wl| - 1] == last;
      }
    }
  }

  /** Pruning keeps every trigger: the corrected load builds from the
      pruned table what it would have built from the whole table. */
  lemma PruningKeepsTriggers(rows: seq<Signal>, list: seq<Automation>, parse: CronParser)
    ensures LoadTriggers(PruneOrphans(rows, list), list, parse) == LoadTriggers(rows, list, parse)
  {
    OrphanHashesAreOrphans(rows, list);
    LoadIgnoresOrphanDeletes(rows, OrphanHashes(rows, list), list, parse);
  }

  /** A pruned table has no orphan rows, so pruning it again deletes
      nothing. */
  lemma PruneOrphansIdempotent(rows: seq<Signal>, list: seq<Automation>)
    ensures PruneOrphans(PruneOrphans(rows, list), list) == PruneOrphans(rows, list)
  {
    var p := PruneOrphans(rows, list);
    OrphanHashesAreOrphans(p, list);
    assert forall i :: 0 <= i < |p| ==> p[i] in p;
    WithoutNothing(p, OrphanHashes(p, list));
  }

  /** An orphan row: its automation file no longer exists. */
  const OrphanRow := Signal(1, "2025-03-23 00:00:00", "removed-automation", "cron", "{\"cron\":\"0 * * * *\"}")

  /** A live trigger: the load generation it belongs to, and the interval
      handle its cron scheduler registration holds. */
  datatype Subscription = Subscription(generation: nat, trigger: Trigger, handle: nat)

  function Handles(subs: seq<Subscription>): set<nat>
  {
    set k | 0 <= k < |subs| :: subs[k].handle
  }

  function TriggersOf(subs: seq<Subscription>): seq<Trigger>
  {
    seq(|subs|, k requires 0 <= k < |subs| => subs[k].trigger)
  }

  lemma HandlesAppend(subs: seq<Subscription>, s: Subscription)
    ensures Handles(subs + [s]) == Handles(subs) + {s.handle}
  {
    var all := subs + [s];
    assert all[|subs|].handle == s.handle;
    forall h | h in Handles(subs) ensures h in Handles(all) {
      var k :| 0 <= k < |subs| && subs[k].handle == h;
      assert all[k] == subs[k];
    }
  }

  /** With strictly increasing handles, dropping the first subscription
      drops exactly its handle. */
  lemma HandlesDropFirst(subs: seq<Subscription>)
    requires |subs| > 0
    requires forall i, j :: 0 <= i < j < |subs| ==> subs[i].handle < subs[j].handle
    ensures Handles(subs[1..]) == Handles(subs) - {subs[0].handle}
  {
    var rest := subs[1..];
    forall h | h in Handles(subs) - {subs[0].handle} ensures h in Handles(rest) {
      var k :| 0 <= k < |subs| && subs[k].handle == h;
      assert rest[k - 1] == subs[k];
    }
    forall h | h in Handles(rest) ensures h in Handles(subs) - {subs[0].handle} {
      var k :| 0 <= k < |rest| && rest[k].handle == h;
      assert subs[k + 1] == rest[k];
    }
  }

  class ServiceCore {
    /** The automations of the latest rescan (service-core.ts line 23). */
    var automationList: seq<Automation>
    const db: Database
    /** Reconciliations completed so far; each one starts a new signal load. */
    var generation: nat
    /** The generation whose load produced the live triggers. */
    var liveGeneration: nat
    var live: seq<Subscription>
    /** Interval handles currently registered with the cron scheduler. */
    var armed: set<nat>
    var nextHandle: nat
    /** The pipeline has errored; RxJS then tears down every subscription. */
    var failed: bool

    ghost predicate Valid()
      reads this
    {
      && liveGeneration <= generation
      && (forall k :: 0 <= k < |live| ==> live[k].generation == liveGeneration && live[k].handle < nextHandle)
      && (forall i, j :: 0 <= i < j < |live| ==> live[i].handle < live[j].handle)
      && armed == Handles(live)
      && (failed ==> live == [])
    }

    /** The constructor starts with an empty automation list (line 36) and
        nothing subscribed. */
    constructor(db: Database)
      ensures Valid() && this.db == db
      ensures automationList == [] && generation == 0 && live == [] && armed == {} && !failed
    {
      this.db := db;
      automationList := [];
      generation := 0;
      liveGeneration := 0;
      live := [];
      armed := {};
      nextHandle := 0;
      failed := false;
    }

    /** A rescan finished parsing: the list is replaced wholesale (lines 52-55). */
    method AutomationsParsed(parsed: seq<Automation>)
      requires Valid()
      modifies this`automationList
      ensures Valid() && automationList == parsed
    {
      automationList := parsed;
    }

    /** `rescheduleAutomations` resolved: the `switchMap` at line 73 abandons
        any load still pending and starts a new one, of the returned
        generation. */
    method ReconciliationCompleted() returns (g: nat)
      requires Valid()
      modifies this`generation
      ensures Valid() && generation == old(generation) + 1 && g == generation
    {
      generation := generation + 1;
      g := generation;
    }

    /** `observableForDatabaseSignals` (lines 103-141): reads every signal row
        and builds one cron trigger per firing row. The table is only read:
        the delete built for an orphan row (lines 120-122) is never executed,
        so the row is merely skipped. */
    method ObservableForDatabaseSignals(parse: CronParser) returns (r: Result<seq<Trigger>, LoadError>)
      ensures r == LoadTriggers(db.signals, automationList, parse)
    {
      var signals := db.signals;
      var observableList: seq<Trigger> := [];
      var i := 0;
      while i < |signals|
        invariant 0 <= i <= |signals|
        invariant LoadTriggers(signals[..i], automationList, parse) == Ok(observableList)
      {
        var signal := signals[i];
        assert signals[..i + 1][..i] == signals[..i];
        assert LoadTriggers(signals[..i + 1], automationList, parse) == LoadRow(observableList, signal, automationList, parse);
        var automation := FindAutomation(automationList, signal.automationHash);
        if automation.None? {
          i := i + 1;
          continue;
        }
        if signal.signalType == "cron" {
          var schedule := parse(signal.data);
          if schedule.None? {
            RejectionIsFinal(signals, i + 1, automationList, parse);
            return Err(MalformedCronData(signal.id));
          }
          observableList := observableList + [Trigger(signal, automation.value, schedule.value)];
        }
        i := i + 1;
      }
      assert signals[..i] == signals;
      return Ok(observableList);
    }

    /** `observableForDatabaseSignals` as evidently intended: the delete for
        an orphan row is executed, so every row whose automation is gone
        leaves the table. Deletion goes by hash and the loop walks the rows
        read at the start, so a load that rejects part-way has deleted the
        orphan hashes met before the failing row. */
    method ObservableForDatabaseSignalsDeletingOrphans(parse: CronParser) returns (r: Result<seq<Trigger>, LoadError>)
      modifies db`signals
      ensures r == LoadTriggers(old(db.signals), automationList, parse)
      ensures r.Ok? ==> db.signals == PruneOrphans(old(db.signals), automationList)
      ensures r.Err? ==>
        exists n :: 0 <= n <= |old(db.signals)| && db.signals == Without(old(db.signals), OrphanHashes(old(db.signals)[..n], automationList))
    {
      var signals := db.signals;
      var list := automationList;
      var observableList: seq<Trigger> := [];
      var i := 0;
      assert OrphanHashes(signals[..0], list) == {};
      WithoutNothing(signals, {});
      while i < |signals|
        invariant 0 <= i <= |signals|
        invariant LoadTriggers(signals[..i], list, parse) == Ok(observableList)
        invariant db.signals == Without(signals, OrphanHashes(signals[..i], list))
      {
        var signal := signals[i];
        assert signals[..i + 1][..i] == signals[..i];
        assert LoadTriggers(signals[..i + 1], list, parse) == LoadRow(observableList, signal, list, parse);
        DeleteStep(signals, i, list);
        var automation := FindAutomation(list, signal.automationHash);
        if automation.None? {
          db.signals := Without(db.signals, {signal.automationHash});
          i := i + 1;
          continue;
        }
        if signal.signalType == "cron" {
          var schedule := parse(signal.data);
          if schedule.None? {
            RejectionIsFinal(signals, i + 1, list, parse);
            assert db.signals == Without(signals, OrphanHashes(signals[..i + 1], list));
            return Err(MalformedCronData(signal.id));
          }
          observableList := observableList + [Trigger(signal, automation.value, schedule.value)];
        }
        i := i + 1;
      }
      assert signals[..i] == signals;
      return Ok(observableList);
    }

    /** Unsubscribes every live trigger; each teardown clears its own
        interval handle (line 150). */
    method TearDown()
      requires Valid()
      modifies this`live, this`armed
      ensures Valid() && live == [] && armed == {}
    {
      while |live| > 0
        invariant Valid()
        decreases |live|
      {
        HandlesDropFirst(live);
        armed := armed - {live[0].handle};
        live := live[1..];
      }
    }

    /** Subscribes one trigger per element of `ts`, in order, each on a
        fresh interval handle of the cron scheduler. */
    method SubscribeAll(ts: seq<Trigger>)
      requires Valid() && live == [] && armed == {} && !failed
      modifies this`live, this`armed, this`nextHandle
      ensures Valid() && TriggersOf(live) == ts
      ensures forall h :: h in armed ==> h >= old(nextHandle)
    {
      var base := nextHandle;
      var k := 0;
      while k < |ts|
        invariant 0 <= k <= |ts|
        invariant |live| == k && nextHandle == base + k
        invariant forall j :: 0 <= j < k ==> live[j] == Subscription(liveGeneration, ts[j], base + j)
        invariant armed == Handles(live)
      {
        var sub := Subscription(liveGeneration, ts[k], nextHandle);
        HandlesAppend(live, sub);
        live := live + [sub];
        armed := armed + {nextHandle};
        nextHandle := nextHandle + 1;
        k := k + 1;
      }
      assert TriggersOf(live) == ts;
    }

    /** A signal load of generation `g` completed. A load that is no longer
        the newest was abandoned by the `switchMap` and changes nothing. The
        newest one replaces every live trigger by the triggers it built, with
        fresh interval handles; if it rejected, the error ends the pipeline
        and nothing stays subscribed. As written, no load writes the signals
        table: the orphan delete is never executed. */
    method SignalsLoaded(g: nat, parse: CronParser)
      requires Valid()
      modifies this`live, this`armed, this`nextHandle, this`liveGeneration, this`failed
      ensures Valid() && db.signals == old(db.signals)
      ensures old(failed) || g != generation ==>
        live == old(live) && armed == old(armed) && failed == old(failed) &&
        liveGeneration == old(liveGeneration)
      ensures !old(failed) && g == generation && LoadTriggers(old(db.signals), automationList, parse).Err? ==>
        failed && live == [] && armed == {}
      ensures !old(failed) && g == generation && LoadTriggers(old(db.signals), automationList, parse).Ok? ==>
        !failed && liveGeneration == g &&
        TriggersOf(live) == LoadTriggers(old(db.signals), automationList, parse).value &&
        armed !! old(armed)
    {
      if failed || g != generation {
        return;
      }
      var r := ObservableForDatabaseSignals(parse);
      ghost var oldArmed := armed;
      assert forall h :: h in oldArmed ==> h < nextHandle;
      TearDown();
      if r.Err? {
        failed := true;
        return;
      }
      liveGeneration := g;
      SubscribeAll(r.value);
    }

    /** A tick of the cron scheduler on interval `handle`: it emits the
        trigger that owns the handle, and nothing once that handle has been
        cleared. */
    method Tick(handle: nat) returns (fired: Option<Trigger>)
      requires Valid()
      ensures fired.Some? <==> handle in armed
      ensures fired.Some? ==> (exists k :: 0 <= k < |live| && live[k].handle == handle &&
                                live[k].trigger == fired.value && live[k].generation == liveGeneration)
    {
      var k := 0;
      while k < |live|
        invariant 0 <= k <= |live|
        invariant forall j :: 0 <= j < k ==> live[j].handle != handle
      {
        if live[k].handle == handle {
          return Some(live[k].trigger);
        }
        k := k + 1;
      }
      return None;
    }
  }

  /** After a further reconciliation and its load, a tick on an interval
      handle of the previous generation emits nothing. */
  method RescanSilencesOldTriggers(core: ServiceCore, parse: CronParser, handle: nat) returns (fired: Option<Trigger>)
    requires core.Valid() && handle in core.armed
    modifies core
    ensures fired == None
  {
    var g := core.ReconciliationCompleted();
    core.SignalsLoaded(g, parse);
    fired := core.Tick(handle);
  }

  /** As written, loading a table whose only row is an orphan leaves that
      row in place: it is skipped, and stays behind after every load. */
  method OrphanRowSurvivesLoad(parse: CronParser) returns (remaining: seq<Signal>)
    ensures remaining == [OrphanRow]
    ensures PruneOrphans(remaining, []) == []
  {
    var db := new Database([OrphanRow], []);
    var core := new ServiceCore(db);
    var r := core.ObservableForDatabaseSignals(parse);
    remaining := db.signals;
    assert OrphanRow !in PruneOrphans(remaining, []);
  }

  /** With the delete executed, the same load leaves the table empty. */
  method OrphanRowDeletedByCorrectedLoad(parse: CronParser) returns (remaining: seq<Signal>)
    ensures remaining == []
  {
    var db := new Database([OrphanRow], []);
    var core := new ServiceCore(db);
    var r := core.ObservableForDatabaseSignalsDeletingOrphans(parse);
    assert LoadTriggers([OrphanRow], [], parse).Ok?;
    remaining := db.signals;
    assert OrphanRow !in remaining;
  }
}
