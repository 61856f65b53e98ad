# ha-agentic-automation core, modelled in Dafny

This project models the sequential logic around the automation pipeline of
ha-agentic-automation, a Home Assistant add-on in which automations are plain
text files that a language model executes. It covers:

- **Trigger selection** (`ServiceCore.observableForDatabaseSignals`). The
  stored signal rows are walked in table order. Each row is paired with the
  first automation carrying its hash. Each `cron` row with a known automation
  becomes a trigger. If one such row's data does not parse, the whole load
  rejects and no row becomes a trigger.
- **Trigger rebuild rule.** Each completed reconciliation starts a new signal
  load. Only the newest load's triggers stay subscribed, and tearing a trigger
  down clears its interval handle. A generation counter stands for the
  `switchMap` that does this in the source.
- **Execution step** (`runExecutionForAutomation`). It re-reads the signal by
  id, builds the prompt, runs the model with the built-in tool servers, and
  appends one `execute-signal` log row.
- **Date formatting** (`dateToSqliteString`): six UTC fields become
  `YYYY-MM-DD HH:MM:SS`.
- **Provider selection and tool servers** (`createDefaultLLMProvider`,
  `createBuiltinServers`).
- **Migration registry** (`getMigrations`) and the two schema migrations.
  They run over a small model of a SQLite schema with tables, columns, rows
  and foreign keys.
- **Log page logic** (`filteredLogs`, `toggleExpanded`, the expansion rule).

Module by module:

- `Common`: `Option`, `Result` and a first-match `Find`.
- `Text`: decimal printing and parsing, `padStart`, `includes`, ASCII
  lower-casing, and string order.
- `Store`: the row types and a `Database` class holding the `signals` and
  `automationLogs` tables.
- `Service`: the `ServiceCore` class. Its fields are `automationList`, the
  generation counters, the live subscriptions and the armed interval handles.
  Its methods are loops proved against the function `LoadTriggers`.
- `ExecutionStep`: the prompt template as a list of lines. The language model
  is a function from the prompt and the tool servers to the full message list,
  or `None` when its stream errors. The current time is a parameter.
- `SqlSchema`: tables, the four DDL statements the migrations issue (each with
  SQLite's refusal conditions), and a `SchemaDb` class whose `Execute` takes
  effect or throws.
- `MigrationCreate` and `MigrationSignalTypeData`: `up` and `down` as
  sequences of awaited statements on a `SchemaDb`.
- `MigrationRegistry`: `getMigrations` and the order of the registered keys.
- `LogsPage`: the filter, a stable newest-first insertion sort, and a `Page`
  class holding the filters and the expanded indices.

The migration registry applies migrations in the name order of keys
`migration-0`, `migration-1`, and so on. That matches list order only while
there are at most ten entries: `MigrationRegistry.KeyTenSortsBeforeKeyTwo`
shows that `migration-10` sorts before `migration-2`. With the four
registered entries the orders agree (`RegisteredKeysSortInListOrder`).

The model follows the code as written:

- The debug text at server/workflow/service-core.ts:115-118 says an orphan
  signal is being deleted, but the delete is never executed (see Findings).
  The trigger pipeline (`SignalsLoaded`) therefore never writes the signals
  table. The corrected loader is modelled beside it.
- A rejected promise inside a `switchMap` errors the whole stream. The model
  represents this for the signal load with the `failed` flag of
  `ServiceCore`.

## Model

| member | source | states |
|---|---|---|
| Common.Find | server/workflow/service-core.ts:110-112 | `Array.find`: the result satisfies the predicate and no earlier element does; `None` exactly when no element does |
| Service.FindAutomation | server/workflow/service-core.ts:110-112 | the automation found carries the row's hash, `None` exactly when no automation has it, and when several share the hash the first in list order wins |
| Service.SelectedIsFilter | server/workflow/service-core.ts:109-137 | a row is selected exactly when its automation is known and its type is `cron`; at most one entry per row |
| Service.LoadedTriggersMatchRows | server/workflow/service-core.ts:107-137 | a successful load yields the selected rows in table order, one trigger each, each paired with the first automation carrying the row's hash and with the row's parsed cron data |
| Service.SkippedRowsYieldNothing | server/workflow/service-core.ts:114-137 | an orphan row or a row of a type other than `cron` never appears among the triggers |
| Service.LoadRejectsOnBadCronData | server/workflow/service-core.ts:127-137 | the load rejects exactly when some firing row carries cron data that does not parse |
| Service.RejectionIsFinal | server/workflow/service-core.ts:109-138 | once the rows read so far reject, the whole load rejects with the same error (the loop stops at the first throw) |
| Service.ServiceCore.ObservableForDatabaseSignals | server/workflow/service-core.ts:103-141 | the loop returns `LoadTriggers` of the table and the current `automationList`; it has no write frame, so the signals table is unchanged |
| Service.ServiceCore.constructor | server/workflow/service-core.ts:30-36 | the automation list starts empty and nothing is subscribed |
| Service.ServiceCore.AutomationsParsed | server/workflow/service-core.ts:52-55 | a rescan replaces `automationList` wholesale; later loads look rows up in the new list |
| Service.ServiceCore.ReconciliationCompleted | server/workflow/service-core.ts:72-74 | each completed reconciliation starts a newer load generation |
| Service.ServiceCore.TearDown | server/workflow/service-core.ts:144-152 | unsubscribing every live trigger clears every interval handle it armed |
| Service.ServiceCore.SubscribeAll | server/workflow/service-core.ts:133-151 | one subscription per trigger, in order, each on a fresh interval handle |
| Service.ServiceCore.SignalsLoaded | server/workflow/service-core.ts:72-74 | a stale load changes nothing; the newest load replaces every live trigger by the triggers it built, on handles disjoint from the old ones; a rejecting load leaves nothing subscribed; no load writes the signals table, stale or newest, as the orphan delete is never executed |
| Service.ServiceCore.Tick | server/workflow/service-core.ts:144-151 | a scheduler tick emits exactly when its handle is armed, and then the trigger of the current generation that owns it |
| Service.RescanSilencesOldTriggers | server/workflow/service-core.ts:72-74 | after a further reconciliation and its load, a handle of the previous generation emits nothing |
| Service.OrphanRowSurvivesLoad | server/workflow/service-core.ts:120-122 | as written, a table holding one orphan row still holds it after the load, although pruning would remove it |
| Service.Without | server/workflow/service-core.ts:120-122 | `deleteFrom('signals').where('automationHash', '=', h)` never adds rows |
| Service.WithoutKeeps | server/workflow/service-core.ts:120-122 | a row survives the deletes exactly when its hash is not deleted |
| Service.WithoutOneMore | server/workflow/service-core.ts:120-122 | deleting by one more hash is deleting by the union |
| Service.WithoutNothing | server/workflow/service-core.ts:120-122 | deleting hashes no row carries leaves the table as it was |
| Service.OrphanHashesAreOrphans | server/workflow/service-core.ts:110-122 | the hashes deleted are exactly the hashes of rows no automation claims |
| Service.PruneOrphans | server/workflow/service-core.ts:114-125 | after the orphan deletes, exactly the rows whose automation is known remain |
| Service.ServiceCore.ObservableForDatabaseSignalsDeletingOrphans | server/workflow/service-core.ts:103-141 | the corrected loop returns the same triggers as written and, when it completes, leaves exactly the non-orphan rows in the table |
| Service.OrphanRowDeletedByCorrectedLoad | server/workflow/service-core.ts:120-122 | with the delete executed, the single orphan row is gone after the load |
| Service.LoadIgnoresOrphanDeletes | server/workflow/service-core.ts:114-125 | deleting orphan rows does not change what the load builds |
| Service.PruningKeepsTriggers | server/workflow/service-core.ts:103-141 | the load over the pruned table builds the same triggers as over the whole table |
| Service.PruneOrphansIdempotent | server/workflow/service-core.ts:120-122 | a pruned table has no orphans, so pruning again deletes nothing |
| ExecutionStep.SignalById | server/workflow/execution-step.ts:15-19 | `executeTakeFirst`: the row found has the requested id and no earlier row has it; `None` exactly when no row has it |
| ExecutionStep.SignalByIdIsTheRow | server/migrations/20250323-create.ts:6-8 | with `id` as the primary key of `signals`, the lookup returns the one row carrying that id |
| ExecutionStep.ExecutionUsesTheRow | server/workflow/execution-step.ts:15-33 | with `id` as the primary key, the prompt is built from the type and data of the one row carrying the requested id |
| ExecutionStep.Execution | server/workflow/execution-step.ts:8-43 | not found exactly when no row has the id; otherwise the prompt is built from a stored row with that id; the model fails exactly when its stream errors; on success one `execute-signal` row with the signal id, no automation hash and the complete message list |
| ExecutionStep.RowsWritten | server/workflow/execution-step.ts:35-42 | one row on success, none when the signal is missing or the model fails |
| ExecutionStep.RunExecutionForAutomation | server/workflow/execution-step.ts:8-43 | the method's outcome is `Execution` of the stored rows; the log gains exactly the rows written and the signals table is only read |
| ExecutionStep.ExecutionOnlyAppends | server/workflow/execution-step.ts:35-42 | earlier log rows are kept; any new row is an `execute-signal` row for this signal with no automation hash |
| ExecutionStep.LinesAppend | server/workflow/execution-step.ts:45-90 | the text of two blocks of template lines is the text of the first followed by the second |
| ExecutionStep.LinesIncludeRun | server/workflow/execution-step.ts:45-90 | any run of consecutive template lines occurs in the whole template text |
| ExecutionStep.ContextEmbedsInputs | server/workflow/execution-step.ts:54-62 | the time, trigger type, trigger data and automation text each sit in their own tag, on their own lines |
| ExecutionStep.PromptEmbedsItsInputs | server/workflow/execution-step.ts:29-62 | the prompt carries the signal's type in `<trigger_reason>`, its data in `<trigger_details>`, the automation contents in `<automation>` and the time in `<current_datetime>` |
| DateUtils.DateToSqliteString | server/lib/date-utils.ts:42-50 | the text starts with the year's digits and has exactly fifteen characters after them |
| DateUtils.Layout | server/lib/date-utils.ts:43-49 | the year comes first and is unpadded, then `-`, month + 1, `-`, day, space, hours, `:`, minutes, `:`, seconds, each field two digits reading back as its value |
| DateUtils.Pad2Reads | server/lib/date-utils.ts:44-48 | a padded field below 100 is two digits that read back as the number |
| DateUtils.SqliteStringRoundTrip | server/lib/date-utils.ts:42-50 | splitting the output at its separators recovers the six UTC fields |
| DateUtils.FourDigitYearLayout | server/lib/date-utils.ts:49 | for years 1000..9999 the text has 19 characters, `-` at 4 and 7, a space at 10, `:` at 13 and 16, digits elsewhere |
| Text.NatToString | server/lib/date-utils.ts:43-48 | `toString()` of a natural number is digits only, with no leading zero |
| Text.ParseNatToString | server/lib/date-utils.ts:43-48 | the digits printed read back as the number |
| Text.NatToStringFourDigits | server/lib/date-utils.ts:43 | a year from 1000 to 9999 prints as four digits |
| Text.IntToStringRoundTrip | server/lib/date-utils.ts:43 | a year, negative ones included, prints unpadded and reads back |
| Text.PadStart | server/lib/date-utils.ts:44-48 | `padStart(n, c)` keeps the text at its end and fills the front up to `n` characters |
| Text.PadStartTwoDigits | server/lib/date-utils.ts:44-48 | `toString().padStart(2, '0')` of a number below 100 is two digits, with a leading zero below 10 |
| Llm.CreateDefaultLLMProvider | server/llm.ts:24-43 | Anthropic with its key when that key is truthy; otherwise OpenAI when its key is truthy; otherwise Ollama with its host; otherwise the error; an empty variable counts as unset |
| Llm.ProviderIsFirstConfigured | server/llm.ts:27-40 | the choice is the first configured candidate in the order Anthropic, OpenAI, Ollama |
| Llm.CreateBuiltinServers | server/llm.ts:45-56 | exactly two servers, notify first and Home Assistant second; test mode only when explicitly requested |
| MigrationRegistry.KeysDistinct | server/migrations/this-sucks.ts:15 | different positions get different `migration-i` keys |
| MigrationRegistry.GetMigrationsLookup | server/migrations/this-sucks.ts:15 | the i-th module is stored under `migration-i` |
| MigrationRegistry.GetMigrationsKeys | server/migrations/this-sucks.ts:15 | every key is the key of some position |
| MigrationRegistry.GetMigrationsEntries | server/migrations/this-sucks.ts:11-16 | exactly one entry per module: count, lookup and keys together |
| MigrationRegistry.RegisteredMigrations | server/migrations/this-sucks.ts:6-15 | the registry holds m1 to m4 under `migration-0` to `migration-3` |
| MigrationRegistry.RegisteredInDateOrder | server/migrations/this-sucks.ts:6-11 | the list order matches the date order of the imported file names |
| MigrationRegistry.LexLessCommonPrefix | server/migrations/this-sucks.ts:15 | the shared `migration-` prefix does not affect how two keys compare |
| MigrationRegistry.KeysSortInListOrder | server/migrations/this-sucks.ts:15 | below ten, key name order is position order |
| MigrationRegistry.RegisteredKeysSortInListOrder | server/migrations/this-sucks.ts:11-15 | for the four registered entries, key name order equals list order |
| MigrationRegistry.KeyTenSortsBeforeKeyTwo | server/migrations/this-sucks.ts:15 | an eleventh entry would sort before the third |
| SqlSchema.Apply | server/migrations/20250323-create.ts:5-27 | a statement leaves other tables alone; create succeeds exactly when the table is absent, drop exactly when it is present; a table altered or created is present afterwards |
| SqlSchema.SchemaDb.Execute | server/migrations/20250323-create.ts:6-11 | an awaited statement either takes effect or throws and leaves the schema unchanged |
| SqlSchema.RunTwo | server/migrations/20250323-create.ts:5-27 | two awaited statements in turn stop at the first that throws |
| SqlSchema.RemoveColumn | server/migrations/20250331-add-signal-type-data.ts:17-21 | dropping a column never lengthens the column list |
| SqlSchema.RemoveColumnKeeps | server/migrations/20250331-add-signal-type-data.ts:17-21 | a column drop keeps exactly the columns of other names, and is a no-op when no column has the name |
| MigrationCreate.Up | server/migrations/20250323-create.ts:5-22 | the schema and the error after `up` are those of running its two statements in turn |
| MigrationCreate.Down | server/migrations/20250323-create.ts:24-27 | the same for `down` |
| MigrationCreate.UpSucceedsIffTablesAbsent | server/migrations/20250323-create.ts:5-22 | `up` succeeds exactly when neither table exists, and then adds both tables with their columns in order |
| MigrationCreate.ReferencedTableCreatedFirst | server/migrations/20250323-create.ts:6-19 | `signals` is created first, so the table and column `signalId` references exist when `automationLogs` is created |
| MigrationCreate.UpKeepsReferencesResolving | server/migrations/20250323-create.ts:5-22 | a schema whose foreign keys resolve still does after `up` |
| MigrationCreate.DownUndoesUp | server/migrations/20250323-create.ts:5-27 | `down` after a successful `up` restores the previous table set |
| MigrationCreate.DownNeverDangles | server/migrations/20250323-create.ts:24-27 | every schema `down` passes through has resolving foreign keys |
| MigrationCreate.DroppingSignalsFirstDangles | server/migrations/20250323-create.ts:24-27 | the opposite drop order would leave `signalId` dangling |
| MigrationSignalTypeData.Up | server/migrations/20250331-add-signal-type-data.ts:5-15 | the schema and the error after `up` are those of running its two statements in turn |
| MigrationSignalTypeData.Down | server/migrations/20250331-add-signal-type-data.ts:17-21 | the same for `down` |
| MigrationSignalTypeData.UpSucceedsIffColumnsAbsent | server/migrations/20250331-add-signal-type-data.ts:5-15 | `up` succeeds exactly when `signals` exists without either column, and then appends `type` and `data` in that order |
| MigrationSignalTypeData.ExistingRowsTakeDefaults | server/migrations/20250331-add-signal-type-data.ts:8-13 | rows already in `signals` read `type = 'cron'` and `data = ''` afterwards and keep their other values |
| MigrationSignalTypeData.UpKeepsWellFormed | server/migrations/20250331-add-signal-type-data.ts:5-15 | distinct column names and one value per column in every row are preserved |
| MigrationSignalTypeData.DropsAllowed | server/migrations/20250331-add-signal-type-data.ts:17-21 | neither drop of `down` is refused after `up` |
| MigrationSignalTypeData.DropsRestoreColumns | server/migrations/20250331-add-signal-type-data.ts:17-21 | dropping `data` and then `type` gives back the original column list |
| MigrationSignalTypeData.DropsRestoreRows | server/migrations/20250331-add-signal-type-data.ts:17-21 | dropping both columns gives back the original rows |
| MigrationSignalTypeData.DropDataAfterUp | server/migrations/20250331-add-signal-type-data.ts:18 | the first statement of `down` removes `data` |
| MigrationSignalTypeData.DropTypeAfterData | server/migrations/20250331-add-signal-type-data.ts:20 | the second statement of `down` removes `type` and gives back the schema |
| MigrationSignalTypeData.DownUndoesUp | server/migrations/20250331-add-signal-type-data.ts:5-21 | `down` after a successful `up` restores `signals` (columns and rows) and touches no other table |
| LogsPage.Kept | site/pages/logs.tsx:70-85 | filtering never lengthens the list |
| LogsPage.KeptCounts | site/pages/logs.tsx:70-85 | each fetched log is kept, as often as it was fetched, exactly when the search and type filters both accept it |
| LogsPage.NoFilterKeepsAll | site/pages/logs.tsx:73-82 | with empty search text and 'All Types' every log is kept, in order |
| LogsPage.Insert | site/pages/logs.tsx:86-90 | inserting adds exactly one entry |
| LogsPage.InsertPermutes | site/pages/logs.tsx:86-90 | inserting adds the entry and loses nothing |
| LogsPage.InsertKeepsOrder | site/pages/logs.tsx:86-90 | inserting into a newest-first list keeps it newest-first |
| LogsPage.InsertStable | site/pages/logs.tsx:86-90 | the inserted entry goes before the entries of its own second and keeps their order |
| LogsPage.SortNewestFirst | site/pages/logs.tsx:86-90 | sorting keeps the length |
| LogsPage.SortSortsAndPermutes | site/pages/logs.tsx:86-90 | the sort is a permutation and puts newer entries first |
| LogsPage.SortIsStable | site/pages/logs.tsx:86-90 | entries of the same second keep their order |
| LogsPage.FilteredLogsSpec | site/pages/logs.tsx:69-91 | the shown list is newest first, holds each kept log as often as it was fetched and nothing else, and keeps the fetched order within a second |
| LogsPage.NoFilterShowsAll | site/pages/logs.tsx:73-91 | with no filter every fetched log is shown, newest first |
| LogsPage.IncludesToLower | site/pages/logs.tsx:74-76 | a substring stays a substring after both texts are lower-cased |
| LogsPage.SearchIgnoresCase | site/pages/logs.tsx:73-76 | a log containing the search text as typed matches, and so does any search with the same lower-case form |
| LogsPage.Toggled | site/pages/logs.tsx:55-65 | the toggled set flips membership of the id and of nothing else |
| LogsPage.ToggleTwice | site/pages/logs.tsx:55-65 | toggling the same id twice restores the set |
| LogsPage.Page.constructor | site/pages/logs.tsx:34-37 | no search text, 'All Types', no logs and nothing expanded |
| LogsPage.Page.ToggleExpanded | site/pages/logs.tsx:55-65 | the set becomes the toggled copy; only the entry at that index changes expansion, and it changes unless it is the only entry shown |
| LogsPage.Page.ResetFilters | site/pages/logs.tsx:127-135 | clears both filters, after which every fetched log is shown, newest first |

## Left out

- The RxJS pipeline: `merge`, `share`, `defer`, the real timing of `switchMap`, the debounced directory monitor and `start()`. Only the abstract rule "the newest load wins" is kept, as a generation counter.
- Cron parsing and scheduling (`parseCronExpression`, `TimerBasedCronScheduler`): foreign library and real time. A parser is a parameter, and a scheduler interval is a numbered handle.
- `JSON.parse` and `JSON.stringify`: signal data is text handed to the cron parser, and `messageLog` holds the message list itself. Serialisation is one to one.
- `parseAllAutomations` and `rescheduleAutomations`: their bodies are not part of this model. Their results are inputs (`AutomationsParsed`, `ReconciliationCompleted`).
- LLM providers, MCP servers and `connectServersToClient`: network and transport I/O. A provider is a tag, a server is a tag, and the model run is a function parameter.
- `new Date().toISOString()` in the prompt and the `Date` getters in `dateToSqliteString`: the time text and the six UTC fields are parameters.
- `formatDateForLLM`: it depends on `Intl` time-zone data. `parseISO8601` and `dateToISO8601` are one-line wrappers over `Date`.
- Migrations 20250405-add-service-log and 20250408-add-query-indexes are not part of this model. They appear only as two entries of the registry.
- Kysely's migrator (its lock, transaction, and the bookkeeping table of applied migrations) and all query-builder internals. The migrator's name-order sorting is stated as a property of the keys.
- SQLite's further `DROP COLUMN` restrictions (indexed, unique, or referenced by a foreign key or view) and column types beyond the three used: no migration here meets them.
- The store-assigned `id` and the `createdAt` of a log row.
- All React rendering of the log page: the hooks, the websocket fetch, the luxon formatting and the entry markup. `createdAt` is given as whole Unix seconds, and the serialised log text is given.
- Signal types other than `cron`: the switch at server/workflow/service-core.ts:127-137 builds triggers only for `cron`, and the model skips every other type as it does.
- A failed execution after a trigger fires: the outcome is modelled (`ModelFailed`, `SignalNotFound`), but not the way the thrown error then ends the whole pipeline.
- ExecutionStep.Execution: states that no row is written and no prompt exists when the signal is missing, but does not state "the model is never called", because a call to a pure function is not observable.
- LogsPage.MatchesSearch: `toLowerCase` is modelled on ASCII letters only. Unicode case mapping is not modelled.
- Service.ServiceCore.ObservableForDatabaseSignalsDeletingOrphans: the corrected loader is a stand-alone member. No pipeline step uses it, because the pipeline as written never deletes.
- DateUtils.DateToSqliteString: an Invalid Date, for which every getter returns NaN and the text reads `NaN-NaN-NaN NaN:NaN:NaN`, is not modelled. The six fields are integers within their UTC ranges.
- LogsPage.SortNewestFirst: a log whose `createdAt` is NULL or does not parse as ISO text makes the comparator return NaN, and the order `sort` then produces is unspecified. The `execute-signal` insert at server/workflow/execution-step.ts:35-42 sets no `createdAt`, so such rows can occur. The model takes every `createdAt` as whole Unix seconds and does not cover them.

## Findings

| source | as written | input that shows it | evidently intended | confidence | as-written member | corrected member |
|---|---|---|---|---|---|---|
| server/workflow/service-core.ts:120-122 | the `deleteFrom('signals').where(...)` query is built but never executed, so an orphan row is only skipped and stays in the table | a table whose only row has an `automationHash` that no automation carries, with an empty automation list | execute the delete, so every signal row whose automation is gone leaves the table | high, not executed | Service.OrphanRowSurvivesLoad | Service.ServiceCore.ObservableForDatabaseSignalsDeletingOrphans |
