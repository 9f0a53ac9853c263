# newman-run orchestration core, modelled in Dafny

`lib/core.js` defines `NewmanConfig`, which runs a list of Postman
collections through the `newman` engine. This model covers its decision
layer:

- **Series strategy** (`looprun` with `series`). Each run's promise is
  reflected into a `{completed, status: "fulfilled"}` or
  `{errored, status: "rejected"}` record, one record per entry, in manifest
  order. The records are split into `success` and `failed`, and the batch
  fails when `failed` is non-empty.
- **Fire-and-forget strategy.** Each entry goes to `runCollection` or
  `runCollectionWithEnv`. Any run the engine reports as failing requests
  termination.
- **Engine configuration** (`runCollectionAsync`, `runCollectionWithEnv`,
  `runCollection`). This covers the loaded collection and environment, the
  reporter list, the report destinations named after the collection's
  basename, and the trimmed TLS client material.
- **Outcome classification** of the engine's callback. The order is
  transport error, then run-level error, then assertion failures. A failing
  run rejects its promise; the `resolve` that follows has no effect.
- **`get_relative_path`**, including its one-character check and
  two-character strip.
- **`removeDirectory`**. It unlinks every listed name except `.keep`. Each
  failed unlink requests a recursive delete of the directory's contents.

Modules:

- `JsText` covers the JavaScript string operations used: `startsWith`,
  clamped `substring`, `split("/")` and `trim`.
- `Foreign` holds the host: the working-directory base, `path.relative`,
  what `require` can load and what `fs.readFileSync` returns.
- `PathResolver`, `ExecutionAdapter`, `OutcomeAggregator`, `Scheduler` and
  `DirectoryReset` hold the specification functions and lemmas.
- `NewmanCore` holds the `NewmanConfig` class: its constructor-set settings
  and the three loops (series accumulation, fire-and-forget dispatch,
  directory reset), as methods proved against those functions.

Behaviour of the code that a reader of the call sites may not expect:

- `get_relative_path` agrees with the `./`-substitution rule (replace a
  leading `./` by the base) only on references that start with `./` or do
  not start with `.`. It checks for one `.` and drops two characters, so
  `../x` and `.env` are mangled (`PathResolver.TargetFollowsRuleIff`).
- The series call passes the entry's `sslClientKey` into the parameter named
  `sslClientCert`, and the reverse (`Scheduler.SeriesCrossesTlsMaterial`).
- An entry without an environment gets a configuration without one only in
  fire-and-forget mode. In series mode, `get_relative_path(undefined)` throws inside the promise executor, so the
  entry becomes a rejected record with no collection
  (`Scheduler.EntryWithoutEnvironmentIsRejected`). For the same reason the
  `environment !== void(0)` guard is always true once reached.
- An unreadable TLS file does not abort the invocation in series mode. The
  read happens inside the promise executor, so it rejects that one run only.
- The series path names reports after the collection as written. The other
  two paths name them after the resolved path.
- `data.environment == undefined` is also true for `null`, so an explicit
  `null` environment behaves like an absent one.

## Model

| member | source | states |
|---|---|---|
| JsText.Split | lib/core.js:75 | `split("/")` gives at least one segment, no segment holds a '/', and joining the segments with '/' gives back the string |
| JsText.LastSegmentIsBasename | lib/core.js:75-87 | the last split segment is the longest '/'-free suffix: a suffix of the string, either all of it or preceded by '/' |
| JsText.TrimIsCore | lib/core.js:95 | `trim()` keeps the contiguous piece after the leading whitespace, removes only whitespace and line terminators around it, and leaves none at either end |
| JsText.TrimIdempotent | lib/core.js:95-98 | trimming trimmed TLS text changes nothing |
| PathResolver.TargetFollowsRuleIff | lib/core.js:61-67 | the path handed to `path.relative` equals "base + reference with a leading './' replaced" exactly when the reference starts with "./" or does not start with '.' |
| PathResolver.DotReferenceLosesTwoCharacters | lib/core.js:62-63 | a reference starting with '.' loses its first two characters, whatever the second is, before the base is prepended |
| PathResolver.ExportsAreBasenamed | lib/core.js:79-89 | html is the html dir + basename + ".html", json is the json dir + basename + ".json", allure is the fixed directory; the basename is a '/'-free suffix of the split source |
| PathResolver.ExportsForPlainName | lib/core.js:75-87 | a collection given as a bare file name (no '/') has its html and json reports named after the whole name |
| PathResolver.ExportsCollideIff | lib/core.js:81-87 | two runs share their html (and json) report path exactly when their split sources share a basename |
| ExecutionAdapter.ReadTrimmed | lib/core.js:94-99 | a null TLS path sets nothing; a readable one yields a contiguous piece of the file's text, everything before and after it is whitespace or line terminators, and it neither starts nor ends with one; an unreadable one throws |
| ExecutionAdapter.AsyncRunConfig | lib/core.js:69-99 | the executor throws for an undefined environment; it builds a configuration exactly when environment, collection and any given TLS files load; that configuration holds the collection, the environment, the reporter list, reports named after the unresolved collection, and TLS fields exactly for the given paths, with trimmed contents |
| ExecutionAdapter.WithEnvRunConfig | lib/core.js:116-133 | `runCollectionWithEnv` configures collection and environment from their resolved paths, names reports after the resolved collection, carries no TLS material, and throws for an unloadable collection first |
| ExecutionAdapter.PlainRunConfig | lib/core.js:145-160 | `runCollection` builds a configuration without an environment key exactly when the resolved collection loads |
| ExecutionAdapter.ClassificationByPriority | lib/core.js:101-103 | a run fails exactly when a transport error, a run-level error or a non-empty failure list is present, and the reported error is the first present in that order |
| ExecutionAdapter.OnEngineDone | lib/core.js:100-108 | a failing run settles as rejected with `{collection, error}` only (the later resolve is ignored); a passing run settles as fulfilled with `{collection, config}` |
| ExecutionAdapter.RunCollectionAsync | lib/core.js:69-110 | the run's promise is fulfilled exactly when the configuration builds and the engine reports no error; a thrown configuration error rejects it with that error; an engine failure rejects it with the collection and the reported error |
| OutcomeAggregator.Reflect | lib/core.js:26 | every settled run, rejected or not, becomes a record whose status is "fulfilled" exactly when the run was fulfilled, and reading the record's value or reason back gives the settlement unchanged |
| OutcomeAggregator.ReflectRoundTrip | lib/core.js:26 | reading a record back as a settlement and reflecting that again gives the same record, so records and settlements correspond one to one |
| OutcomeAggregator.Filter | lib/core.js:30-31 | a filtered record is exactly a result with the requested status, and filtering never lengthens |
| OutcomeAggregator.FilterAppend | lib/core.js:30-31 | filtering preserves relative order: it distributes over concatenation |
| OutcomeAggregator.PartitionIsExact | lib/core.js:30-31 | `success` and `failed` together hold every result exactly once (as multisets) and their lengths add up to the number of results |
| OutcomeAggregator.BatchFailedIff | lib/core.js:45-47 | the batch fails exactly when some result is a rejected record |
| OutcomeAggregator.OnePassOneFailOnePass | lib/core.js:30-47 | with a rejected record between two fulfilled ones, `success` holds the two in order, `failed` the one, and the batch fails |
| Scheduler.SeriesResults | lib/core.js:27-28 | one record per manifest entry, the record at position i being entry i's reflected run |
| Scheduler.EntryWithoutEnvironmentIsRejected | lib/core.js:74 | in series mode an entry without an environment is rejected with the thrown error, whatever the engine would report |
| Scheduler.SeriesRecordFulfilledIff | lib/core.js:26-28 | an entry's record is fulfilled exactly when it has an environment, its files load and the engine reports no error; it then carries the entry's collection, an environment and reports named after the collection as written |
| Scheduler.SeriesCrossesTlsMaterial | lib/core.js:28 | the configuration's `sslClientCert` is set exactly when the entry gives a key path and holds that key file's trimmed text, and the other way round |
| Scheduler.SeriesRejectionCarriesReportedError | lib/core.js:101-104 | a rejection coming from the engine carries the entry's collection and the highest-priority error |
| Scheduler.SeriesBatchFailedIff | lib/core.js:28-47 | series mode signals failure exactly when some entry's record is rejected, and passed plus failed equals the number of entries |
| Scheduler.SecondOfThreeFails | lib/core.js:28-47 | of three configurable entries where the second reports one assertion failure, the first and third pass in order, the second fails with its failure list, and the batch fails |
| Scheduler.DispatchConfig | lib/core.js:51-57 | an entry without environment (undefined or null) gets a configuration without one, any other gets one; neither carries TLS material; reports are named after the resolved collection |
| Scheduler.FireAndForgetExitMatchesSeriesRejection | lib/core.js:135-138 | for a configurable entry, a fire-and-forget run requests termination exactly when its series record would be rejected |
| NewmanCore.NewmanConfig.constructor | lib/core.js:11-17 | the settings hold the resolved module directory, the reporters cli, json, html and allure, and the three report locations |
| NewmanCore.NewmanConfig.LoopRunSeries | lib/core.js:25-48 | the accumulated results are the series results of the run list, one per entry in order, and the batch fails exactly when one of them is rejected |
| NewmanCore.NewmanConfig.DispatchAll | lib/core.js:51-57 | entries are dispatched in order until the first whose configuration throws; every earlier entry is dispatched with its configuration, and no later one is |
| NewmanCore.NewmanConfig.RemoveDirectory | lib/core.js:169-191 | afterwards the directory holds its old names minus those listed, not `.keep` and successfully unlinked; one recursive-delete request of the directory's contents is issued per failed unlink |
| DirectoryReset.UnlinkedSparesSentinel | lib/core.js:176-177 | `.keep` is never unlinked, and every other listed name is unlinked exactly when its unlink does not fail |
| DirectoryReset.FallbackIff | lib/core.js:177-181 | the recursive delete is requested exactly when some listed name other than `.keep` fails to unlink |
| DirectoryReset.ResetLeavesOnlySentinel | lib/core.js:175-184 | when the listing is the directory's content and no unlink fails, only `.keep` is left (if it was there), no fallback is requested, and an empty directory stays empty |

## Left out

- The `newman` engine is not modelled. What it reports to the callback is an input (`EngineOutcome`), one per entry.
- Node.js and file-system calls are fields of a `Host` value rather than calls. This covers `require`, `fs.readFileSync` and `files.getCurrentDirectoryBase` (`lib/files` is not part of this model). `fs.realpathSync` and `path.dirname` in the constructor become its parameter `realDirectory`. `path.relative` is uninterpreted, and `path.join` in `removeDirectory` only names the file to unlink.
- Reading the manifest at the start of `looprun` is not modelled. That step resolves the manifest path, `require`s it and takes `runs`; the run list is a parameter instead.
- Console output is not modelled. This includes the passed/failed name lists, the verbose per-failure dump and `chalk` colouring. Only the batch-failure decision is kept.
- `process.exit` is not modelled as termination. Series mode returns a `batchFailed` flag. Fire-and-forget mode only states the condition under which a completed run requests exit (`ExecutionAdapter.IsError`).
- Promise timing is not modelled: `looprun` returning before the series chain settles, the race between a fire-and-forget exit and sibling runs, and the completion order of the asynchronous unlinks.
- The effect of the recursive delete (`rimraf`) is not modelled. Its glob behaviour is not visible, so each request is recorded with its pattern but the directory's names are not changed by it.
- The `readdir` error path and the `catch` block of `removeDirectory` are not modelled. The error is thrown inside a callback, outside the `try`, so it is an uncaught exception rather than a fallback. The `catch` only runs for a synchronous throw, which a string path does not cause.
- `clearResultsFolder` is not part of this model. It only calls `removeDirectory` on the three report directories.
- Error values are present or absent. A JavaScript error value that is present but falsy (an empty string, `0`) counts as absent in the source and cannot be expressed here.
- A callback with no `err` and no `summary` is not modelled. The source would throw a `TypeError` there.
- Manifest entries without a `collection` are not modelled.
- JsText.Substring: counts Unicode scalar values, while JavaScript's `substring` counts UTF-16 code units. For a reference like `.😀x`, the source keeps a lone low surrogate followed by `x`; the model keeps only `x`. The two agree on references whose first two characters lie in the Basic Multilingual Plane.
