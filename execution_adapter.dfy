/** One run of the external engine: the configuration built for it by
    `runCollectionAsync`, `runCollectionWithEnv` and `runCollection`, and the
    classification of the engine's completion callback. */
module ExecutionAdapter {
  import opened Wrappers
  import opened JsText
  import opened Foreign
  import opened PathResolver

  /** A definition loaded by `require`, standing for the module at that path. */
  datatype Definition = Definition(path: string)

  /** The configuration object handed to `newman.run`. An absent `environment`,
      `sslClientCert` or `sslClientKey` key is `None`. */
  datatype EngineConfig = EngineConfig(
    collection: Definition,
    environment: Option<Definition>,
    reporters: seq<string>,
    exports: Exports,
    sslClientCert: Option<string>,
    sslClientKey: Option<string>)

  /** What can be thrown while a configuration is being built. */
  datatype Thrown =
    | EnvironmentUndefined         // `get_relative_path(undefined)`: no `startsWith` on undefined
    | ModuleNotFound(path: string) // `require(path)`
    | FileUnreadable(path: string) // `fs.readFileSync(path, 'utf8')`

  /** `require(path)`. */
  function Require(host: Host, path: string): (r: Result<Definition, Thrown>)
    ensures r.Success? <==> path in host.modules
    ensures r.Success? ==> r.value == Definition(path)
    ensures r.Failure? ==> r.error == ModuleNotFound(path)
  {
    if path in host.modules then Success(Definition(path)) else Failure(ModuleNotFound(path))
  }

  /** `if (path !== null) config.field = fs.readFileSync(path, 'utf8')?.trim()`:
      nothing to read for a null path; for a readable file, the piece of its
      text left after dropping the whitespace and line terminators at both
      ends; for an unreadable one, the read's exception. */
  function ReadTrimmed(host: Host, path: Option<string>): (r: Result<Option<string>, Thrown>)
    ensures path.None? ==> r == Success(None)
    ensures path.Some? && path.value in host.textFiles ==>
      && r.Success? && r.value.Some?
      && var text, field, i := host.textFiles[path.value], r.value.value, LeadingTrimmable(host.textFiles[path.value]);
         && i + |field| <= |text| && field == text[i..i + |field|]
         && (forall k :: 0 <= k < i ==> IsTrimmable(text[k]))
         && (forall k :: i + |field| <= k < |text| ==> IsTrimmable(text[k]))
         && (field == [] || (!IsTrimmable(field[0]) && !IsTrimmable(field[|field| - 1])))
    ensures path.Some? && path.value !in host.textFiles ==> r == Failure(FileUnreadable(path.value))
  {
    match path
    case None => Success(None)
    case Some(p) =>
      if p in host.textFiles then
        TrimIsCore(host.textFiles[p]);
        Success(Some(Trim(host.textFiles[p])))
      else Failure(FileUnreadable(p))
  }

  /** The executor of `runCollectionAsync(collection, environment,
      sslClientCert, sslClientKey)` up to `newman.run`. The file name comes
      from the collection AS GIVEN, not from its resolved path. The guard
      `environment !== void(0)` is always true once `get_relative_path` has
      returned, so a configuration built here always holds an environment. */
  function AsyncRunConfig(currentPath: string, host: Host, collection: string,
                          environment: Option<string>,
                          sslClientCert: Option<string>, sslClientKey: Option<string>)
    : (r: Result<EngineConfig, Thrown>)
    ensures environment.None? ==> r == Failure(EnvironmentUndefined)
    ensures r.Success? <==>
      && environment.Some?
      && GetRelativePath(currentPath, host, collection) in host.modules
      && GetRelativePath(currentPath, host, environment.value) in host.modules
      && (sslClientCert.Some? ==> sslClientCert.value in host.textFiles)
      && (sslClientKey.Some? ==> sslClientKey.value in host.textFiles)
    ensures r.Success? ==>
      && r.value.collection == Definition(GetRelativePath(currentPath, host, collection))
      && r.value.environment == Some(Definition(GetRelativePath(currentPath, host, environment.value)))
      && r.value.reporters == ReportersList
      && r.value.exports == ExportsFor(collection)
      && (r.value.sslClientCert.Some? <==> sslClientCert.Some?)
      && (r.value.sslClientKey.Some? <==> sslClientKey.Some?)
      && (sslClientCert.Some? ==> r.value.sslClientCert.value == Trim(host.textFiles[sslClientCert.value]))
      && (sslClientKey.Some? ==> r.value.sslClientKey.value == Trim(host.textFiles[sslClientKey.value]))
  {
    var resolvedCollection := GetRelativePath(currentPath, host, collection);
    if environment.None? then Failure(EnvironmentUndefined)
    else
      var resolvedEnvironment := GetRelativePath(currentPath, host, environment.value);
      var definition :- Require(host, resolvedCollection);
      var environmentDefinition :- Require(host, resolvedEnvironment);
      var cert :- ReadTrimmed(host, sslClientCert);
      var key :- ReadTrimmed(host, sslClientKey);
      Success(EngineConfig(definition, Some(environmentDefinition), ReportersList,
                           ExportsFor(collection), cert, key))
  }

  /** The configuration `runCollectionWithEnv` passes to the engine: both
      paths resolved, the file name taken from the RESOLVED collection path,
      no TLS material. */
  function WithEnvRunConfig(currentPath: string, host: Host, collection: string, environment: string)
    : (r: Result<EngineConfig, Thrown>)
    ensures var resolved := GetRelativePath(currentPath, host, collection);
      var resolvedEnvironment := GetRelativePath(currentPath, host, environment);
      && (r.Success? <==> resolved in host.modules && resolvedEnvironment in host.modules)
      && (resolved !in host.modules ==> r == Failure(ModuleNotFound(resolved)))
      && (r.Success? ==> r.value == EngineConfig(Definition(resolved), Some(Definition(resolvedEnvironment)),
                                                 ReportersList, ExportsFor(resolved), None, None))
  {
    var resolved := GetRelativePath(currentPath, host, collection);
    var resolvedEnvironment := GetRelativePath(currentPath, host, environment);
    var definition :- Require(host, resolved);
    var environmentDefinition :- Require(host, resolvedEnvironment);
    Success(EngineConfig(definition, Some(environmentDefinition), ReportersList,
                         ExportsFor(resolved), None, None))
  }

  /** The configuration `runCollection` passes to the engine: like
      `runCollectionWithEnv` but with no `environment` key at all. */
  function PlainRunConfig(currentPath: string, host: Host, collection: string)
    : (r: Result<EngineConfig, Thrown>)
    ensures var resolved := GetRelativePath(currentPath, host, collection);
      && (r.Success? <==> resolved in host.modules)
      && (r.Failure? ==> r.error == ModuleNotFound(resolved))
      && (r.Success? ==> r.value == EngineConfig(Definition(resolved), None, ReportersList,
                                                 ExportsFor(resolved), None, None))
  {
    var resolved := GetRelativePath(currentPath, host, collection);
    var definition :- Require(host, resolved);
    Success(EngineConfig(definition, None, ReportersList, ExportsFor(resolved), None, None))
  }

  // ---------------------------------------------------------------------------
  // The engine's completion callback

  /** What `newman.run` reports to its callback: a transport error, the
      summary's run-level error and the summary's assertion failures. */
  datatype EngineOutcome = EngineOutcome(err: Option<string>, runError: Option<string>, failures: seq<string>)

  /** The error a failed run is reported with. */
  datatype RunError =
    | TransportError(error: string)
    | RunLevelError(error: string)
    | AssertionFailures(failures: seq<string>)

  /** `err || summary.run.error || summary.run.failures.length`. */
  predicate IsError(o: EngineOutcome)
  {
    o.err.Some? || o.runError.Some? || |o.failures| > 0
  }

  /** `err || summary.run.error || summary.run.failures`, on a failed run. */
  function ReportedError(o: EngineOutcome): RunError
    requires IsError(o)
  {
    if o.err.Some? then TransportError(o.err.value)
    else if o.runError.Some? then RunLevelError(o.runError.value)
    else AssertionFailures(o.failures)
  }

  /** Every error the outcome carries, highest priority first. */
  function PresentErrors(o: EngineOutcome): seq<RunError>
  {
    (if o.err.Some? then [TransportError(o.err.value)] else []) +
    (if o.runError.Some? then [RunLevelError(o.runError.value)] else []) +
    (if |o.failures| > 0 then [AssertionFailures(o.failures)] else [])
  }

  /** A run fails exactly when some error is present, and the error reported
      is the first present one in the order transport error, run-level error,
      assertion failures. */
  lemma ClassificationByPriority(o: EngineOutcome)
    ensures IsError(o) <==> PresentErrors(o) != []
    ensures IsError(o) ==> ReportedError(o) == PresentErrors(o)[0]
  {
  }

  /** The value a passing run fulfils its promise with: `{collection, config}`. */
  datatype Completion = Completion(collection: string, config: EngineConfig)
  /** The reason a run's promise is rejected with: `{collection, error}` from
      the callback, or whatever the executor threw. */
  datatype Rejection =
    | RunFailed(collection: string, error: RunError)
    | ExecutorThrew(thrown: Thrown)
  /** A settled promise. */
  datatype Settled = Fulfilled(completed: Completion) | Rejected(errored: Rejection)

  /** Settling a promise: the first settlement sticks, later ones are ignored. */
  function SettleOnce(state: Option<Settled>, attempt: Settled): Option<Settled>
  {
    if state.Some? then state else Some(attempt)
  }

  /** The callback of `runCollectionAsync`: on a failure it rejects with
      `{collection, error}` and then still calls `resolve`, which no longer
      has any effect, so a failed run is rejected only; a passing run is
      fulfilled with `{collection, config}`. */
  function OnEngineDone(collection: string, config: EngineConfig, o: EngineOutcome): (s: Settled)
    ensures s.Rejected? <==> IsError(o)
    ensures IsError(o) ==> s == Rejected(RunFailed(collection, ReportedError(o)))
    ensures !IsError(o) ==> s == Fulfilled(Completion(collection, config))
  {
    var pending: Option<Settled> := None;
    var afterReject := if IsError(o) then SettleOnce(pending, Rejected(RunFailed(collection, ReportedError(o))))
                       else pending;
    var afterResolve := SettleOnce(afterReject, Fulfilled(Completion(collection, config)));
    afterResolve.value
  }

  /** The promise `runCollectionAsync(collection, environment, sslClientCert,
      sslClientKey)` returns, given what the engine would report: anything
      thrown while building the configuration rejects it, otherwise the
      callback settles it. */
  function RunCollectionAsync(currentPath: string, host: Host, collection: string,
                              environment: Option<string>,
                              sslClientCert: Option<string>, sslClientKey: Option<string>,
                              outcome: EngineOutcome): (s: Settled)
    ensures s.Fulfilled? <==>
      AsyncRunConfig(currentPath, host, collection, environment, sslClientCert, sslClientKey).Success? &&
      !IsError(outcome)
    ensures s.Fulfilled? ==>
      && s.completed.collection == collection
      && Success(s.completed.config) == AsyncRunConfig(currentPath, host, collection, environment, sslClientCert, sslClientKey)
    ensures AsyncRunConfig(currentPath, host, collection, environment, sslClientCert, sslClientKey).Failure? ==>
      s == Rejected(ExecutorThrew(AsyncRunConfig(currentPath, host, collection, environment, sslClientCert, sslClientKey).error))
    ensures AsyncRunConfig(currentPath, host, collection, environment, sslClientCert, sslClientKey).Success? && IsError(outcome) ==>
      s == Rejected(RunFailed(collection, ReportedError(outcome)))
    ensures environment.None? ==> s == Rejected(ExecutorThrew(EnvironmentUndefined))
  {
    match AsyncRunConfig(currentPath, host, collection, environment, sslClientCert, sslClientKey)
    case Failure(thrown) => Rejected(ExecutorThrew(thrown))
    case Success(config) => OnEngineDone(collection, config, outcome)
  }
}
