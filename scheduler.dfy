/** The two strategies of `looprun` as specifications over a run list: the
    series chain that reflects every run into a record, and the
    fire-and-forget dispatch that picks `runCollection` or
    `runCollectionWithEnv` per entry. */
module Scheduler {
  import opened Wrappers
  import opened JsText
  import opened Foreign
  import opened PathResolver
  import opened ExecutionAdapter
  import opened OutcomeAggregator

  /** One element of the manifest's `runs`. A missing (or null) optional field
      is `None`; `runCollectionAsync` defaults a missing TLS path to null. */
  datatype RunEntry = RunEntry(
    collection: string,
    environment: Option<string>,
    sslClientKey: Option<string>,
    sslClientCert: Option<string>)

  /** One step of the series chain:
      `reflect(this.runCollectionAsync(data.collection, data.environment,
      data.sslClientKey, data.sslClientCert))`. The entry's key path lands in
      the parameter named `sslClientCert` and its cert path in `sslClientKey`. */
  function SeriesRecord(currentPath: string, host: Host, entry: RunEntry, outcome: EngineOutcome): Record
  {
    Reflect(RunCollectionAsync(currentPath, host, entry.collection, entry.environment,
                               entry.sslClientKey, entry.sslClientCert, outcome))
  }

  /** The `results` array once the chain has settled: one record per entry,
      in manifest order. `outcomes[i]` is what the engine reports for entry i
      (unused when that entry fails before the engine is invoked). */
  function SeriesResults(currentPath: string, host: Host, runList: seq<RunEntry>, outcomes: seq<EngineOutcome>)
    : (results: seq<Record>)
    requires |outcomes| == |runList|
    ensures |results| == |runList|
    ensures forall i :: 0 <= i < |runList| ==> results[i] == SeriesRecord(currentPath, host, runList[i], outcomes[i])
  {
    if runList == [] then []
    else
      var n := |runList| - 1;
      SeriesResults(currentPath, host, runList[..n], outcomes[..n])
        + [SeriesRecord(currentPath, host, runList[n], outcomes[n])]
  }

  /** An entry without an environment is rejected in series mode whatever the
      engine would have reported: `get_relative_path(undefined)` throws inside
      the executor, and the rejection carries no collection. */
  lemma EntryWithoutEnvironmentIsRejected(currentPath: string, host: Host, entry: RunEntry, outcome: EngineOutcome)
    requires entry.environment.None?
    ensures SeriesRecord(currentPath, host, entry, outcome) == RejectedRecord(ExecutorThrew(EnvironmentUndefined))
  {
  }

  /** A series record is fulfilled exactly when the configuration could be
      built and the engine reported no error; a fulfilled record then carries
      the entry's collection and a configuration that always holds an
      environment and the report destinations named after the collection as
      written in the manifest. */
  lemma SeriesRecordFulfilledIff(currentPath: string, host: Host, entry: RunEntry, outcome: EngineOutcome)
    ensures var r := SeriesRecord(currentPath, host, entry, outcome);
      r.FulfilledRecord? <==>
        && entry.environment.Some?
        && GetRelativePath(currentPath, host, entry.collection) in host.modules
        && GetRelativePath(currentPath, host, entry.environment.value) in host.modules
        && (entry.sslClientKey.Some? ==> entry.sslClientKey.value in host.textFiles)
        && (entry.sslClientCert.Some? ==> entry.sslClientCert.value in host.textFiles)
        && !IsError(outcome)
    ensures var r := SeriesRecord(currentPath, host, entry, outcome);
      r.FulfilledRecord? ==>
        && r.completed.collection == entry.collection
        && r.completed.config.environment.Some?
        && r.completed.config.exports == ExportsFor(entry.collection)
  {
  }

  /** The TLS paths are crossed on the way in: the configuration's
      `sslClientCert` holds the trimmed text of the entry's KEY file and its
      `sslClientKey` the trimmed text of the entry's CERT file; a field is set
      only when the corresponding path is given. */
  lemma SeriesCrossesTlsMaterial(currentPath: string, host: Host, entry: RunEntry, outcome: EngineOutcome)
    requires SeriesRecord(currentPath, host, entry, outcome).FulfilledRecord?
    ensures var config := SeriesRecord(currentPath, host, entry, outcome).completed.config;
      && (config.sslClientCert.Some? <==> entry.sslClientKey.Some?)
      && (config.sslClientKey.Some? <==> entry.sslClientCert.Some?)
      && (entry.sslClientKey.Some? ==> config.sslClientCert == Some(Trim(host.textFiles[entry.sslClientKey.value])))
      && (entry.sslClientCert.Some? ==> config.sslClientKey == Some(Trim(host.textFiles[entry.sslClientCert.value])))
  {
  }

  /** A rejected series record that comes from the engine carries the entry's
      collection and the highest-priority error of the engine's report. */
  lemma SeriesRejectionCarriesReportedError(currentPath: string, host: Host, entry: RunEntry, outcome: EngineOutcome)
    requires SeriesRecord(currentPath, host, entry, outcome).RejectedRecord?
    requires SeriesRecord(currentPath, host, entry, outcome).errored.RunFailed?
    ensures IsError(outcome)
    ensures SeriesRecord(currentPath, host, entry, outcome).errored
         == RunFailed(entry.collection, ReportedError(outcome))
  {
  }

  /** Series mode signals batch failure exactly when some entry's record is
      rejected, i.e. some entry lacks an environment, cannot be configured, or
      is reported failing by the engine; and passed plus failed account for
      every entry. */
  lemma {:induction false} SeriesBatchFailedIff(currentPath: string, host: Host, runList: seq<RunEntry>, outcomes: seq<EngineOutcome>)
    requires |outcomes| == |runList|
    ensures var results := SeriesResults(currentPath, host, runList, outcomes);
      BatchFailed(results) <==>
        exists i :: 0 <= i < |runList| && SeriesRecord(currentPath, host, runList[i], outcomes[i]).RejectedRecord?
    ensures var results := SeriesResults(currentPath, host, runList, outcomes);
      |Passed(results)| + |Failed(results)| == |runList|
  {
    var results := SeriesResults(currentPath, host, runList, outcomes);
    BatchFailedIff(results);
    PartitionIsExact(results);
    if BatchFailed(results) {
      var i :| 0 <= i < |results| && results[i].RejectedRecord?;
      assert SeriesRecord(currentPath, host, runList[i], outcomes[i]).RejectedRecord?;
    }
  }

  /** The series configuration of an entry can be built. */
  predicate Configurable(currentPath: string, host: Host, entry: RunEntry)
  {
    AsyncRunConfig(currentPath, host, entry.collection, entry.environment, entry.sslClientKey, entry.sslClientCert).Success?
  }

  /** Three entries of which the second reports one assertion failure: the
      first and third pass in order, the second fails with its failure list
      attached, and batch failure is signalled. */
  lemma SecondOfThreeFails(currentPath: string, host: Host, e1: RunEntry, e2: RunEntry, e3: RunEntry,
                           pass: EngineOutcome, failure: string)
    requires Configurable(currentPath, host, e1) && Configurable(currentPath, host, e2) && Configurable(currentPath, host, e3)
    requires !IsError(pass)
    ensures var fail := EngineOutcome(None, None, [failure]);
      var results := SeriesResults(currentPath, host, [e1, e2, e3], [pass, fail, pass]);
      && Passed(results) == [SeriesRecord(currentPath, host, e1, pass), SeriesRecord(currentPath, host, e3, pass)]
      && Failed(results) == [RejectedRecord(RunFailed(e2.collection, AssertionFailures([failure])))]
      && BatchFailed(results)
  {
    var fail := EngineOutcome(None, None, [failure]);
    var results := SeriesResults(currentPath, host, [e1, e2, e3], [pass, fail, pass]);
    var r1 := SeriesRecord(currentPath, host, e1, pass);
    var r2 := SeriesRecord(currentPath, host, e2, fail);
    var r3 := SeriesRecord(currentPath, host, e3, pass);
    assert results == [r1, r2, r3];
    assert r2 == RejectedRecord(RunFailed(e2.collection, AssertionFailures([failure])));
    OnePassOneFailOnePass(r1, r2, r3);
  }

  // ---------------------------------------------------------------------------
  // Fire-and-forget

  /** The configuration the fire-and-forget branch hands the engine for one
      entry: `data.environment == undefined` (also true of null) selects
      `runCollection`, anything else `runCollectionWithEnv`. */
  function DispatchConfig(currentPath: string, host: Host, entry: RunEntry): (r: Result<EngineConfig, Thrown>)
    ensures r.Success? ==> (r.value.environment.Some? <==> entry.environment.Some?)
    ensures r.Success? ==> r.value.sslClientCert.None? && r.value.sslClientKey.None?
    ensures r.Success? ==> r.value.exports == ExportsFor(GetRelativePath(currentPath, host, entry.collection))
    ensures r.Success? <==>
      && GetRelativePath(currentPath, host, entry.collection) in host.modules
      && (entry.environment.Some? ==> GetRelativePath(currentPath, host, entry.environment.value) in host.modules)
  {
    if entry.environment.None? then PlainRunConfig(currentPath, host, entry.collection)
    else WithEnvRunConfig(currentPath, host, entry.collection, entry.environment.value)
  }

  /** In fire-and-forget mode a completed run requests process termination
      under exactly the condition that would reject it in series mode. */
  lemma FireAndForgetExitMatchesSeriesRejection(currentPath: string, host: Host, entry: RunEntry, outcome: EngineOutcome)
    requires AsyncRunConfig(currentPath, host, entry.collection, entry.environment, entry.sslClientKey, entry.sslClientCert).Success?
    ensures IsError(outcome) <==> SeriesRecord(currentPath, host, entry, outcome).RejectedRecord?
  {
  }
}
