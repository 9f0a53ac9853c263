/** The `NewmanConfig` class: its constructor-set settings and the loops of
    `looprun` and `removeDirectory`. */
module NewmanCore {
  import opened Wrappers
  import opened Foreign
  import opened PathResolver
  import opened ExecutionAdapter
  import opened OutcomeAggregator
  import opened Scheduler
  import opened DirectoryReset

  class NewmanConfig {
    const currentPath: string
    const reportersList: seq<string>
    const allureReportPath: string
    const newmanJsonReportPath: string
    const newmanHtmlReportPath: string

    /** `realDirectory` is `path.dirname(fs.realpathSync(__filename))`. */
    constructor (realDirectory: string)
      ensures currentPath == realDirectory
      ensures reportersList == ReportersList
      ensures allureReportPath == AllureReportPath
      ensures newmanJsonReportPath == JsonReportPath
      ensures newmanHtmlReportPath == HtmlReportPath
    {
      currentPath := realDirectory;
      reportersList := ReportersList;
      allureReportPath := AllureReportPath;
      newmanJsonReportPath := JsonReportPath;
      newmanHtmlReportPath := HtmlReportPath;
    }

    /** The series branch of `looprun`: every entry is run and reflected in
        turn and its record pushed onto `results`; once all have settled the
        batch fails when `failed` is non-empty. `outcomes[i]` is what the
        engine reports for entry i. */
    method LoopRunSeries(host: Host, runList: seq<RunEntry>, outcomes: seq<EngineOutcome>)
      returns (results: seq<Record>, batchFailed: bool)
      requires |outcomes| == |runList|
      ensures results == SeriesResults(currentPath, host, runList, outcomes)
      ensures |results| == |runList|
      ensures batchFailed <==> exists i :: 0 <= i < |runList| && results[i].RejectedRecord?
    {
      results := [];
      for i := 0 to |runList|
        invariant results == SeriesResults(currentPath, host, runList[..i], outcomes[..i])
      {
        var record := SeriesRecord(currentPath, host, runList[i], outcomes[i]);
        assert runList[..i + 1][..i] == runList[..i] && outcomes[..i + 1][..i] == outcomes[..i];
        results := results + [record];
      }
      assert runList[..|runList|] == runList && outcomes[..|outcomes|] == outcomes;
      var failed := Failed(results);
      batchFailed := |failed| > 0;
      BatchFailedIff(results);
    }

    /** The fire-and-forget branch of `looprun`: entries are handed to the
        engine one after the other without waiting; the first entry whose
        configuration throws aborts the `map`, so no later entry is
        dispatched. */
    method DispatchAll(host: Host, runList: seq<RunEntry>)
      returns (launched: seq<EngineConfig>, aborted: Option<Thrown>)
      ensures |launched| <= |runList|
      ensures forall k :: 0 <= k < |launched| ==> DispatchConfig(currentPath, host, runList[k]) == Success(launched[k])
      ensures aborted.None? ==> |launched| == |runList|
      ensures aborted.Some? ==>
        |launched| < |runList| && DispatchConfig(currentPath, host, runList[|launched|]) == Failure(aborted.value)
    {
      launched := [];
      aborted := None;
      var i := 0;
      while i < |runList|
        invariant 0 <= i <= |runList| && |launched| == i
        invariant forall k :: 0 <= k < i ==> DispatchConfig(currentPath, host, runList[k]) == Success(launched[k])
      {
        var config := DispatchConfig(currentPath, host, runList[i]);
        if config.Failure? {
          aborted := Some(config.error);
          return;
        }
        launched := launched + [config.value];
        i := i + 1;
      }
    }

    /** `removeDirectory`: every listed name but the sentinel is unlinked; an
        unlink that fails leaves its name and requests the recursive delete
        of the directory's contents. `listing` is what reading the directory
        returned and `unlinkFails` the names whose unlink fails. */
    method RemoveDirectory(directory: Directory, listing: seq<string>, unlinkFails: set<string>)
      modifies directory
      ensures directory.names == old(directory.names) - Unlinked(listing, unlinkFails)
      ensures directory.fallbackRequests ==
        old(directory.fallbackRequests) + Repeat(FallbackPattern(directory.path), FailedUnlinks(listing, unlinkFails))
    {
      for i := 0 to |listing|
        invariant directory.names == old(directory.names) - Unlinked(listing[..i], unlinkFails)
        invariant directory.fallbackRequests ==
          old(directory.fallbackRequests) + Repeat(FallbackPattern(directory.path), FailedUnlinks(listing[..i], unlinkFails))
      {
        var file := listing[i];
        assert listing[..i + 1] == listing[..i] + [file];
        assert listing[..i + 1][..i] == listing[..i];
        if file != Sentinel {
          if file in unlinkFails {
            directory.fallbackRequests := directory.fallbackRequests + [FallbackPattern(directory.path)];
          } else {
            directory.names := directory.names - {file};
          }
        }
      }
      assert listing[..|listing|] == listing;
    }
  }
}
